/**
 Date notices in `DefaultContextRuntime.prepareContextAttempt`: when the date has changed
 since the system prompt was anchored, a notice is inserted between the projected messages,
 at a position where it can stay in later requests so that their prefix remains cacheable.
 */
module DateNotices {
  import opened Prelude

  const MS_PER_DAY := 86_400_000

  datatype Role = User | Assistant | Tool

  datatype Block = Text(text: string) | Other(id: nat)

  datatype Message = Message(role: Role, content: seq<Block>)

  datatype Update = Update(index: nat, date: int)

  /** What is remembered of the last committed request of a session. */
  datatype PromptTime = PromptTime(timestamp: int, messages: seq<Message>, updates: seq<Update>)

  /** A message of the request: a projected one or an inserted notice. */
  datatype Entry = Projected(message: Message) | Notice(date: int)

  /** The UTC day of a time stamp; the source compares the first ten characters of the ISO form. */
  function DateOf(ms: int): int { ms / MS_PER_DAY }

  predicate StartsWith(text: string, prefix: string) { prefix <= text }

  function CommonPrefix(a: seq<Message>, b: seq<Message>): (n: nat)
    ensures n <= |a| && n <= |b| && a[..n] == b[..n]
    ensures n < |a| && n < |b| ==> a[n] != b[n]
  {
    if a == [] || b == [] || a[0] != b[0] then 0 else 1 + CommonPrefix(a[1..], b[1..])
  }

  predicate HasText(m: Message, prefix: string) {
    exists b <- m.content :: b.Text? && StartsWith(b.text, prefix)
  }

  /** The request starts with a compaction checkpoint that the previous one did not start with. */
  predicate NewCheckpoint(previous: Option<PromptTime>, messages: seq<Message>) {
    && previous.Some?
    && |messages| >= 2
    && messages[0].role.User? && HasText(messages[0], "<compact-boundary")
    && messages[1].role.Assistant? && HasText(messages[1], "[CONTEXT COMPACTION - REFERENCE ONLY]")
    && CommonPrefix(messages, previous.value.messages) < 2
  }

  /** The updates inside the unchanged prefix. */
  function Keep(updates: seq<Update>, p: nat): seq<Update> {
    if updates == [] then []
    else (if updates[0].index <= p then [updates[0]] else []) + Keep(updates[1..], p)
  }

  function LastDate(timestamp: int, updates: seq<Update>): int { LastOf(DateOf(timestamp), updates) }

  /** The last date shown, where `date` is the one shown before any update. */
  function LastOf(date: int, updates: seq<Update>): int {
    if updates == [] then date else updates[|updates| - 1].date
  }

  function Kept(previous: Option<PromptTime>, messages: seq<Message>, refresh: bool): seq<Update> {
    if refresh || previous.None? then []
    else Keep(previous.value.updates, CommonPrefix(messages, previous.value.messages))
  }

  /** What a request for `messages` at time `now` is going to commit. */
  function Plan(previous: Option<PromptTime>, messages: seq<Message>, now: int, previewOnly: bool): PromptTime {
    var refresh := !previewOnly && NewCheckpoint(previous, messages);
    var timestamp := if previous.None? || refresh then now else previous.value.timestamp;
    var kept := Kept(previous, messages, refresh);
    PromptTime(timestamp, messages,
               if DateOf(now) != LastDate(timestamp, kept) then kept + [Update(|messages|, DateOf(now))] else kept)
  }

  /** JavaScript's `slice`, which clamps its bounds. */
  function Slice(s: seq<Message>, from: nat, to: nat): seq<Message> {
    var end := if to < |s| then to else |s|;
    if from <= end then s[from..end] else []
  }

  function Originals(messages: seq<Message>): (entries: seq<Entry>)
    ensures |entries| == |messages|
    ensures forall i | 0 <= i < |messages| :: entries[i] == Projected(messages[i])
  {
    seq(|messages|, i requires 0 <= i < |messages| => Projected(messages[i]))
  }

  /** The messages from `from` on, with the updates inserted at their positions. */
  function InsertFrom(messages: seq<Message>, from: nat, updates: seq<Update>): seq<Entry>
    decreases |updates|
  {
    if updates == [] then Originals(Slice(messages, from, |messages|))
    else Originals(Slice(messages, from, updates[0].index)) + [Notice(updates[0].date)]
         + InsertFrom(messages, updates[0].index, updates[1..])
  }

  function Base(t: PromptTime): seq<Entry> { InsertFrom(t.messages, 0, t.updates) }

  /** The messages of a request without its notices. */
  function Erase(entries: seq<Entry>): seq<Message> {
    if entries == [] then []
    else (if entries[0].Projected? then [entries[0].message] else []) + Erase(entries[1..])
  }

  // ---------------------------------------------------------------- the invariant

  /** The indices ascend, starting no lower than `from` and ending no higher than `length`. */
  predicate InOrder(updates: seq<Update>, from: nat, length: nat)
    decreases |updates|
  {
    var ordered := updates == [] || (from <= updates[0].index <= length && InOrder(updates[1..], updates[0].index, length));
    ordered
  }

  /** No two dates in a row are the same, where `date` is the one before the first. */
  predicate Alternating(date: int, updates: seq<Update>)
    decreases |updates|
  {
    var alternating := updates == [] || (updates[0].date != date && Alternating(updates[0].date, updates[1..]));
    alternating
  }

  /** Notices are in order and inside the messages, and no notice repeats the date shown before it. */
  predicate Valid(t: PromptTime) {
    var valid := InOrder(t.updates, 0, |t.messages|) && Alternating(DateOf(t.timestamp), t.updates);
    valid
  }

  predicate ValidState(state: map<string, PromptTime>) {
    forall s <- state :: Valid(state[s])
  }

  lemma {:induction false} NothingKept(updates: seq<Update>, from: nat, length: nat, p: nat)
    requires InOrder(updates, from, length) && p < from
    ensures Keep(updates, p) == []
    decreases |updates|
  {
    if updates == [] {
    } else {
      NothingKept(updates[1..], updates[0].index, length, p);
    }
  }

  /** Of ordered updates, the ones kept are a leading part, so they stay ordered and alternating. */
  lemma {:induction false} KeptAreValid(updates: seq<Update>, date: int, from: nat, length: nat, p: nat)
    requires InOrder(updates, from, length) && Alternating(date, updates) && from <= p
    ensures InOrder(Keep(updates, p), from, p) && Alternating(date, Keep(updates, p))
    decreases |updates|
  {
    if updates == [] {
    } else if updates[0].index <= p {
      KeptAreValid(updates[1..], updates[0].date, updates[0].index, length, p);
      assert Keep(updates, p)[1..] == Keep(updates[1..], p);
    } else {
      NothingKept(updates[1..], updates[0].index, length, p);
    }
  }

  lemma {:induction false} PushIsValid(updates: seq<Update>, date: int, from: nat, length: nat, end: nat, next: int)
    requires InOrder(updates, from, length) && Alternating(date, updates) && from <= end && length <= end
    requires next != LastOf(date, updates)
    ensures InOrder(updates + [Update(end, next)], from, end) && Alternating(date, updates + [Update(end, next)])
    decreases |updates|
  {
    if updates == [] {
    } else {
      assert LastOf(updates[0].date, updates[1..]) == LastOf(date, updates);
      PushIsValid(updates[1..], updates[0].date, updates[0].index, length, end, next);
      assert (updates + [Update(end, next)])[1..] == updates[1..] + [Update(end, next)];
    }
  }

  lemma {:induction false} Roomier(updates: seq<Update>, from: nat, length: nat, longer: nat)
    requires InOrder(updates, from, length) && length <= longer
    ensures InOrder(updates, from, longer)
    decreases |updates|
  {
    if updates == [] {
    } else {
      Roomier(updates[1..], updates[0].index, length, longer);
    }
  }

  lemma KeptStayValid(previous: Option<PromptTime>, messages: seq<Message>, timestamp: int, refresh: bool)
    requires previous.Some? ==> Valid(previous.value) && (refresh || timestamp == previous.value.timestamp)
    ensures InOrder(Kept(previous, messages, refresh), 0, |messages|)
    ensures Alternating(DateOf(timestamp), Kept(previous, messages, refresh))
  {
    if previous.Some? && !refresh {
      var p := CommonPrefix(messages, previous.value.messages);
      KeptAreValid(previous.value.updates, DateOf(timestamp), 0, |previous.value.messages|, p);
      Roomier(Keep(previous.value.updates, p), 0, p, |messages|);
    }
  }

  /** Every request commits a valid state, and the last date it shows is the date of the request. */
  lemma PlanIsValid(previous: Option<PromptTime>, messages: seq<Message>, now: int, previewOnly: bool)
    requires previous.Some? ==> Valid(previous.value)
    ensures Valid(Plan(previous, messages, now, previewOnly))
    ensures LastDate(Plan(previous, messages, now, previewOnly).timestamp, Plan(previous, messages, now, previewOnly).updates)
         == DateOf(now)
  {
    var refresh := !previewOnly && NewCheckpoint(previous, messages);
    var timestamp := Plan(previous, messages, now, previewOnly).timestamp;
    KeptStayValid(previous, messages, timestamp, refresh);
    if DateOf(now) != LastDate(timestamp, Kept(previous, messages, refresh)) {
      PushIsValid(Kept(previous, messages, refresh), DateOf(timestamp), 0, |messages|, |messages|, DateOf(now));
    }
  }

  // ---------------------------------------------------------------- erasing the notices

  lemma {:induction false} EraseConcat(a: seq<Entry>, b: seq<Entry>)
    ensures Erase(a + b) == Erase(a) + Erase(b)
    decreases |a|
  {
    if a == [] {
      assert a + b == b;
    } else {
      EraseConcat(a[1..], b);
      assert (a + b)[1..] == a[1..] + b && (a + b)[0] == a[0];
      var first := if a[0].Projected? then [a[0].message] else [];
      assert first + (Erase(a[1..]) + Erase(b)) == (first + Erase(a[1..])) + Erase(b);
    }
  }

  lemma {:induction false} EraseOriginals(messages: seq<Message>)
    ensures Erase(Originals(messages)) == messages
    decreases |messages|
  {
    if messages == [] {
    } else {
      EraseOriginals(messages[1..]);
      assert Originals(messages)[1..] == Originals(messages[1..]);
    }
  }

  lemma EraseFront(front: seq<Message>, date: int, rest: seq<Entry>)
    ensures Erase(Originals(front) + [Notice(date)] + rest) == front + Erase(rest)
  {
    EraseOriginals(front);
    EraseConcat(Originals(front), [Notice(date)] + rest);
    assert ([Notice(date)] + rest)[1..] == rest;
    assert Originals(front) + [Notice(date)] + rest == Originals(front) + ([Notice(date)] + rest);
  }

  lemma Rejoin(messages: seq<Message>, from: nat, middle: nat)
    requires from <= middle <= |messages|
    ensures Slice(messages, from, middle) + messages[middle..] == messages[from..]
  {
  }

  lemma {:induction false} EraseInsert(messages: seq<Message>, from: nat, updates: seq<Update>)
    requires from <= |messages| && InOrder(updates, from, |messages|)
    ensures Erase(InsertFrom(messages, from, updates)) == messages[from..]
    decreases |updates|
  {
    if updates == [] {
      EraseOriginals(messages[from..]);
      assert Slice(messages, from, |messages|) == messages[from..];
    } else {
      var u, front := updates[0], Slice(messages, from, updates[0].index);
      EraseInsert(messages, u.index, updates[1..]);
      EraseFront(front, u.date, InsertFrom(messages, u.index, updates[1..]));
      Rejoin(messages, from, u.index);
    }
  }

  /** Without its notices a request is the projected messages. */
  lemma NoticesOnlyAdd(t: PromptTime)
    requires Valid(t)
    ensures Erase(Base(t)) == t.messages
  {
    EraseInsert(t.messages, 0, t.updates);
    assert t.messages[0..] == t.messages;
  }

  lemma {:induction false} InsertedAt(messages: seq<Message>, from: nat, updates: seq<Update>, k: nat)
    requires from <= |messages| && InOrder(updates, from, |messages|)
    ensures |InsertFrom(messages, from, updates)| == |messages| - from + |updates|
    ensures k < |updates| ==>
              && from <= updates[k].index <= |messages|
              && InsertFrom(messages, from, updates)[updates[k].index - from + k] == Notice(updates[k].date)
    decreases |updates|
  {
    if updates == [] {
    } else {
      var u, front := updates[0], Originals(Slice(messages, from, updates[0].index));
      assert |front| == u.index - from;
      InsertedAt(messages, u.index, updates[1..], if k > 0 then k - 1 else 0);
      if 0 < k < |updates| {
        var rest := InsertFrom(messages, u.index, updates[1..]);
        assert updates[1..][k - 1] == updates[k];
        assert (front + [Notice(u.date)] + rest)[|front| + 1 + (updates[k].index - u.index + (k - 1))]
            == rest[updates[k].index - u.index + (k - 1)];
      }
    }
  }

  /** Each notice stands right after the messages that were there when it was placed. */
  lemma NoticeStandsAt(t: PromptTime, k: nat)
    requires Valid(t) && k < |t.updates|
    ensures |Base(t)| == |t.messages| + |t.updates| && t.updates[k].index <= |t.messages|
    ensures Base(t)[t.updates[k].index + k] == Notice(t.updates[k].date)
  {
    InsertedAt(t.messages, 0, t.updates, k);
  }

  // ---------------------------------------------------------------- what stays in front

  /** The first `p` messages with the notices inserted no later than that. */
  function BaseUpTo(t: PromptTime, p: nat): seq<Entry>
    requires p <= |t.messages|
  {
    Base(PromptTime(t.timestamp, t.messages[..p], Keep(t.updates, p)))
  }

  lemma FrontOfOriginals(messages: seq<Message>, from: nat, p: nat, to: nat)
    requires from <= p <= |messages| && p <= to
    ensures Originals(Slice(messages[..p], from, p)) <= Originals(Slice(messages, from, to))
  {
    var end := if to < |messages| then to else |messages|;
    assert Slice(messages[..p], from, p) == messages[from..p];
    assert messages[from..p] == messages[from..end][..p - from];
  }

  lemma SliceOfFront(messages: seq<Message>, p: nat, from: nat, to: nat)
    requires from <= to <= p <= |messages|
    ensures Slice(messages[..p], from, to) == Slice(messages, from, to)
  {
    assert messages[..p][from..to] == messages[from..to];
  }

  /** Inserting the leading updates into the first `p` messages gives the front of the request. */
  lemma {:induction false} FrontOfInsert(messages: seq<Message>, from: nat, updates: seq<Update>, p: nat)
    requires from <= p <= |messages| && InOrder(updates, from, |messages|)
    ensures InsertFrom(messages[..p], from, Keep(updates, p)) <= InsertFrom(messages, from, updates)
    decreases |updates|
  {
    if updates == [] {
      FrontOfOriginals(messages, from, p, |messages|);
    } else if updates[0].index <= p {
      var u := updates[0];
      FrontOfInsert(messages, u.index, updates[1..], p);
      assert Keep(updates, p)[1..] == Keep(updates[1..], p);
      SliceOfFront(messages, p, from, u.index);
    } else {
      NothingKept(updates[1..], updates[0].index, |messages|, p);
      FrontOfOriginals(messages, from, p, updates[0].index);
    }
  }

  lemma FrontOfBase(t: PromptTime, p: nat)
    requires Valid(t) && p <= |t.messages|
    ensures BaseUpTo(t, p) <= Base(t)
  {
    FrontOfInsert(t.messages, 0, t.updates, p);
  }

  lemma {:induction false} KeepTwice(updates: seq<Update>, p: nat, q: nat)
    requires p <= q
    ensures Keep(Keep(updates, q), p) == Keep(updates, p)
    decreases |updates|
  {
    if updates == [] {
    } else {
      KeepTwice(updates[1..], p, q);
      var first := if updates[0].index <= q then [updates[0]] else [];
      KeepConcat(first, Keep(updates[1..], q), p);
      assert first != [] ==> first[1..] == [];
    }
  }

  lemma {:induction false} KeepConcat(a: seq<Update>, b: seq<Update>, p: nat)
    ensures Keep(a + b, p) == Keep(a, p) + Keep(b, p)
    decreases |a|
  {
    if a == [] {
      assert a + b == b;
    } else {
      KeepConcat(a[1..], b, p);
      assert (a + b)[1..] == a[1..] + b && (a + b)[0] == a[0];
      var first := if a[0].index <= p then [a[0]] else [];
      assert first + (Keep(a[1..], p) + Keep(b, p)) == (first + Keep(a[1..], p)) + Keep(b, p);
    }
  }

  lemma KeepOne(u: Update, p: nat)
    ensures Keep([u], p) == if u.index <= p then [u] else []
  {
    assert [u][1..] == [];
  }

  /** Up to a position both requests share, they show the same notices, bar the one put at the new end. */
  lemma SameNotices(previous: PromptTime, messages: seq<Message>, now: int, previewOnly: bool, p: nat)
    requires previewOnly || !NewCheckpoint(Some(previous), messages)
    requires p <= CommonPrefix(messages, previous.messages)
    ensures var next := Plan(Some(previous), messages, now, previewOnly);
            var kept := Keep(previous.updates, p);
            || Keep(next.updates, p) == kept
            || (p == |messages| && Keep(next.updates, p) == kept + [Update(p, DateOf(now))])
  {
    var all := Keep(previous.updates, CommonPrefix(messages, previous.messages));
    var added := Update(|messages|, DateOf(now));
    KeepTwice(previous.updates, p, CommonPrefix(messages, previous.messages));
    KeepConcat(all, [added], p);
    KeepOne(added, p);
  }

  /** Putting one more notice at the very end only extends the request. */
  lemma {:induction false} NoticeAtTheEnd(messages: seq<Message>, from: nat, updates: seq<Update>, date: int)
    requires from <= |messages| && InOrder(updates, from, |messages|)
    ensures InsertFrom(messages, from, updates + [Update(|messages|, date)])
         == InsertFrom(messages, from, updates) + [Notice(date)]
    decreases |updates|
  {
    if updates == [] {
      assert [Update(|messages|, date)][1..] == [];
      assert Originals(Slice(messages, |messages|, |messages|)) == [];
    } else {
      NoticeAtTheEnd(messages, updates[0].index, updates[1..], date);
      assert (updates + [Update(|messages|, date)])[1..] == updates[1..] + [Update(|messages|, date)];
    }
  }

  /**
   For every position `p` up to which a request agrees with the last committed one, both
   start with those `p` messages and the notices placed among them: a cached prefix that
   ends there stays usable.
   */
  lemma AgreedPrefixIsKept(previous: PromptTime, messages: seq<Message>, now: int, previewOnly: bool, p: nat)
    requires Valid(previous) && (previewOnly || !NewCheckpoint(Some(previous), messages))
    requires p <= CommonPrefix(messages, previous.messages)
    ensures BaseUpTo(previous, p) <= Base(previous)
    ensures BaseUpTo(previous, p) <= Base(Plan(Some(previous), messages, now, previewOnly))
  {
    var next := Plan(Some(previous), messages, now, previewOnly);
    PlanIsValid(Some(previous), messages, now, previewOnly);
    FrontOfBase(previous, p);
    FrontOfBase(next, p);
    SharedMessages(messages, previous.messages, p);
    SameNotices(previous, messages, now, previewOnly, p);
    var kept := Keep(previous.updates, p);
    KeptAreValid(previous.updates, DateOf(previous.timestamp), 0, |previous.messages|, p);
    NoticeAtTheEnd(previous.messages[..p], 0, kept, DateOf(now));
    assert |previous.messages[..p]| == p;
  }

  lemma SharedMessages(a: seq<Message>, b: seq<Message>, p: nat)
    requires p <= CommonPrefix(a, b)
    ensures a[..p] == b[..p]
  {
    var n := CommonPrefix(a, b);
    assert a[..p] == a[..n][..p] && b[..p] == b[..n][..p];
  }

  // ---------------------------------------------------------------- growing conversations

  lemma {:induction false} LongestPrefix(a: seq<Message>, b: seq<Message>)
    requires a <= b
    ensures CommonPrefix(b, a) == |a|
    decreases |a|
  {
    if a == [] {
    } else {
      LongestPrefix(a[1..], b[1..]);
    }
  }

  lemma {:induction false} KeepAll(updates: seq<Update>, from: nat, p: nat)
    requires InOrder(updates, from, p)
    ensures Keep(updates, p) == updates
    decreases |updates|
  {
    if updates == [] {
    } else {
      KeepAll(updates[1..], updates[0].index, p);
    }
  }

  lemma {:induction false} NoticesShow(messages: seq<Message>, from: nat, updates: seq<Update>)
    requires updates != []
    ensures exists e <- InsertFrom(messages, from, updates) :: e.Notice?
  {
    var front := Originals(Slice(messages, from, updates[0].index));
    assert InsertFrom(messages, from, updates)[|front|] == Notice(updates[0].date);
  }

  /**
   A request that only appends messages extends the previous request as sent, notices and
   all, exactly unless it brings a new checkpoint while notices were showing.
   */
  lemma ExtensionExtends(previous: PromptTime, messages: seq<Message>, now: int)
    requires Valid(previous) && previous.messages <= messages
    ensures Base(previous) <= Base(Plan(Some(previous), messages, now, false))
       <==> !NewCheckpoint(Some(previous), messages) || previous.updates == []
  {
    var next := Plan(Some(previous), messages, now, false);
    var p := |previous.messages|;
    LongestPrefix(previous.messages, messages);
    KeepAll(previous.updates, 0, p);
    assert previous.messages[..p] == previous.messages;
    if !NewCheckpoint(Some(previous), messages) {
      AgreedPrefixIsKept(previous, messages, now, false, p);
    } else {
      assert next.updates == [];
      assert Base(next) == Originals(messages);
      if previous.updates != [] {
        NoticesShow(previous.messages, 0, previous.updates);
        var k :| 0 <= k < |Base(previous)| && Base(previous)[k].Notice?;
        assert !(k < |Base(next)| && Base(previous)[k] == Base(next)[k]);
      } else {
        assert Base(previous) == Originals(previous.messages);
      }
    }
  }

  datatype Request = Request(messages: seq<Message>, now: int)

  predicate Grows(t: PromptTime, requests: seq<Request>)
    decreases |requests|
  {
    requests == []
    || (&& t.messages <= requests[0].messages
        && !NewCheckpoint(Some(t), requests[0].messages)
        && Grows(Plan(Some(t), requests[0].messages, requests[0].now, false), requests[1..]))
  }

  function CommitAll(t: PromptTime, requests: seq<Request>): PromptTime
    decreases |requests|
  {
    if requests == [] then t
    else CommitAll(Plan(Some(t), requests[0].messages, requests[0].now, false), requests[1..])
  }

  /** However long a conversation grows and however often the date changes, no request loses an earlier prefix. */
  lemma {:induction false} PrefixOnlyGrows(t: PromptTime, requests: seq<Request>)
    requires Valid(t) && Grows(t, requests)
    ensures Valid(CommitAll(t, requests)) && Base(t) <= Base(CommitAll(t, requests))
    decreases |requests|
  {
    if requests == [] {
    } else {
      PlanIsValid(Some(t), requests[0].messages, requests[0].now, false);
      ExtensionExtends(t, requests[0].messages, requests[0].now);
      PrefixOnlyGrows(Plan(Some(t), requests[0].messages, requests[0].now, false), requests[1..]);
    }
  }

  // ---------------------------------------------------------------- when the date is refreshed

  lemma {:induction false} SharedStart(a: seq<Message>, b: seq<Message>, n: nat)
    requires n <= |a| && n <= |b| && a[..n] == b[..n]
    ensures CommonPrefix(a, b) >= n
    decreases n
  {
    if n > 0 {
      assert a[0] == a[..n][0] == b[..n][0] == b[0];
      assert a[1..][..n - 1] == a[..n][1..] && b[1..][..n - 1] == b[..n][1..];
      SharedStart(a[1..], b[1..], n - 1);
    } else {
    }
  }

  lemma {:induction false} SharedExactly(a: seq<Message>, b: seq<Message>, n: nat)
    requires n <= |a| && n <= |b| && a[..n] == b[..n]
    requires n < |a| && n < |b| ==> a[n] != b[n]
    ensures CommonPrefix(a, b) == n
    decreases n
  {
    if n > 0 {
      assert a[0] == a[..n][0] == b[..n][0] == b[0];
      assert a[1..][..n - 1] == a[..n][1..] && b[1..][..n - 1] == b[..n][1..];
      SharedExactly(a[1..], b[1..], n - 1);
    } else {
    }
  }

  /** The message has a text block that starts with `header`. */
  predicate Headed(m: Message, role: Role, header: string) {
    m.role == role && exists i | 0 <= i < |m.content| :: m.content[i].Text? && header <= m.content[i].text
  }

  lemma HeaderIsText(m: Message, role: Role, header: string)
    ensures Headed(m, role, header) <==> m.role == role && HasText(m, header)
  {
    if HasText(m, header) {
      var b :| b in m.content && b.Text? && header <= b.text;
      var i :| 0 <= i < |m.content| && m.content[i] == b;
    }
  }

  /** The first two messages are a compaction checkpoint. */
  predicate Checkpointed(messages: seq<Message>) {
    && |messages| >= 2
    && Headed(messages[0], User, "<compact-boundary")
    && Headed(messages[1], Assistant, "[CONTEXT COMPACTION - REFERENCE ONLY]")
  }

  /**
   The system date is refreshed, and all notices are dropped, exactly when a request that is
   not a preview begins with a checkpoint that the last committed one did not begin with.
   */
  lemma DateIsRefreshed(previous: PromptTime, messages: seq<Message>, now: int, previewOnly: bool)
    ensures var refreshed := !previewOnly && Checkpointed(messages) && !(messages[..2] <= previous.messages);
            var next := Plan(Some(previous), messages, now, previewOnly);
            && next.messages == messages
            && next.timestamp == (if refreshed then now else previous.timestamp)
            && (refreshed ==> next.updates == [])
  {
    if |messages| >= 2 {
      HeaderIsText(messages[0], User, "<compact-boundary");
      HeaderIsText(messages[1], Assistant, "[CONTEXT COMPACTION - REFERENCE ONLY]");
      if messages[..2] <= previous.messages {
        assert previous.messages[..2] == messages[..2];
        SharedStart(messages, previous.messages, 2);
      } else if CommonPrefix(messages, previous.messages) >= 2 {
        SharedMessages(messages, previous.messages, 2);
      }
    }
  }

  /** A first request is dated today and shows no notice. */
  lemma FirstRequest(messages: seq<Message>, now: int, previewOnly: bool)
    ensures Plan(None, messages, now, previewOnly) == PromptTime(now, messages, [])
  {
  }

  lemma {:induction false} KeptOnes(updates: seq<Update>, p: nat, u: Update)
    ensures u in Keep(updates, p) <==> u in updates && u.index <= p
    decreases |updates|
  {
    if updates == [] {
    } else {
      KeptOnes(updates[1..], p, u);
      assert updates == [updates[0]] + updates[1..];
    }
  }

  /**
   Without a refresh, the notices that stay are those placed no later than the first message
   that changed, and the only new one, today's, is at the end.
   */
  lemma NoticesThatStay(previous: PromptTime, messages: seq<Message>, now: int, previewOnly: bool, u: Update, p: nat)
    requires previewOnly || !Checkpointed(messages) || messages[..2] <= previous.messages
    requires p <= |messages| && p <= |previous.messages| && messages[..p] == previous.messages[..p]
    requires p < |messages| && p < |previous.messages| ==> messages[p] != previous.messages[p]
    ensures var next := Plan(Some(previous), messages, now, previewOnly);
            && (u in previous.updates && u.index <= p ==> u in next.updates)
            && (u in next.updates ==> (u in previous.updates && u.index <= p) || u == Update(|messages|, now / 86_400_000))
  {
    DateIsRefreshed(previous, messages, now, previewOnly);
    NoRefresh(previous, messages, previewOnly);
    SharedExactly(messages, previous.messages, p);
    KeptOnes(previous.updates, p, u);
  }

  lemma NoRefresh(previous: PromptTime, messages: seq<Message>, previewOnly: bool)
    requires previewOnly || !Checkpointed(messages) || messages[..2] <= previous.messages
    ensures previewOnly || !NewCheckpoint(Some(previous), messages)
  {
    if |messages| >= 2 {
      HeaderIsText(messages[0], User, "<compact-boundary");
      HeaderIsText(messages[1], Assistant, "[CONTEXT COMPACTION - REFERENCE ONLY]");
      if messages[..2] <= previous.messages {
        assert previous.messages[..2] == messages[..2];
        SharedStart(messages, previous.messages, 2);
      }
    }
  }

  // ---------------------------------------------------------------- the runtime's own form

  class ContextRuntime {
    var promptTimeState: map<string, PromptTime>

    constructor ()
      ensures promptTimeState == map[] && ValidState(promptTimeState)
    {
      promptTimeState := map[];
    }

    /** `prepareContextAttempt`, as far as date notices go. */
    method PrepareContextAttempt(sessionId: string, messages: seq<Message>, now: int, previewOnly: bool)
      returns (requestMessages: seq<Entry>, prepared: PromptTime)
      requires ValidState(promptTimeState)
      ensures var previous := if sessionId in promptTimeState then Some(promptTimeState[sessionId]) else None;
              prepared == Plan(previous, messages, now, previewOnly)
      ensures Valid(prepared) && requestMessages == Base(prepared)
      ensures Erase(requestMessages) == messages && LastDate(prepared.timestamp, prepared.updates) == DateOf(now)
    {
      var previousTime := if sessionId in promptTimeState then Some(promptTimeState[sessionId]) else None;
      var unchangedPrefixLength := 0;
      if previousTime.Some? {
        unchangedPrefixLength := UnchangedPrefix(messages, previousTime.value.messages);
      }
      var newCheckpoint := previousTime.Some? && |messages| >= 2
                           && messages[0].role.User? && HasText(messages[0], "<compact-boundary")
                           && messages[1].role.Assistant? && HasText(messages[1], "[CONTEXT COMPACTION - REFERENCE ONLY]")
                           && unchangedPrefixLength < 2;
      var refreshTime := !previewOnly && newCheckpoint;
      var currentDate := DateOf(now);
      var promptTimestamp := if previousTime.None? || refreshTime then now else previousTime.value.timestamp;
      var dateUpdates: seq<Update> := [];
      if !refreshTime && previousTime.Some? {
        dateUpdates := Keep(previousTime.value.updates, unchangedPrefixLength);
      }
      if currentDate != LastDate(promptTimestamp, dateUpdates) {
        dateUpdates := dateUpdates + [Update(|messages|, currentDate)];
      }
      prepared := PromptTime(promptTimestamp, messages, dateUpdates);
      assert prepared == Plan(previousTime, messages, now, previewOnly);
      PlanIsValid(previousTime, messages, now, previewOnly);
      NoticesOnlyAdd(prepared);
      requestMessages := InsertNotices(messages, dateUpdates);
    }

    /** `commit` */
    method Commit(sessionId: string, prepared: PromptTime)
      requires ValidState(promptTimeState) && Valid(prepared)
      modifies this
      ensures promptTimeState == old(promptTimeState)[sessionId := prepared] && ValidState(promptTimeState)
    {
      promptTimeState := promptTimeState[sessionId := prepared];
    }
  }

  method UnchangedPrefix(messages: seq<Message>, previous: seq<Message>) returns (n: nat)
    ensures n == CommonPrefix(messages, previous)
  {
    n := 0;
    while n < |messages| && n < |previous| && messages[n] == previous[n]
      invariant n <= |messages| && n <= |previous|
      invariant CommonPrefix(messages, previous) == n + CommonPrefix(messages[n..], previous[n..])
    {
      assert messages[n..][1..] == messages[n + 1..] && previous[n..][1..] == previous[n + 1..];
      n := n + 1;
    }
  }

  lemma Regroup(a: seq<Entry>, b: seq<Entry>, c: seq<Entry>)
    ensures a + (b + c) == (a + b) + c
  {
  }

  method InsertNotices(messages: seq<Message>, dateUpdates: seq<Update>) returns (requestMessages: seq<Entry>)
    ensures requestMessages == InsertFrom(messages, 0, dateUpdates)
  {
    requestMessages := [];
    var messageIndex: nat := 0;
    for i := 0 to |dateUpdates|
      invariant InsertFrom(messages, 0, dateUpdates)
             == requestMessages + InsertFrom(messages, messageIndex, dateUpdates[i..])
    {
      var update := dateUpdates[i];
      assert dateUpdates[i..][1..] == dateUpdates[i + 1..];
      var moved := Originals(Slice(messages, messageIndex, update.index)) + [Notice(update.date)];
      Regroup(requestMessages, moved, InsertFrom(messages, update.index, dateUpdates[i + 1..]));
      requestMessages := requestMessages + moved;
      messageIndex := update.index;
    }
    requestMessages := requestMessages + Originals(Slice(messages, messageIndex, |messages|));
  }
}
