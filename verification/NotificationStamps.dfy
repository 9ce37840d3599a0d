/**
 The server side of notifications (`ui/server/session-notifications.js`): which frames become
 reminders, and the time stamps they get.  Maps keep JavaScript's insertion order, so they
 are sequences here; the first entry is the one evicted.
 */
module NotificationStamps {
  import opened Prelude

  const SESSION_LIMIT := 2048
  const SEEN_LIMIT := 4096

  datatype SessionKey = SessionKey(user: string, session: string)

  datatype Reminded = Reminded(key: SessionKey, attention: string)

  /** The summary kept per session; `attentionAt` is the stamp of its last reminder. */
  datatype Summary = Summary(key: SessionKey, runId: Option<string>, attentionAt: Option<int>)

  /**
   A frame as far as the registry looks at it: `attention` is what `sessionAttention` makes of
   it, `startsRun` and `ignored` are the two tests at the top of `receive`.
   */
  datatype Frame = Frame(
    key: SessionKey, ignored: bool, runId: Option<string>, startsRun: bool, attention: Option<string>,
    timestamp: Option<int>)

  datatype Reminder = Reminder(key: SessionKey, id: string, createdAt: int)

  datatype State = State(sessions: seq<Summary>, seen: seq<Reminded>)

  const INIT := State([], [])

  function Without(sessions: seq<Summary>, key: SessionKey): seq<Summary> {
    if sessions == [] then []
    else if sessions[0].key == key then Without(sessions[1..], key)
    else [sessions[0]] + Without(sessions[1..], key)
  }

  function Find(sessions: seq<Summary>, key: SessionKey): Option<Summary> {
    if sessions == [] then None
    else if sessions[0].key == key then Some(sessions[0])
    else Find(sessions[1..], key)
  }

  predicate Retained(s: State, key: SessionKey) { Find(s.sessions, key).Some? }

  /** A frame of another run than the current one is dropped unless it starts its run. */
  predicate Stale(previous: Option<Summary>, f: Frame) {
    && previous.Some? && previous.value.runId.Some? && previous.value.runId.value != ""
    && f.runId.Some? && f.runId.value != "" && previous.value.runId != f.runId && !f.startsRun
  }

  /** `Date.parse(previous?.attentionAt) || 0` */
  function LastStamp(previous: Option<Summary>): int {
    if previous.Some? && previous.value.attentionAt.Some? then previous.value.attentionAt.value else 0
  }

  function Max(a: int, b: int): int { if a < b then b else a }

  function Stamp(previous: Option<Summary>, f: Frame, now: int): int {
    Max(f.timestamp.GetOr(now), LastStamp(previous) + 1)
  }

  predicate Reminds(s: State, f: Frame) {
    !f.ignored && !Stale(Find(s.sessions, f.key), f) && f.attention.Some? && Reminded(f.key, f.attention.value) !in s.seen
  }

  function Updated(s: State, f: Frame, now: int): Summary {
    var previous := Find(s.sessions, f.key);
    var runId := if f.runId.Some? && f.runId.value != "" then f.runId
                 else if previous.Some? then previous.value.runId else None;
    Summary(f.key, runId, if Reminds(s, f) then Some(Stamp(previous, f, now))
                          else if previous.Some? then previous.value.attentionAt else None)
  }

  function Shift<T>(entries: seq<T>, limit: nat): (kept: seq<T>)
    ensures kept == entries || (entries != [] && kept == entries[1..])
  {
    if |entries| > limit && entries != [] then entries[1..] else entries
  }

  /** `receive`, for its effect. */
  function Receive(s: State, f: Frame, now: int): State {
    if f.ignored || Stale(Find(s.sessions, f.key), f) then s
    else
      State(Shift(Without(s.sessions, f.key) + [Updated(s, f, now)], SESSION_LIMIT),
            if Reminds(s, f) then Shift(s.seen + [Reminded(f.key, f.attention.value)], SEEN_LIMIT) else s.seen)
  }

  /** ... and for its result. */
  function Result(s: State, f: Frame, now: int): Option<Reminder> {
    if Reminds(s, f) then Some(Reminder(f.key, f.attention.value, Stamp(Find(s.sessions, f.key), f, now))) else None
  }

  function Remove(s: State, key: SessionKey): State { s.(sessions := Without(s.sessions, key)) }

  datatype Event = Frames(frame: Frame, now: int) | Removed(key: SessionKey)

  function Step(s: State, e: Event): State {
    match e
    case Frames(f, now) => Receive(s, f, now)
    case Removed(key) => Remove(s, key)
  }

  function Emits(s: State, e: Event): Option<Reminder> {
    match e
    case Frames(f, now) => Result(s, f, now)
    case Removed(key) => None
  }

  // ---------------------------------------------------------------- the registry stays bounded

  /** No session has two entries. */
  predicate DistinctSessions(sessions: seq<Summary>) {
    sessions == [] || (Find(sessions[1..], sessions[0].key).None? && DistinctSessions(sessions[1..]))
  }

  predicate DistinctSeen(seen: seq<Reminded>) {
    forall i, j | 0 <= i < j < |seen| :: seen[i] != seen[j]
  }

  predicate Inv(s: State) {
    var sound :=
      DistinctSessions(s.sessions) && DistinctSeen(s.seen) && |s.sessions| <= SESSION_LIMIT && |s.seen| <= SEEN_LIMIT;
    sound
  }

  lemma {:induction false} FindWithout(sessions: seq<Summary>, key: SessionKey, other: SessionKey)
    ensures Find(Without(sessions, key), other) == if other == key then None else Find(sessions, other)
    decreases |sessions|
  {
    if sessions == [] {
    } else {
      FindWithout(sessions[1..], key, other);
      assert ([sessions[0]] + Without(sessions[1..], key))[1..] == Without(sessions[1..], key);
    }
  }

  lemma {:induction false} WithoutDistinct(sessions: seq<Summary>, key: SessionKey)
    requires DistinctSessions(sessions)
    ensures DistinctSessions(Without(sessions, key))
    ensures |Without(sessions, key)| == |sessions| - (if Find(sessions, key).Some? then 1 else 0)
    decreases |sessions|
  {
    if sessions == [] {
    } else {
      WithoutDistinct(sessions[1..], key);
      FindWithout(sessions[1..], key, sessions[0].key);
      assert ([sessions[0]] + Without(sessions[1..], key))[1..] == Without(sessions[1..], key);
    }
  }

  lemma {:induction false} FindInConcat(a: seq<Summary>, b: seq<Summary>, key: SessionKey)
    ensures Find(a + b, key) == if Find(a, key).Some? then Find(a, key) else Find(b, key)
    decreases |a|
  {
    if a == [] {
      assert a + b == b;
    } else {
      FindInConcat(a[1..], b, key);
      assert (a + b)[1..] == a[1..] + b;
    }
  }

  lemma {:induction false} AppendDistinct(sessions: seq<Summary>, added: Summary)
    requires DistinctSessions(sessions) && Find(sessions, added.key).None?
    ensures DistinctSessions(sessions + [added])
    decreases |sessions|
  {
    if sessions == [] {
      assert sessions + [added] == [added];
      assert [added][1..] == [];
    } else {
      AppendDistinct(sessions[1..], added);
      FindInConcat(sessions[1..], [added], sessions[0].key);
      assert (sessions + [added])[1..] == sessions[1..] + [added];
      assert [added][1..] == [];
    }
  }

  lemma StepKeeps(s: State, e: Event)
    requires Inv(s)
    ensures Inv(Step(s, e))
  {
    match e {
      case Removed(key) => WithoutDistinct(s.sessions, key);
      case Frames(f, now) =>
        SessionsKept(s.sessions, Updated(s, f, now));
        if Reminds(s, f) { SeenKept(s.seen, Reminded(f.key, f.attention.value)); }
    }
  }

  lemma SessionsKept(sessions: seq<Summary>, added: Summary)
    requires DistinctSessions(sessions) && |sessions| <= SESSION_LIMIT
    ensures var kept := Shift(Without(sessions, added.key) + [added], SESSION_LIMIT);
            DistinctSessions(kept) && |kept| <= SESSION_LIMIT
  {
    WithoutDistinct(sessions, added.key);
    FindWithout(sessions, added.key, added.key);
    AppendDistinct(Without(sessions, added.key), added);
  }

  lemma SeenKept(seen: seq<Reminded>, added: Reminded)
    requires DistinctSeen(seen) && |seen| <= SEEN_LIMIT && added !in seen
    ensures DistinctSeen(Shift(seen + [added], SEEN_LIMIT)) && |Shift(seen + [added], SEEN_LIMIT)| <= SEEN_LIMIT
  {
    assert DistinctSeen(seen + [added]);
  }

  // ---------------------------------------------------------------- stamps of one session

  /** Dropping the oldest entry only forgets: what is still found is what was found before. */
  lemma FindAfterShift(sessions: seq<Summary>, limit: nat, key: SessionKey)
    requires DistinctSessions(sessions) && Find(Shift(sessions, limit), key).Some?
    ensures Find(sessions, key) == Find(Shift(sessions, limit), key)
  {
    if sessions != [] && sessions[0].key == key { assert Find(sessions[1..], key).None?; }
  }

  /** The summary of a session that is still retained after a frame. */
  lemma AfterFrame(s: State, f: Frame, now: int, key: SessionKey)
    requires Inv(s) && Retained(Receive(s, f, now), key)
    ensures Find(Receive(s, f, now).sessions, key)
         == if key == f.key && !f.ignored && !Stale(Find(s.sessions, f.key), f) then Some(Updated(s, f, now))
            else Find(s.sessions, key)
  {
    if !f.ignored && !Stale(Find(s.sessions, f.key), f) {
      var rest := Without(s.sessions, f.key);
      WithoutDistinct(s.sessions, f.key);
      FindWithout(s.sessions, f.key, f.key);
      AppendDistinct(rest, Updated(s, f, now));
      FindAfterShift(rest + [Updated(s, f, now)], SESSION_LIMIT, key);
      FindInConcat(rest, [Updated(s, f, now)], key);
      FindWithout(s.sessions, f.key, key);
    }
  }

  /** The latest stamp of a session while it is retained. */
  function StampOf(s: State, key: SessionKey): int { LastStamp(Find(s.sessions, key)) }

  lemma StampsDoNotFall(s: State, e: Event, key: SessionKey)
    requires Inv(s) && Retained(s, key) && Retained(Step(s, e), key)
    ensures StampOf(Step(s, e), key) >= StampOf(s, key)
    ensures Emits(s, e).Some? && Emits(s, e).value.key == key ==>
              StampOf(s, key) < Emits(s, e).value.createdAt == StampOf(Step(s, e), key)
  {
    match e {
      case Frames(f, now) => AfterFrame(s, f, now, key);
      case Removed(other) => FindWithout(s.sessions, other, key);
    }
  }

  /** The session is retained before and after every one of the events. */
  predicate RetainedThrough(s: State, events: seq<Event>, key: SessionKey)
    decreases |events|
  {
    Retained(s, key) && (events != [] ==> RetainedThrough(Step(s, events[0]), events[1..], key))
  }

  function Run(s: State, events: seq<Event>): State
    decreases |events|
  {
    if events == [] then s else Run(Step(s, events[0]), events[1..])
  }

  /** The reminders of one session, in the order in which they are sent. */
  function Reminders(s: State, events: seq<Event>, key: SessionKey): seq<Reminder>
    decreases |events|
  {
    if events == [] then []
    else
      var r := Emits(s, events[0]);
      (if r.Some? && r.value.key == key then [r.value] else []) + Reminders(Step(s, events[0]), events[1..], key)
  }

  predicate Increasing(after: int, reminders: seq<Reminder>) {
    var increasing :=
      && (forall i | 0 <= i < |reminders| :: reminders[i].createdAt > after)
      && forall i, j | 0 <= i < j < |reminders| :: reminders[i].createdAt < reminders[j].createdAt;
    increasing
  }

  /**
   While a session is retained, each of its reminders is stamped later than all before it,
   whatever the clock does and whatever time stamps its frames carry.
   */
  lemma {:induction false} StampsIncrease(s: State, events: seq<Event>, key: SessionKey)
    requires Inv(s) && RetainedThrough(s, events, key)
    ensures Increasing(StampOf(s, key), Reminders(s, events, key))
    decreases |events|
  {
    if events == [] {
    } else {
      var t := Step(s, events[0]);
      StepKeeps(s, events[0]);
      assert Retained(t, key);
      StampsDoNotFall(s, events[0], key);
      StampsIncrease(t, events[1..], key);
      Prepended(StampOf(s, key), StampOf(t, key), Emits(s, events[0]), Reminders(t, events[1..], key), key);
    }
  }

  lemma Prepended(before: int, after: int, r: Option<Reminder>, rest: seq<Reminder>, key: SessionKey)
    requires before <= after && Increasing(after, rest)
    requires r.Some? && r.value.key == key ==> before < r.value.createdAt == after
    ensures Increasing(before, (if r.Some? && r.value.key == key then [r.value] else []) + rest)
  {
  }

  // ---------------------------------------------------------------- which frames remind, and when

  /** A frame of another run than the session is in, which does not start its run. */
  predicate OfAnotherRun(s: State, f: Frame) {
    var previous := Find(s.sessions, f.key);
    previous.Some? && previous.value.runId.GetOr("") != "" && f.runId.GetOr("") != ""
    && f.runId != previous.value.runId && !f.startsRun
  }

  /**
   A frame that asks for attention reminds, once, unless it is of no interest or of another
   run.  The reminder has the time of the frame, or of its receipt if that is unknown; but if
   the session's last reminder is not earlier than that, it comes a millisecond after it.
   */
  lemma FrameReminds(s: State, f: Frame, now: int)
    ensures var reminder := Emits(s, Frames(f, now));
            var previous := Find(s.sessions, f.key);
            var time := match f.timestamp case Some(own) => own case None => now;
            var last := if previous.Some? then previous.value.attentionAt.GetOr(0) else 0;
            && (reminder.Some? <==> !f.ignored && !OfAnotherRun(s, f) && f.attention.Some?
                                    && !(exists r <- s.seen :: r == Reminded(f.key, f.attention.value)))
            && (reminder.Some? ==> reminder.value == Reminder(f.key, f.attention.value, if time > last then time else last + 1))
  {
  }

  /** A reminder is remembered, so the same attention does not remind again, and the session keeps its stamp. */
  lemma ReminderIsRemembered(s: State, f: Frame, now: int, again: Frame, later: int)
    requires Inv(s) && Emits(s, Frames(f, now)).Some? && again.key == f.key && again.attention == f.attention
    ensures var t := Step(s, Frames(f, now));
            && Emits(t, Frames(again, later)) == None
            && (Retained(t, f.key) ==>
                  Find(t.sessions, f.key).value.attentionAt == Some(Emits(s, Frames(f, now)).value.createdAt))
  {
    var t := Step(s, Frames(f, now));
    var r := Reminded(f.key, f.attention.value);
    var seen := s.seen + [r];
    assert seen[|s.seen|] == r;
    assert r in t.seen by {
      if |seen| > SEEN_LIMIT { assert seen[1..][|s.seen| - 1] == r; }
    }
    if Retained(t, f.key) { AfterFrame(s, f, now, f.key); }
  }

  /** The session is in the run of the last frame that named one. */
  lemma RunIsRemembered(s: State, f: Frame, now: int)
    requires Inv(s) && !f.ignored && !OfAnotherRun(s, f) && Retained(Step(s, Frames(f, now)), f.key)
    ensures var previous := Find(s.sessions, f.key);
            Find(Step(s, Frames(f, now)).sessions, f.key).value.runId
            == if f.runId.GetOr("") != "" then f.runId else if previous.Some? then previous.value.runId else None
  {
    AfterFrame(s, f, now, f.key);
  }
}
