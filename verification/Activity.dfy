/**
 The sidebar's activity registry (`ui/server/session-activity.js`): per user the sessions
 with their run, in the order of their last change, and the questions and approvals each
 session waits for.  Absent identifiers are empty strings.
 */
module Activity {
  import opened Prelude

  const SESSION_LIMIT := 2048

  datatype ItemStatus = Sending | Failed | Waiting

  datatype Item = Item(id: string, runId: string, status: ItemStatus)

  datatype Body =
    | Started
    | UserText
    | Complete(completed: bool)
    | Interrupted
    | Error(terminal: bool)
    | InputQueue(items: seq<Item>)
    | Ask(question: bool)               // permission_request and interactive_prompt
    | Cancelled
    | ToolResult(toolId: string)
    | Other

  datatype Frame = Frame(
    sessionId: string, runId: string, id: string, requestId: string, toolCallId: string, body: Body, timestamp: string)

  datatype AttentionKind = Completed | Question | Approval | Problem

  datatype Attention = Attention(id: string, kind: AttentionKind)

  datatype Request = Request(question: bool, toolId: string)

  datatype WaitingFor = Nobody | ForApproval | ForAnswer

  datatype Entry = Entry(
    sessionId: string, runId: string, processing: bool, waitingFor: WaitingFor, completedRunId: string,
    attentionId: string, attentionAt: string, revision: nat)

  datatype Place = Place(user: string, sessionId: string)

  datatype State = State(users: map<string, seq<Entry>>, pendingRequests: map<Place, map<string, Request>>, revision: nat)

  const INIT := State(map[], map[], 0)

  function Or(a: string, b: string): string { if a != "" then a else b }

  // ---------------------------------------------------------------- reading a frame

  function FirstItem(items: seq<Item>, status: ItemStatus): Option<Item> {
    if items == [] then None
    else if items[0].status == status then Some(items[0])
    else FirstItem(items[1..], status)
  }

  /** `sessionAttention` */
  function SessionAttention(f: Frame): Option<Attention> {
    var run := Or(f.runId, f.id);
    match f.body
    case Complete(completed) => if completed && run != "" then Some(Attention(run, Completed)) else None
    case Ask(question) =>
      var id := Or(Or(f.requestId, f.toolCallId), f.id);
      if id == "" then None
      else Some(Attention((if question then "question:" else "approval:") + id, if question then Question else Approval))
    case Error(terminal) => if terminal && run != "" then Some(Attention("error:" + run, Problem)) else None
    case InputQueue(items) =>
      var failed := FirstItem(items, Failed);
      if failed.Some? then Some(Attention("error:" + failed.value.id, Problem)) else None
    case _ => None
  }

  predicate StartsRun(f: Frame) { f.body.Started? || f.body.UserText? }

  function RunOf(previous: Option<Entry>): string { if previous.Some? then previous.value.runId else "" }

  predicate Running(previous: Option<Entry>) { previous.Some? && previous.value.processing }

  /** The run of the session after the frame, and whether it is being worked on; None: the frame is of no interest. */
  function Judge(previous: Option<Entry>, f: Frame, waiting: bool): Option<(bool, string)> {
    match f.body
    case Started | UserText => Some((true, f.runId))
    case Complete(_) | Interrupted => Some((false, f.runId))
    case Error(terminal) => if terminal then Some((false, f.runId)) else None
    case InputQueue(items) =>
      var sending := FirstItem(items, Sending);
      if sending.Some? then Some((true, Or(sending.value.runId, sending.value.id)))
      else if exists i <- items :: i.status.Failed? && i.id == RunOf(previous) then Some((false, f.runId))
      else None
    case Ask(_) => if SessionAttention(f).Some? then Some((StillRuns(previous), f.runId)) else None
    case Cancelled => Some((StillRuns(previous), f.runId))
    case ToolResult(_) => if waiting then Some((StillRuns(previous), f.runId)) else None
    case Other => None
  }

  /** `previous?.processing ?? true` */
  predicate StillRuns(previous: Option<Entry>) { previous.None? || previous.value.processing }

  predicate Stale(previous: Option<Entry>, f: Frame) {
    || (previous.None? && f.body.Cancelled?)
    || (RunOf(previous) != "" && f.runId != "" && RunOf(previous) != f.runId && !StartsRun(f))
  }

  // ---------------------------------------------------------------- the pending requests

  function Requests(s: State, place: Place): map<string, Request> {
    if place in s.pendingRequests then s.pendingRequests[place] else map[]
  }

  /** A new run forgets what the old one was waiting for. */
  function Carried(s: State, place: Place, previous: Option<Entry>, f: Frame): map<string, Request> {
    if StartsRun(f) && f.runId != RunOf(previous) then map[] else Requests(s, place)
  }

  function WithoutTool(pending: map<string, Request>, toolId: string): map<string, Request> {
    map id | id in pending && pending[id].toolId != toolId :: pending[id]
  }

  function PendingAfter(pending: map<string, Request>, f: Frame, processing: bool): map<string, Request> {
    if !processing then map[]
    else if f.body.Ask? && SessionAttention(f).Some?
    then pending[Or(Or(f.requestId, f.toolCallId), f.id) := Request(f.body.question, f.toolCallId)]
    else if f.body.Cancelled? then pending - {f.requestId}
    else if f.body.ToolResult? && f.body.toolId != "" then WithoutTool(pending, f.body.toolId)
    else pending
  }

  function Waits(pending: map<string, Request>): WaitingFor {
    if exists id <- pending :: pending[id].question then ForAnswer
    else if pending != map[] then ForApproval
    else Nobody
  }

  function SetRequests(all: map<Place, map<string, Request>>, place: Place, pending: map<string, Request>)
    : map<Place, map<string, Request>>
  {
    if pending != map[] then all[place := pending] else all - {place}
  }

  // ---------------------------------------------------------------- the sessions of one user

  function Sessions(s: State, user: string): seq<Entry> {
    if user in s.users then s.users[user] else []
  }

  function Find(sessions: seq<Entry>, id: string): Option<Entry> {
    if sessions == [] then None
    else if sessions[0].sessionId == id then Some(sessions[0])
    else Find(sessions[1..], id)
  }

  function Without(sessions: seq<Entry>, id: string): seq<Entry> {
    if sessions == [] then []
    else if sessions[0].sessionId == id then Without(sessions[1..], id)
    else [sessions[0]] + Without(sessions[1..], id)
  }

  /** Without the oldest session that is not running, if there is one. */
  function DropIdle(sessions: seq<Entry>): seq<Entry> {
    if sessions == [] then []
    else if !sessions[0].processing then sessions[1..]
    else [sessions[0]] + DropIdle(sessions[1..])
  }

  function Store(sessions: seq<Entry>, entry: Entry): seq<Entry> {
    var all := Without(sessions, entry.sessionId) + [entry];
    if |all| > SESSION_LIMIT then DropIdle(all) else all
  }

  // ---------------------------------------------------------------- receive

  predicate SameActivity(a: Entry, b: Entry) {
    a.processing == b.processing && a.runId == b.runId && a.completedRunId == b.completedRunId
    && a.attentionId == b.attentionId && a.waitingFor == b.waitingFor
  }

  /** The new entry, with the next revision. */
  function NewEntry(previous: Option<Entry>, f: Frame, processing: bool, runId: string, pending: map<string, Request>,
                    now: string, revision: nat): Entry
  {
    var attention := SessionAttention(f);
    var oldAttention := if previous.Some? then previous.value.attentionId else "";
    var completed := if f.body.Complete? && f.body.completed then Or(f.runId, f.id)
                     else if previous.Some? then previous.value.completedRunId else "";
    Entry(f.sessionId, runId, processing, Waits(pending), completed,
          if attention.Some? then Or(attention.value.id, oldAttention) else oldAttention,
          if attention.Some? && attention.value.id != oldAttention then Or(f.timestamp, now)
          else if previous.Some? then previous.value.attentionAt else "",
          revision)
  }

  /** A replayed start or user frame of a run that is over. */
  predicate Resurrects(previous: Option<Entry>, processing: bool, runId: string) {
    processing && previous.Some? && !previous.value.processing && runId == previous.value.runId
  }

  function Accept(s: State, user: string, f: Frame, processing: bool, runId: string, now: string): State {
    var place := Place(user, f.sessionId);
    var previous := Find(Sessions(s, user), f.sessionId);
    var pending := PendingAfter(Carried(s, place, previous, f), f, processing);
    var entry := NewEntry(previous, f, processing, runId, pending, now, s.revision + 1);
    var requests := SetRequests(s.pendingRequests, place, pending);
    if previous.Some? && SameActivity(previous.value, entry) then s.(pendingRequests := requests)
    else State(s.users[user := Store(Sessions(s, user), entry)], requests, s.revision + 1)
  }

  /** Whether the frame gets past the checks: the new processing flag and run, or None. */
  function Considered(s: State, user: string, f: Frame): Option<(bool, string)> {
    var previous := Find(Sessions(s, user), f.sessionId);
    if f.sessionId == "" || Stale(previous, f) then None
    else
      var verdict := Judge(previous, f, Carried(s, Place(user, f.sessionId), previous, f) != map[]);
      if verdict.None? then None
      else
        var runId := Or(verdict.value.1, RunOf(previous));
        if Resurrects(previous, verdict.value.0, runId) then None else Some((verdict.value.0, runId))
  }

  function Receive(s: State, user: string, f: Frame, now: string): State {
    var verdict := Considered(s, user, f);
    if verdict.None? then s else Accept(s, user, f, verdict.value.0, verdict.value.1, now)
  }

  function Remove(s: State, user: string, sessionId: string): State {
    s.(users := if user in s.users then s.users[user := Without(s.users[user], sessionId)] else s.users,
       pendingRequests := s.pendingRequests - {Place(user, sessionId)})
  }

  datatype Event = Frames(user: string, frame: Frame, now: string) | Removed(user: string, sessionId: string)

  function Step(s: State, e: Event): State {
    match e
    case Frames(user, frame, now) => Receive(s, user, frame, now)
    case Removed(user, sessionId) => Remove(s, user, sessionId)
  }

  function Run(s: State, events: seq<Event>): State
    decreases |events|
  {
    if events == [] then s else Run(Step(s, events[0]), events[1..])
  }

  // ---------------------------------------------------------------- the invariant

  predicate Distinct(sessions: seq<Entry>) {
    var distinct := sessions == [] || (Find(sessions[1..], sessions[0].sessionId).None? && Distinct(sessions[1..]));
    distinct
  }

  predicate AllRunning(sessions: seq<Entry>) {
    sessions == [] || (sessions[0].processing && AllRunning(sessions[1..]))
  }

  predicate UserBounded(sessions: seq<Entry>) {
    var bounded := Distinct(sessions) && (|sessions| <= SESSION_LIMIT || AllRunning(sessions));
    bounded
  }

  /** Revisions strictly increase from the oldest change to the latest. */
  predicate Ordered(sessions: seq<Entry>, low: nat, high: nat) {
    sessions == []
    || (low < sessions[0].revision <= high && Ordered(sessions[1..], sessions[0].revision, high))
  }

  /** A pending entry exists only for a held, running session, and `waitingFor` is derived from it. */
  predicate PlaceSound(s: State, place: Place) {
    var entry := Find(Sessions(s, place.user), place.sessionId);
    var sound :=
      && (place in s.pendingRequests ==> s.pendingRequests[place] != map[] && Running(entry))
      && (entry.Some? ==> entry.value.waitingFor == Waits(Requests(s, place)) && entry.value.revision <= s.revision);
    sound
  }

  ghost predicate Inv(s: State) {
    var sound :=
      && (forall user :: UserBounded(Sessions(s, user)) && Ordered(Sessions(s, user), 0, s.revision))
      && forall place: Place :: PlaceSound(s, place);
    sound
  }

  // ---------------------------------------------------------------- lists of sessions

  lemma {:induction false} FindWithout(sessions: seq<Entry>, id: string, other: string)
    ensures Find(Without(sessions, id), other) == if other == id then None else Find(sessions, other)
    decreases |sessions|
  {
    if sessions == [] {
    } else {
      FindWithout(sessions[1..], id, other);
      assert ([sessions[0]] + Without(sessions[1..], id))[1..] == Without(sessions[1..], id);
    }
  }

  lemma {:induction false} WithoutDistinct(sessions: seq<Entry>, id: string)
    requires Distinct(sessions)
    ensures Distinct(Without(sessions, id))
    ensures |Without(sessions, id)| == |sessions| - (if Find(sessions, id).Some? then 1 else 0)
    ensures AllRunning(sessions) ==> AllRunning(Without(sessions, id))
    decreases |sessions|
  {
    if sessions == [] {
    } else {
      WithoutDistinct(sessions[1..], id);
      FindWithout(sessions[1..], id, sessions[0].sessionId);
      assert ([sessions[0]] + Without(sessions[1..], id))[1..] == Without(sessions[1..], id);
    }
  }

  lemma {:induction false} Appended(sessions: seq<Entry>, entry: Entry, id: string)
    requires Find(sessions, entry.sessionId).None?
    ensures Find(sessions + [entry], id) == if id == entry.sessionId then Some(entry) else Find(sessions, id)
    ensures Distinct(sessions) ==> Distinct(sessions + [entry])
    ensures AllRunning(sessions) && entry.processing ==> AllRunning(sessions + [entry])
    decreases |sessions|
  {
    assert [entry][1..] == [];
    if sessions == [] {
      assert sessions + [entry] == [entry];
    } else {
      Appended(sessions[1..], entry, id);
      Appended(sessions[1..], entry, sessions[0].sessionId);
      assert (sessions + [entry])[1..] == sessions[1..] + [entry];
    }
  }

  /** Dropping an idle session keeps all running ones, and makes room unless all are running. */
  lemma {:induction false} Dropped(sessions: seq<Entry>, id: string)
    requires Distinct(sessions)
    ensures Distinct(DropIdle(sessions))
    ensures Find(sessions, id).None? ==> Find(DropIdle(sessions), id).None?
    ensures Running(Find(sessions, id)) ==> Find(DropIdle(sessions), id) == Find(sessions, id)
    ensures Find(DropIdle(sessions), id).Some? ==> Find(DropIdle(sessions), id) == Find(sessions, id)
    ensures if AllRunning(sessions) then DropIdle(sessions) == sessions else |DropIdle(sessions)| == |sessions| - 1
    decreases |sessions|
  {
    if sessions == [] {
    } else if !sessions[0].processing {
    } else {
      Dropped(sessions[1..], id);
      Dropped(sessions[1..], sessions[0].sessionId);
      assert ([sessions[0]] + DropIdle(sessions[1..]))[1..] == DropIdle(sessions[1..]);
    }
  }

  /** Storing an entry: what is held afterwards, and that the bound holds again. */
  lemma Stored(sessions: seq<Entry>, entry: Entry, id: string)
    requires UserBounded(sessions)
    ensures UserBounded(Store(sessions, entry))
    ensures var found := Find(Store(sessions, entry), id);
            var expected := if id == entry.sessionId then Some(entry) else Find(sessions, id);
            && (Running(expected) ==> found == expected)
            && (found.Some? ==> found == expected)
  {
    var rest := Without(sessions, entry.sessionId);
    FindWithout(sessions, entry.sessionId, entry.sessionId);
    FindWithout(sessions, entry.sessionId, id);
    WithoutDistinct(sessions, entry.sessionId);
    Appended(rest, entry, id);
    Dropped(rest + [entry], id);
    OneIdle(rest, entry);
  }

  /** When all others run, at most the new entry is idle, so dropping one leaves only running sessions. */
  lemma {:induction false} OneIdle(rest: seq<Entry>, entry: Entry)
    ensures AllRunning(rest) ==> AllRunning(DropIdle(rest + [entry]))
    decreases |rest|
  {
    if rest == [] {
      assert rest + [entry] == [entry];
      assert [entry][1..] == [];
    } else {
      OneIdle(rest[1..], entry);
      assert (rest + [entry])[1..] == rest[1..] + [entry];
      assert ([rest[0]] + DropIdle(rest[1..] + [entry]))[1..] == DropIdle(rest[1..] + [entry]);
    }
  }

  lemma {:induction false} OrderedLower(sessions: seq<Entry>, low: nat, lower: nat, high: nat, higher: nat)
    requires Ordered(sessions, low, high) && lower <= low && high <= higher
    ensures Ordered(sessions, lower, higher)
    decreases |sessions|
  {
    if sessions == [] {
    } else {
      OrderedLower(sessions[1..], sessions[0].revision, sessions[0].revision, high, higher);
    }
  }

  lemma {:induction false} OrderedWithout(sessions: seq<Entry>, id: string, low: nat, high: nat)
    requires Ordered(sessions, low, high)
    ensures Ordered(Without(sessions, id), low, high)
    decreases |sessions|
  {
    if sessions == [] {
    } else {
      OrderedWithout(sessions[1..], id, sessions[0].revision, high);
      OrderedLower(Without(sessions[1..], id), sessions[0].revision, low, high, high);
      assert ([sessions[0]] + Without(sessions[1..], id))[1..] == Without(sessions[1..], id);
    }
  }

  lemma {:induction false} OrderedAppend(sessions: seq<Entry>, entry: Entry, low: nat)
    requires low < entry.revision && Ordered(sessions, low, entry.revision - 1)
    ensures Ordered(sessions + [entry], low, entry.revision)
    decreases |sessions|
  {
    if sessions == [] {
      assert sessions + [entry] == [entry];
      assert [entry][1..] == [];
    } else {
      OrderedAppend(sessions[1..], entry, sessions[0].revision);
      assert (sessions + [entry])[1..] == sessions[1..] + [entry];
    }
  }

  lemma {:induction false} OrderedDrop(sessions: seq<Entry>, low: nat, high: nat)
    requires Ordered(sessions, low, high)
    ensures Ordered(DropIdle(sessions), low, high)
    decreases |sessions|
  {
    if sessions == [] {
    } else if !sessions[0].processing {
      OrderedLower(sessions[1..], sessions[0].revision, low, high, high);
    } else {
      OrderedDrop(sessions[1..], sessions[0].revision, high);
      assert ([sessions[0]] + DropIdle(sessions[1..]))[1..] == DropIdle(sessions[1..]);
    }
  }

  lemma OrderedStore(sessions: seq<Entry>, entry: Entry)
    requires entry.revision > 0 && Ordered(sessions, 0, entry.revision - 1)
    ensures Ordered(Store(sessions, entry), 0, entry.revision)
  {
    OrderedWithout(sessions, entry.sessionId, 0, entry.revision - 1);
    OrderedAppend(Without(sessions, entry.sessionId), entry, 0);
    OrderedDrop(Without(sessions, entry.sessionId) + [entry], 0, entry.revision);
  }

  // ---------------------------------------------------------------- the steps keep the invariant

  lemma AcceptKeeps(s: State, user: string, f: Frame, processing: bool, runId: string, now: string)
    requires Inv(s)
    ensures Inv(Accept(s, user, f, processing, runId, now))
  {
    var t := Accept(s, user, f, processing, runId, now);
    var here := Place(user, f.sessionId);
    var previous := Find(Sessions(s, user), f.sessionId);
    var pending := PendingAfter(Carried(s, here, previous, f), f, processing);
    var entry := NewEntry(previous, f, processing, runId, pending, now, s.revision + 1);
    assert PlaceSound(s, here);
    if t.revision == s.revision {
      forall u ensures UserBounded(Sessions(t, u)) && Ordered(Sessions(t, u), 0, t.revision) {
        assert UserBounded(Sessions(s, u));
      }
      forall place: Place ensures PlaceSound(t, place) { assert PlaceSound(s, place); }
    } else {
      StoredKeeps(s, t, user, f.sessionId, entry, pending);
    }
  }

  lemma StoredKeeps(s: State, t: State, user: string, id: string, entry: Entry, pending: map<string, Request>)
    requires Inv(s) && entry.sessionId == id && entry.revision == s.revision + 1
    requires entry.waitingFor == Waits(pending) && (!entry.processing ==> pending == map[])
    requires t == State(s.users[user := Store(Sessions(s, user), entry)],
                        SetRequests(s.pendingRequests, Place(user, id), pending), s.revision + 1)
    ensures Inv(t)
  {
    var here := Place(user, id);
    assert UserBounded(Sessions(s, user));
    forall u ensures UserBounded(Sessions(t, u)) && Ordered(Sessions(t, u), 0, t.revision) {
      assert UserBounded(Sessions(s, u));
      Stored(Sessions(s, user), entry, id);
      OrderedStore(Sessions(s, user), entry);
      OrderedLower(Sessions(s, u), 0, 0, s.revision, t.revision);
    }
    forall place: Place ensures PlaceSound(t, place) {
      assert PlaceSound(s, place);
      Stored(Sessions(s, user), entry, place.sessionId);
      if place.user == user { assert Sessions(t, user) == Store(Sessions(s, user), entry); }
    }
  }

  lemma RemoveKeeps(s: State, user: string, id: string)
    requires Inv(s)
    ensures Inv(Remove(s, user, id))
  {
    var t := Remove(s, user, id);
    forall u ensures UserBounded(Sessions(t, u)) && Ordered(Sessions(t, u), 0, t.revision) {
      assert UserBounded(Sessions(s, u));
      WithoutDistinct(Sessions(s, u), id);
      OrderedWithout(Sessions(s, u), id, 0, s.revision);
    }
    forall place: Place ensures PlaceSound(t, place) {
      assert PlaceSound(s, place);
      FindWithout(Sessions(s, user), id, place.sessionId);
    }
  }

  lemma StepKeeps(s: State, e: Event)
    requires Inv(s)
    ensures Inv(Step(s, e))
  {
    match e {
      case Frames(user, f, now) =>
        var verdict := Considered(s, user, f);
        if verdict.Some? { AcceptKeeps(s, user, f, verdict.value.0, verdict.value.1, now); }
      case Removed(user, id) => RemoveKeeps(s, user, id);
    }
  }

  lemma {:induction false} RunKeeps(s: State, events: seq<Event>)
    requires Inv(s)
    ensures Inv(Run(s, events))
    decreases |events|
  {
    if events == [] {
    } else {
      StepKeeps(s, events[0]);
      RunKeeps(Step(s, events[0]), events[1..]);
    }
  }

  lemma InitHolds()
    ensures Inv(INIT)
  {
  }

  // ---------------------------------------------------------------- what that says

  /** In every run a user holds at most 2048 sessions, unless all of them are running. */
  lemma RegistryIsBounded(events: seq<Event>, user: string)
    ensures |Sessions(Run(INIT, events), user)| <= SESSION_LIMIT || AllRunning(Sessions(Run(INIT, events), user))
  {
    InitHolds();
    RunKeeps(INIT, events);
    assert UserBounded(Sessions(Run(INIT, events), user));
  }

  /** What a session waits for is exactly what its pending requests say, and only running sessions have any. */
  lemma WaitingIsDerived(events: seq<Event>, place: Place)
    ensures PlaceSound(Run(INIT, events), place)
  {
    InitHolds();
    RunKeeps(INIT, events);
  }

  /** A frame about one session never makes another, running session disappear or change. */
  lemma RunningIsNeverEvicted(s: State, user: string, f: Frame, now: string, id: string)
    requires Inv(s) && id != f.sessionId && Running(Find(Sessions(s, user), id))
    ensures Find(Sessions(Receive(s, user, f, now), user), id) == Find(Sessions(s, user), id)
  {
    var verdict := Considered(s, user, f);
    if verdict.Some? {
      var place := Place(user, f.sessionId);
      var previous := Find(Sessions(s, user), f.sessionId);
      var pending := PendingAfter(Carried(s, place, previous, f), f, verdict.value.0);
      var entry := NewEntry(previous, f, verdict.value.0, verdict.value.1, pending, now, s.revision + 1);
      assert UserBounded(Sessions(s, user));
      Stored(Sessions(s, user), entry, id);
    }
  }

  /** In every run a user's sessions are in the order of their revisions, and no revision is used twice. */
  lemma RevisionsIncrease(events: seq<Event>, user: string)
    ensures Ordered(Sessions(Run(INIT, events), user), 0, Run(INIT, events).revision)
  {
    InitHolds();
    RunKeeps(INIT, events);
    assert UserBounded(Sessions(Run(INIT, events), user));
  }

  /** Unless a session is removed, moments of a run with the same revision show the same sidebar. */
  lemma {:induction false} RevisionTellsSidebar(s: State, events: seq<Event>)
    requires forall e <- events :: e.Frames?
    ensures Run(s, events).revision >= s.revision
    ensures Run(s, events).revision == s.revision ==> Run(s, events).users == s.users
    decreases |events|
  {
    if events == [] {
    } else {
      assert events[0] in events;
      RevisionTellsSidebar(Step(s, events[0]), events[1..]);
    }
  }

  // ---------------------------------------------------------------- what a frame does

  /** The session as listed after the frame, if it still is. */
  function Listed(s: State, user: string, f: Frame, now: string): Option<Entry> {
    Find(Sessions(Receive(s, user, f, now), user), f.sessionId)
  }

  function Before(s: State, user: string, f: Frame): Option<Entry> { Find(Sessions(s, user), f.sessionId) }

  lemma AcceptedIsListed(s: State, user: string, f: Frame, processing: bool, runId: string, now: string)
    requires Inv(s)
    ensures var t := Accept(s, user, f, processing, runId, now);
            var pending := PendingAfter(Carried(s, Place(user, f.sessionId), Before(s, user, f), f), f, processing);
            var e := Find(Sessions(t, user), f.sessionId);
            && (processing ==> e.Some?)
            && (e.Some? ==> e.value.processing == processing && e.value.runId == runId && e.value.waitingFor == Waits(pending)
                            && e.value.completedRunId == (if f.body.Complete? && f.body.completed then Or(f.runId, f.id)
                                                          else if Before(s, user, f).Some? then Before(s, user, f).value.completedRunId
                                                          else ""))
            && Requests(t, Place(user, f.sessionId)) == pending
  {
    AcceptedAsks(s, user, f, processing, runId, now);
    var previous := Before(s, user, f);
    var pending := PendingAfter(Carried(s, Place(user, f.sessionId), previous, f), f, processing);
    var entry := NewEntry(previous, f, processing, runId, pending, now, s.revision + 1);
    assert UserBounded(Sessions(s, user));
    Stored(Sessions(s, user), entry, f.sessionId);
    var t := Accept(s, user, f, processing, runId, now);
    assert Sessions(t, user) == Sessions(s, user) || Sessions(t, user) == Store(Sessions(s, user), entry);
  }

  lemma AcceptedAsks(s: State, user: string, f: Frame, processing: bool, runId: string, now: string)
    ensures var place := Place(user, f.sessionId);
            Requests(Accept(s, user, f, processing, runId, now), place)
            == PendingAfter(Carried(s, place, Before(s, user, f), f), f, processing)
  {
  }

  /** A frame of another run than the session is in. */
  predicate OfAnotherRun(s: State, user: string, f: Frame) {
    var previous := Before(s, user, f);
    previous.Some? && previous.value.runId != "" && f.runId != "" && f.runId != previous.value.runId
  }

  predicate IsStart(f: Frame) { f.body == Started || f.body == UserText }

  /** A frame of another run changes nothing, unless it starts that run; neither does a cancellation for an unknown session. */
  lemma StaleFrameIsIgnored(s: State, user: string, f: Frame, now: string)
    requires (OfAnotherRun(s, user, f) && !IsStart(f)) || (f.body == Cancelled && Before(s, user, f) == None) || f.sessionId == ""
    ensures Receive(s, user, f, now) == s
  {
  }

  /** Nor does a start of the run the session has already ended. */
  lemma ReplayIsIgnored(s: State, user: string, f: Frame, now: string)
    requires IsStart(f) && Before(s, user, f).Some? && !Before(s, user, f).value.processing
    requires f.runId == "" || f.runId == Before(s, user, f).value.runId
    ensures Receive(s, user, f, now) == s
  {
  }

  /** Any other start makes the session run, and a new run forgets what the old one was waiting for. */
  lemma StartRuns(s: State, user: string, f: Frame, now: string)
    requires Inv(s) && IsStart(f) && f.sessionId != "" && f.runId != ""
    requires Before(s, user, f).Some? && !Before(s, user, f).value.processing ==> f.runId != Before(s, user, f).value.runId
    ensures var e := Listed(s, user, f, now);
            && e.Some? && e.value.processing && e.value.runId == f.runId
            && (Before(s, user, f).None? || Before(s, user, f).value.runId != f.runId ==>
                  e.value.waitingFor == Nobody && Requests(Receive(s, user, f, now), Place(user, f.sessionId)) == map[])
  {
    AcceptedIsListed(s, user, f, true, f.runId, now);
  }

  /** What ends a run: completion, interruption and terminal errors. */
  predicate IsEnd(f: Frame) { f.body.Complete? || f.body == Interrupted || f.body == Error(true) }

  /** An end of the session's run makes the session idle and forgets what it was waiting for; a completion is noted. */
  lemma EndIdles(s: State, user: string, f: Frame, now: string)
    requires Inv(s) && IsEnd(f) && f.sessionId != "" && !OfAnotherRun(s, user, f)
    ensures var t, e := Receive(s, user, f, now), Listed(s, user, f, now);
            && Requests(t, Place(user, f.sessionId)) == map[]
            && (e.Some? ==>
                  && !e.value.processing && e.value.waitingFor == Nobody
                  && e.value.runId == (if f.runId != "" then f.runId else RunOf(Before(s, user, f)))
                  && (f.body == Complete(true) ==> e.value.completedRunId == if f.runId != "" then f.runId else f.id))
  {
    AcceptedIsListed(s, user, f, false, Or(f.runId, RunOf(Before(s, user, f))), now);
  }

  /** An error that is not terminal, and any frame of no interest, change nothing. */
  lemma OtherFramesAreIgnored(s: State, user: string, f: Frame, now: string)
    requires f.body == Error(false) || f.body == Other
    ensures Receive(s, user, f, now) == s
  {
  }

  /** The name of a question or an approval. */
  function AskId(f: Frame): string {
    if f.requestId != "" then f.requestId else if f.toolCallId != "" then f.toolCallId else f.id
  }

  /** A running session that asks waits for an answer if any question is open, and else for an approval. */
  lemma AskWaits(s: State, user: string, f: Frame, now: string)
    requires Inv(s) && f.body.Ask? && AskId(f) != "" && f.sessionId != "" && !OfAnotherRun(s, user, f)
    requires Before(s, user, f).Some? && Before(s, user, f).value.processing
    ensures var place, t, e := Place(user, f.sessionId), Receive(s, user, f, now), Listed(s, user, f, now);
            var open := Requests(s, place)[AskId(f) := Request(f.body.question, f.toolCallId)];
            && Requests(t, place) == open && e.Some? && e.value.processing
            && e.value.waitingFor == if exists id <- open :: open[id].question then ForAnswer else ForApproval
  {
    assert AskId(f) in Requests(s, Place(user, f.sessionId))[AskId(f) := Request(f.body.question, f.toolCallId)];
    AcceptedIsListed(s, user, f, true, Or(f.runId, RunOf(Before(s, user, f))), now);
  }

  /** A cancellation closes the request it names, a tool result those of its tool, and no other. */
  lemma AnswerCloses(s: State, user: string, f: Frame, now: string, id: string)
    requires Inv(s) && f.sessionId != "" && !OfAnotherRun(s, user, f)
    requires Before(s, user, f).Some? && Before(s, user, f).value.processing
    requires f.body == Cancelled || (f.body.ToolResult? && f.body.toolId != "")
    ensures var open, left := Requests(s, Place(user, f.sessionId)), Requests(Receive(s, user, f, now), Place(user, f.sessionId));
            && (id in left <==> id in open && (if f.body == Cancelled then id != f.requestId else open[id].toolId != f.body.toolId))
            && (id in left ==> left[id] == open[id])
  {
    var open := Requests(s, Place(user, f.sessionId));
    if f.body.ToolResult? && open == map[] {
      assert Receive(s, user, f, now) == s;
    } else {
      AcceptedIsListed(s, user, f, true, Or(f.runId, RunOf(Before(s, user, f))), now);
    }
  }

  /** A queued input that is being sent makes the session run, under its own run ... */
  lemma QueuedInputRuns(s: State, user: string, f: Frame, now: string, i: nat)
    requires Inv(s) && f.body.InputQueue? && f.sessionId != "" && !OfAnotherRun(s, user, f) && i < |f.body.items|
    requires f.body.items[i].status == Sending && forall j | 0 <= j < i :: f.body.items[j].status != Sending
    ensures var run := if f.body.items[i].runId != "" then f.body.items[i].runId else f.body.items[i].id;
            var e := Listed(s, user, f, now);
            run != "" && run != RunOf(Before(s, user, f)) ==> e.Some? && e.value.processing && e.value.runId == run
  {
    QueuedInputCounts(s, user, f, i);
    AcceptedIsListed(s, user, f, true, Or(f.body.items[i].runId, f.body.items[i].id), now);
  }

  lemma QueuedInputCounts(s: State, user: string, f: Frame, i: nat)
    requires f.body.InputQueue? && f.sessionId != "" && !OfAnotherRun(s, user, f) && i < |f.body.items|
    requires f.body.items[i].status == Sending && forall j | 0 <= j < i :: f.body.items[j].status != Sending
    ensures var run := Or(f.body.items[i].runId, f.body.items[i].id);
            run != "" && run != RunOf(Before(s, user, f)) ==> Considered(s, user, f) == Some((true, run))
  {
    FirstOne(f.body.items, i);
  }

  /** ... and one of the session's own run that failed ends it. */
  lemma FailedInputIdles(s: State, user: string, f: Frame, now: string, i: nat)
    requires Inv(s) && f.body.InputQueue? && f.sessionId != "" && !OfAnotherRun(s, user, f) && i < |f.body.items|
    requires f.body.items[i].status == Failed && f.body.items[i].id == RunOf(Before(s, user, f))
    requires forall item <- f.body.items :: item.status != Sending
    ensures var e := Listed(s, user, f, now); e.Some? ==> !e.value.processing
  {
    FailedInputCounts(s, user, f, i);
    AcceptedIsListed(s, user, f, false, Or(f.runId, RunOf(Before(s, user, f))), now);
  }

  lemma FailedInputCounts(s: State, user: string, f: Frame, i: nat)
    requires f.body.InputQueue? && f.sessionId != "" && !OfAnotherRun(s, user, f) && i < |f.body.items|
    requires f.body.items[i].status == Failed && f.body.items[i].id == RunOf(Before(s, user, f))
    requires forall item <- f.body.items :: item.status != Sending
    ensures Considered(s, user, f) == Some((false, Or(f.runId, RunOf(Before(s, user, f)))))
  {
    NoneSending(f.body.items);
    assert f.body.items[i] in f.body.items;
  }

  lemma {:induction false} FirstOne(items: seq<Item>, i: nat)
    requires i < |items| && items[i].status == Sending && forall j | 0 <= j < i :: items[j].status != Sending
    ensures FirstItem(items, Sending) == Some(items[i])
    decreases i
  {
    if i > 0 {
      forall j | 0 <= j < i - 1 ensures items[1..][j].status != Sending { assert items[1..][j] == items[j + 1]; }
      FirstOne(items[1..], i - 1);
    } else {
    }
  }

  lemma {:induction false} NoneSending(items: seq<Item>)
    requires forall item <- items :: item.status != Sending
    ensures FirstItem(items, Sending) == None
    decreases |items|
  {
    if items == [] {
    } else {
      forall item | item in items[1..] ensures item.status != Sending { assert item in items; }
      NoneSending(items[1..]);
    }
  }

  // ---------------------------------------------------------------- what asks for attention

  /** Completed runs, questions, approvals, terminal errors and failed inputs ask for attention, each under its own name. */
  lemma AttentionIsNamed(f: Frame, i: nat)
    ensures var run := if f.runId != "" then f.runId else f.id;
            && (f.body == Complete(true) && run != "" ==> SessionAttention(f) == Some(Attention(run, Completed)))
            && (f.body == Error(true) && run != "" ==> SessionAttention(f) == Some(Attention("error:" + run, Problem)))
            && (f.body == Ask(true) && AskId(f) != "" ==> SessionAttention(f) == Some(Attention("question:" + AskId(f), Question)))
            && (f.body == Ask(false) && AskId(f) != "" ==> SessionAttention(f) == Some(Attention("approval:" + AskId(f), Approval)))
    ensures f.body in [Complete(false), Error(false), Started, UserText, Interrupted, Cancelled, Other] || f.body.ToolResult? ==>
              SessionAttention(f) == None
    ensures f.body.InputQueue? && i < |f.body.items| && f.body.items[i].status == Failed
            && (forall j | 0 <= j < i :: f.body.items[j].status != Failed) ==>
              SessionAttention(f) == Some(Attention("error:" + f.body.items[i].id, Problem))
  {
    if f.body.InputQueue? && i < |f.body.items| && f.body.items[i].status == Failed
       && (forall j | 0 <= j < i :: f.body.items[j].status != Failed)
    {
      FirstFailed(f.body.items, i);
    }
  }

  lemma {:induction false} FirstFailed(items: seq<Item>, i: nat)
    requires i < |items| && items[i].status == Failed && forall j | 0 <= j < i :: items[j].status != Failed
    ensures FirstItem(items, Failed) == Some(items[i])
    decreases i
  {
    if i > 0 {
      forall j | 0 <= j < i - 1 ensures items[1..][j].status != Failed { assert items[1..][j] == items[j + 1]; }
      FirstFailed(items[1..], i - 1);
    } else {
    }
  }

  /** The session shows the attention last asked for, and since when: a repeated one keeps its time. */
  lemma AttentionIsNoted(s: State, user: string, f: Frame, now: string, a: Attention)
    requires Inv(s) && SessionAttention(f) == Some(a) && a.id != ""
    requires Considered(s, user, f).Some?
    ensures var e, previous := Listed(s, user, f, now), Before(s, user, f);
            e.Some? ==> e.value.attentionId == a.id
    ensures var e, previous := Listed(s, user, f, now), Before(s, user, f);
            e.Some? && (previous.None? || previous.value.attentionId != a.id) ==>
              e.value.attentionAt == if f.timestamp != "" then f.timestamp else now
  {
    var verdict := Considered(s, user, f).value;
    var previous := Before(s, user, f);
    var pending := PendingAfter(Carried(s, Place(user, f.sessionId), previous, f), f, verdict.0);
    var entry := NewEntry(previous, f, verdict.0, verdict.1, pending, now, s.revision + 1);
    assert UserBounded(Sessions(s, user));
    Stored(Sessions(s, user), entry, f.sessionId);
  }

  /** A removed session is no longer listed and waits for nothing; all others stay as they are. */
  lemma RemovalForgets(s: State, user: string, id: string, other: string)
    ensures var t := Step(s, Removed(user, id));
            && Find(Sessions(t, user), id) == None && Requests(t, Place(user, id)) == map[]
            && (other != id ==> Find(Sessions(t, user), other) == Find(Sessions(s, user), other))
            && (other != user ==> Sessions(t, other) == Sessions(s, other))
  {
    FindWithout(Sessions(s, user), id, id);
    FindWithout(Sessions(s, user), id, other);
  }
}
