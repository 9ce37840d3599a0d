/**
 Starting and stopping of channels in `src/cli/pilotdeckServer.ts`.  Operations on one key
 are chained on a promise; an operation is cut at its `await`s, and operations on all keys
 interleave.  An instance has the number of the operation that started it.
 */
module ChannelOps {
  import opened Prelude

  datatype Phase =
    | Queued                       // waits for the previous operation on the key
    | StoppingOld(inst: nat)        // a start that awaits the stop of the running instance
    | Starting                     // a start that awaits channel.start
    | StoppingLast(inst: nat)       // a stop that awaits handle.stop
    | Finished

  datatype Op = Op(key: string, isStop: bool, previous: Option<nat>, phase: Phase)

  datatype State = State(
    ops: seq<Op>,
    channelOps: map<string, nat>,
    handles: map<string, nat>,     // runningHandles
    channels: map<string, nat>,    // runningChannels
    live: set<nat>,                // instances that were started and whose stop has not settled
    abandoned: set<nat>)           // instances whose stop was rejected: they may still be running

  const INIT := State([], map[], map[], map[], {}, {})

  datatype Event =
    | Enqueue(key: string, isStop: bool)
    | Begin(op: nat)
    | OldStopped(op: nat, ok: bool)     // the operation goes on in the same way if the stop was rejected
    | StartSettled(op: nat, ok: bool)
    | LastStopped(op: nat, ok: bool)
    | CleanUp(op: nat)                  // the `finally` of enqueueChannelOp

  function SetPhase(s: State, i: nat, phase: Phase): State
    requires i < |s.ops|
  {
    s.(ops := s.ops[i := s.ops[i].(phase := phase)])
  }

  function Add(s: State, key: string, isStop: bool): State {
    var previous := if key in s.channelOps then Some(s.channelOps[key]) else None;
    s.(ops := s.ops + [Op(key, isStop, previous, Queued)], channelOps := s.channelOps[key := |s.ops|])
  }

  function Untrack(s: State, key: string): State {
    s.(handles := s.handles - {key}, channels := s.channels - {key})
  }

  /** The stop of an instance has settled. */
  function Gone(s: State, inst: nat, ok: bool): State {
    s.(live := s.live - {inst}, abandoned := if ok then s.abandoned else s.abandoned + {inst})
  }

  /** The instances that were started and have not been stopped successfully. */
  function Unstopped(s: State): set<nat> { s.live + s.abandoned }

  /** `startAndTrack` or the stop operation, up to its first `await`. */
  function Start(s: State, i: nat): State
    requires i < |s.ops|
  {
    var key := s.ops[i].key;
    if s.ops[i].isStop then
      if key in s.handles then SetPhase(Untrack(s, key), i, StoppingLast(s.handles[key])) else SetPhase(s, i, Finished)
    else
      if key in s.handles then SetPhase(s, i, StoppingOld(s.handles[key])) else SetPhase(s, i, Starting)
  }

  function Track(s: State, i: nat): State
    requires i < |s.ops|
  {
    SetPhase(s.(handles := s.handles[s.ops[i].key := i], channels := s.channels[s.ops[i].key := i], live := s.live + {i}),
             i, Finished)
  }

  predicate Enabled(s: State, e: Event) {
    match e
    case Enqueue(_, _) => true
    case Begin(i) =>
      && i < |s.ops| && s.ops[i].phase.Queued?
      && (s.ops[i].previous.Some? ==>
            s.ops[i].previous.value < |s.ops| && s.ops[s.ops[i].previous.value].phase.Finished?)
    case OldStopped(i, _) => i < |s.ops| && s.ops[i].phase.StoppingOld?
    case StartSettled(i, _) => i < |s.ops| && s.ops[i].phase.Starting?
    case LastStopped(i, _) => i < |s.ops| && s.ops[i].phase.StoppingLast?
    case CleanUp(i) => i < |s.ops| && s.ops[i].phase.Finished?
  }

  function Step(s: State, e: Event): State {
    if !Enabled(s, e) then s else
    match e
    case Enqueue(key, isStop) => Add(s, key, isStop)
    case Begin(i) => Start(s, i)
    case OldStopped(i, ok) => SetPhase(Untrack(Gone(s, s.ops[i].phase.inst, ok), s.ops[i].key), i, Starting)
    case StartSettled(i, ok) => if ok then Track(s, i) else SetPhase(s, i, Finished)
    case LastStopped(i, ok) => SetPhase(Gone(s, s.ops[i].phase.inst, ok), i, Finished)
    case CleanUp(i) =>
      if s.ops[i].key in s.channelOps && s.channelOps[s.ops[i].key] == i
      then s.(channelOps := s.channelOps - {s.ops[i].key}) else s
  }

  function Run(s: State, events: seq<Event>): State
    decreases |events|
  {
    if events == [] then s else Run(Step(s, events[0]), events[1..])
  }

  // ---------------------------------------------------------------- the invariant

  predicate Active(op: Op) { !op.phase.Queued? && !op.phase.Finished? }

  /** An operation has begun only if all earlier ones on its key have finished. */
  predicate InOrder(s: State, i: nat, j: nat) {
    i < j < |s.ops| && s.ops[i].key == s.ops[j].key && !s.ops[j].phase.Queued? ==> s.ops[i].phase.Finished?
  }

  /** The operation a queued one waits for is the one right before it on its key; without one, there is nothing to wait for. */
  predicate Linked(s: State, i: nat, j: nat) {
    i < j < |s.ops| && s.ops[i].key == s.ops[j].key ==>
      if s.ops[j].previous.None? then s.ops[i].phase.Finished?
      else i <= s.ops[j].previous.value < j && s.ops[s.ops[j].previous.value].key == s.ops[j].key
  }

  /** `channelOps` holds the last operation on a key, unless that has finished. */
  predicate LastKnown(s: State, i: nat) {
    i < |s.ops| ==>
      if s.ops[i].key in s.channelOps
      then i <= s.channelOps[s.ops[i].key] < |s.ops| && s.ops[s.channelOps[s.ops[i].key]].key == s.ops[i].key
      else s.ops[i].phase.Finished?
  }

  /** What an operation in progress knows of the instance on its key. */
  predicate Placed(s: State, i: nat) {
    i < |s.ops| ==>
      var op := s.ops[i];
      && (op.phase.StoppingOld? ==> op.key in s.handles && s.handles[op.key] == op.phase.inst)
      && (op.phase.Starting? ==> op.key !in s.handles)
      && (op.phase.StoppingLast? ==>
            && op.key !in s.handles && op.phase.inst in s.live
            && op.phase.inst < |s.ops| && s.ops[op.phase.inst].key == op.key)
  }

  /** An instance is the work of an operation that has finished. */
  predicate Launched(s: State, g: nat) {
    g in Unstopped(s) ==> g < |s.ops| && s.ops[g].phase.Finished?
  }

  predicate Tracked(s: State, key: string) {
    && (key in s.handles <==> key in s.channels)
    && (key in s.handles ==>
          && s.handles[key] == s.channels[key] && s.handles[key] in s.live
          && s.handles[key] < |s.ops| && s.ops[s.handles[key]].key == key)
  }

  predicate Accounted(s: State, h: nat) {
    var accounted := h in s.live ==>
      && h < |s.ops|
      && ((s.ops[h].key in s.handles && s.handles[s.ops[h].key] == h)
          || exists i | 0 <= i < |s.ops| :: s.ops[i].phase == StoppingLast(h) && s.ops[i].key == s.ops[h].key);
    accounted
  }

  predicate ChannelsKnown(s: State, key: string) {
    key in s.channelOps ==> s.channelOps[key] < |s.ops| && s.ops[s.channelOps[key]].key == key
  }

  predicate PreviousKnown(s: State, i: nat) {
    i < |s.ops| && s.ops[i].previous.Some? ==>
      s.ops[i].previous.value < i && s.ops[s.ops[i].previous.value].key == s.ops[i].key
  }

  ghost predicate Ordered(s: State) {
    var ordered :=
      && (forall i: nat, j: nat :: InOrder(s, i, j))
      && (forall i: nat, j: nat :: Linked(s, i, j))
      && (forall i: nat :: LastKnown(s, i))
      && (forall key :: ChannelsKnown(s, key))
      && (forall i: nat :: PreviousKnown(s, i));
    ordered
  }

  ghost predicate Inv(s: State) {
    var sound :=
      && Ordered(s)
      && (forall i: nat :: Placed(s, i))
      && (forall key :: Tracked(s, key))
      && (forall h: nat :: Accounted(s, h))
      && (forall g: nat :: Launched(s, g));
    sound
  }

  // ---------------------------------------------------------------- order

  /** A step of one operation keeps the order, if it may take it. */
  lemma PhaseKeepsOrder(s: State, i: nat, t: State)
    requires Ordered(s) && i < |s.ops|
    requires t.channelOps == s.channelOps && |t.ops| == |s.ops| && t.ops[i] == s.ops[i].(phase := t.ops[i].phase)
    requires forall k | 0 <= k < |s.ops| && k != i :: t.ops[k] == s.ops[k]
    requires s.ops[i].phase.Finished? ==> t.ops[i].phase.Finished?
    requires s.ops[i].phase.Queued? && !t.ops[i].phase.Queued? ==>
               forall k: nat | k < i && s.ops[k].key == s.ops[i].key :: s.ops[k].phase.Finished?
    ensures Ordered(t)
  {
    forall k: nat, l: nat ensures InOrder(t, k, l) { assert InOrder(s, k, l); }
    forall k: nat, l: nat ensures Linked(t, k, l) { assert Linked(s, k, l); }
    forall k: nat ensures LastKnown(t, k) { assert LastKnown(s, k); }
    forall key ensures ChannelsKnown(t, key) { assert ChannelsKnown(s, key); }
    forall k: nat ensures PreviousKnown(t, k) { assert PreviousKnown(s, k); }
  }

  /** When the operation before it has finished, all earlier ones on the key have. */
  lemma TurnHasCome(s: State, i: nat, k: nat)
    requires Ordered(s) && Enabled(s, Begin(i)) && k < i && s.ops[k].key == s.ops[i].key
    ensures s.ops[k].phase.Finished?
  {
    assert Linked(s, k, i);
    if s.ops[i].previous.Some? { assert InOrder(s, k, s.ops[i].previous.value); }
  }

  lemma AddKeeps(s: State, key: string, isStop: bool)
    requires Inv(s)
    ensures Inv(Add(s, key, isStop))
  {
    var t := Add(s, key, isStop);
    var n := |s.ops|;
    assert ChannelsKnown(s, key);
    forall k: nat, l: nat ensures InOrder(t, k, l) { assert InOrder(s, k, l); }
    forall k: nat, l: nat ensures Linked(t, k, l) {
      assert Linked(s, k, l);
      if k < l == n { assert LastKnown(s, k); }
    }
    forall k: nat ensures LastKnown(t, k) { assert LastKnown(s, k); }
    forall k ensures ChannelsKnown(t, k) { assert ChannelsKnown(s, k); }
    forall k: nat ensures PreviousKnown(t, k) { assert PreviousKnown(s, k); }
    forall k: nat ensures Placed(t, k) {
      assert Placed(s, k);
    }
    forall k ensures Tracked(t, k) { assert Tracked(s, k); }
    forall h: nat ensures Accounted(t, h) {
      assert Accounted(s, h);
      StillStopping(s, t, h);
    }
    forall g: nat ensures Launched(t, g) { assert Launched(s, g); }
  }

  /** The stops of an instance that are under way are still under way. */
  lemma StillStopping(s: State, t: State, h: nat)
    requires |s.ops| <= |t.ops|
    requires forall i | 0 <= i < |s.ops| :: s.ops[i].phase == StoppingLast(h) ==> t.ops[i] == s.ops[i]
    requires h < |s.ops| ==> t.ops[h].key == s.ops[h].key
    ensures h < |s.ops| && (exists i | 0 <= i < |s.ops| :: s.ops[i].phase == StoppingLast(h) && s.ops[i].key == s.ops[h].key)
        ==> exists i | 0 <= i < |t.ops| :: t.ops[i].phase == StoppingLast(h) && t.ops[i].key == t.ops[h].key
  {
    if h < |s.ops| && exists i | 0 <= i < |s.ops| :: s.ops[i].phase == StoppingLast(h) && s.ops[i].key == s.ops[h].key {
      var i :| 0 <= i < |s.ops| && s.ops[i].phase == StoppingLast(h) && s.ops[i].key == s.ops[h].key;
      assert t.ops[i] == s.ops[i];
    }
  }

  // ---------------------------------------------------------------- one operation at a time

  /** Two operations on one key are never both in progress. */
  lemma OneActive(s: State, i: nat, j: nat)
    requires Ordered(s) && i < |s.ops| && j < |s.ops| && s.ops[i].key == s.ops[j].key
    requires Active(s.ops[i]) && !s.ops[j].phase.Queued? && !s.ops[j].phase.Finished?
    ensures i == j
  {
    assert InOrder(s, i, j) && InOrder(s, j, i);
  }

  /** Two instances on one key are never both alive. */
  lemma OneLive(s: State, g: nat, h: nat)
    requires Inv(s) && g in s.live && h in s.live && g < |s.ops| && h < |s.ops| && s.ops[g].key == s.ops[h].key
    ensures g == h
  {
    assert Accounted(s, g) && Accounted(s, h);
    var key := s.ops[g].key;
    if key in s.handles {
      NoLastStop(s, key);
    } else {
      var i :| 0 <= i < |s.ops| && s.ops[i].phase == StoppingLast(g) && s.ops[i].key == key;
      var j :| 0 <= j < |s.ops| && s.ops[j].phase == StoppingLast(h) && s.ops[j].key == key;
      OneActive(s, i, j);
    }
  }

  lemma NoLastStop(s: State, key: string)
    requires Inv(s) && key in s.handles
    ensures forall i | 0 <= i < |s.ops| && s.ops[i].key == key :: !s.ops[i].phase.StoppingLast?
  {
    forall i | 0 <= i < |s.ops| && s.ops[i].key == key ensures !s.ops[i].phase.StoppingLast? { assert Placed(s, i); }
  }

  /** While an operation is in progress, no other operation on its key is. */
  lemma OthersRest(s: State, i: nat, k: nat)
    requires Ordered(s) && i < |s.ops| && k < |s.ops| && i != k && s.ops[i].key == s.ops[k].key && Active(s.ops[i])
    ensures !Active(s.ops[k])
  {
    if Active(s.ops[k]) { OneActive(s, i, k); }
  }

  // ---------------------------------------------------------------- the steps keep the invariant

  lemma NobodyActive(s: State, i: nat, k: nat)
    requires Ordered(s) && Enabled(s, Begin(i)) && k < |s.ops| && s.ops[k].key == s.ops[i].key
    ensures !Active(s.ops[k])
  {
    if k < i {
      TurnHasCome(s, i, k);
    } else {
      assert InOrder(s, i, k);
    }
  }

  lemma StartKeepsOrder(s: State, i: nat)
    requires Inv(s) && Enabled(s, Begin(i))
    ensures Ordered(Start(s, i))
  {
    forall k: nat | k < i && s.ops[k].key == s.ops[i].key ensures s.ops[k].phase.Finished? { TurnHasCome(s, i, k); }
    PhaseKeepsOrder(s, i, Start(s, i));
  }

  lemma StartKeeps(s: State, i: nat)
    requires Inv(s) && Enabled(s, Begin(i))
    ensures Inv(Start(s, i))
  {
    var t := Start(s, i);
    var key := s.ops[i].key;
    StartKeepsOrder(s, i);
    assert Tracked(s, key) && Placed(s, i);
    forall k: nat ensures Placed(t, k) {
      assert Placed(s, k);
      if k < |s.ops| && s.ops[k].key == key { NobodyActive(s, i, k); }
    }
    forall k ensures Tracked(t, k) { assert Tracked(s, k); }
    forall h: nat ensures Accounted(t, h) { StartAccounts(s, i, h); }
    forall g: nat ensures Launched(t, g) { assert Launched(s, g); }
  }

  lemma StartAccounts(s: State, i: nat, h: nat)
    requires Inv(s) && Enabled(s, Begin(i))
    ensures Accounted(Start(s, i), h)
  {
    var t := Start(s, i);
    var key := s.ops[i].key;
    assert Accounted(s, h) && Tracked(s, key);
    StillStopping(s, t, h);
    if h in s.live && key in s.handles && s.handles[key] == h {
      assert s.ops[i].isStop ==> t.ops[i].phase == StoppingLast(h) && t.ops[i].key == t.ops[h].key;
    }
  }

  lemma OldStoppedKeeps(s: State, i: nat, ok: bool)
    requires Inv(s) && Enabled(s, OldStopped(i, ok))
    ensures Inv(Step(s, OldStopped(i, ok)))
  {
    var t := Step(s, OldStopped(i, ok));
    var key := s.ops[i].key;
    PhaseKeepsOrder(s, i, t);
    assert Placed(s, i) && Tracked(s, key);
    forall k: nat ensures Placed(t, k) {
      assert Placed(s, k);
      if k < |s.ops| && k != i && s.ops[k].key == key { OthersRest(s, i, k); }
      if k < |s.ops| && s.ops[k].phase.StoppingLast? && s.ops[k].phase.inst == s.handles[key] { Elsewhere(s, k, key); }
    }
    forall k ensures Tracked(t, k) {
      assert Tracked(s, k);
    }
    forall h: nat ensures Accounted(t, h) {
      assert Accounted(s, h);
      StillStopping(s, t, h);
      if h in t.live && s.ops[h].key == key { OneLive(s, h, s.handles[key]); }
    }
    forall g: nat ensures Launched(t, g) { assert Launched(s, g); }
  }

  /** An instance that is in use is not being stopped for good. */
  lemma Elsewhere(s: State, k: nat, key: string)
    requires Inv(s) && key in s.handles && k < |s.ops|
    ensures s.ops[k].phase != StoppingLast(s.handles[key]) || s.ops[k].key != key
  {
    NoLastStop(s, key);
  }

  lemma StartSettledKeeps(s: State, i: nat, ok: bool)
    requires Inv(s) && Enabled(s, StartSettled(i, ok))
    ensures Inv(Step(s, StartSettled(i, ok)))
  {
    var t := Step(s, StartSettled(i, ok));
    PhaseKeepsOrder(s, i, t);
    assert Placed(s, i);
    forall k: nat ensures Placed(t, k) {
      assert Placed(s, k);
      if k < |s.ops| && k != i && s.ops[k].key == s.ops[i].key { OthersRest(s, i, k); }
    }
    forall k ensures Tracked(t, k) { assert Tracked(s, k); }
    forall h: nat ensures Accounted(t, h) {
      assert Accounted(s, h);
      StillStopping(s, t, h);
      if h in s.live && s.ops[h].key == s.ops[i].key { NothingAlive(s, i, h); }
    }
    forall g: nat ensures Launched(t, g) { assert Launched(s, g); }
  }

  /** While a channel is being started, nothing on its key is alive. */
  lemma NothingAlive(s: State, i: nat, h: nat)
    requires Inv(s) && i < |s.ops| && s.ops[i].phase.Starting? && h < |s.ops| && s.ops[h].key == s.ops[i].key
    ensures h !in s.live
  {
    assert Placed(s, i) && Accounted(s, h);
    if h in s.live {
      var k :| 0 <= k < |s.ops| && s.ops[k].phase == StoppingLast(h) && s.ops[k].key == s.ops[h].key;
      OneActive(s, i, k);
    }
  }

  lemma LastStoppedKeeps(s: State, i: nat, ok: bool)
    requires Inv(s) && Enabled(s, LastStopped(i, ok))
    ensures Inv(Step(s, LastStopped(i, ok)))
  {
    var t := Step(s, LastStopped(i, ok));
    var gone := s.ops[i].phase.inst;
    PhaseKeepsOrder(s, i, t);
    assert Placed(s, i);
    forall k: nat ensures Placed(t, k) {
      assert Placed(s, k);
      if k < |s.ops| && k != i && s.ops[k].phase.StoppingLast? { DifferentInstance(s, i, k); }
    }
    forall k ensures Tracked(t, k) {
      assert Tracked(s, k);
      if k in s.handles { Released(s, i, k); }
    }
    forall h: nat ensures Accounted(t, h) {
      assert Accounted(s, h);
      if h != gone { StillStopping(s, t, h); }
    }
    forall g: nat ensures Launched(t, g) { assert Launched(s, g); }
  }

  lemma DifferentInstance(s: State, i: nat, k: nat)
    requires Inv(s) && i < |s.ops| && k < |s.ops| && i != k && s.ops[i].phase.StoppingLast? && s.ops[k].phase.StoppingLast?
    ensures s.ops[i].phase.inst != s.ops[k].phase.inst
  {
    assert Placed(s, i) && Placed(s, k);
    if s.ops[i].key == s.ops[k].key { OneActive(s, i, k); }
  }

  lemma Released(s: State, i: nat, key: string)
    requires Inv(s) && i < |s.ops| && s.ops[i].phase.StoppingLast? && key in s.handles
    ensures s.handles[key] != s.ops[i].phase.inst
  {
    assert Placed(s, i) && Tracked(s, key);
  }

  lemma CleanUpKeeps(s: State, i: nat)
    requires Inv(s) && Enabled(s, CleanUp(i))
    ensures Inv(Step(s, CleanUp(i)))
  {
    var t := Step(s, CleanUp(i));
    forall k: nat, l: nat ensures InOrder(t, k, l) { assert InOrder(s, k, l); }
    forall k: nat, l: nat ensures Linked(t, k, l) { assert Linked(s, k, l); }
    forall k: nat ensures LastKnown(t, k) { assert LastKnown(s, k) && InOrder(s, k, i); }
    forall key ensures ChannelsKnown(t, key) { assert ChannelsKnown(s, key); }
    forall k: nat ensures PreviousKnown(t, k) { assert PreviousKnown(s, k); }
    forall k: nat ensures Placed(t, k) { assert Placed(s, k); }
    forall k ensures Tracked(t, k) { assert Tracked(s, k); }
    forall h: nat ensures Accounted(t, h) { assert Accounted(s, h); }
    forall g: nat ensures Launched(t, g) { assert Launched(s, g); }
  }

  lemma StepKeeps(s: State, e: Event)
    requires Inv(s)
    ensures Inv(Step(s, e))
  {
    if Enabled(s, e) {
      match e {
        case Enqueue(key, isStop) => AddKeeps(s, key, isStop);
        case Begin(i) => StartKeeps(s, i);
        case OldStopped(i, ok) => OldStoppedKeeps(s, i, ok);
        case StartSettled(i, ok) => StartSettledKeeps(s, i, ok);
        case LastStopped(i, ok) => LastStoppedKeeps(s, i, ok);
        case CleanUp(i) => CleanUpKeeps(s, i);
      }
    }
  }

  lemma {:induction false} RunKeeps(s: State, events: seq<Event>)
    requires Inv(s)
    ensures Inv(Run(s, events))
    decreases |events|
  {
    if events == [] {
    } else {
      StepKeeps(s, events[0]);
      RunKeeps(Step(s, events[0]), events[1..]);
    }
  }

  lemma InitHolds()
    ensures Inv(INIT)
  {
  }

  // ---------------------------------------------------------------- what that says

  /** Whatever fails: operations on one key begin in the order they were enqueued, each after the one before has finished. */
  lemma OperationsRunInOrder(events: seq<Event>, i: nat, j: nat)
    requires i < j < |Run(INIT, events).ops| && Run(INIT, events).ops[i].key == Run(INIT, events).ops[j].key
    requires !Run(INIT, events).ops[j].phase.Queued?
    ensures Run(INIT, events).ops[i].phase.Finished?
  {
    InitHolds();
    RunKeeps(INIT, events);
    assert InOrder(Run(INIT, events), i, j);
  }

  /** The chain never blocks: of the unfinished operations on a key one is in progress or may begin. */
  lemma {:induction false} ChainAdvances(s: State, i: nat) returns (j: nat)
    requires Inv(s) && i < |s.ops| && !s.ops[i].phase.Finished?
    ensures j <= i && s.ops[j].key == s.ops[i].key && (Active(s.ops[j]) || Enabled(s, Begin(j)))
  {
    assert PreviousKnown(s, i);
    if s.ops[i].phase.Queued? && s.ops[i].previous.Some? && !s.ops[s.ops[i].previous.value].phase.Finished? {
      j := ChainAdvances(s, s.ops[i].previous.value);
    } else {
      j := i;
    }
  }

  /** At any time, and not only between operations, the two maps hold the same instance for the same keys. */
  lemma MapsAgree(events: seq<Event>)
    ensures Run(INIT, events).handles == Run(INIT, events).channels
  {
    InitHolds();
    RunKeeps(INIT, events);
    var s := Run(INIT, events);
    forall key ensures key in s.handles <==> key in s.channels { assert Tracked(s, key); }
    forall key | key in s.handles ensures s.handles[key] == s.channels[key] { assert Tracked(s, key); }
  }

  // ---------------------------------------------------------------- how many instances there are

  /** At most one instance of the key has been started and not stopped. */
  ghost predicate One(s: State, key: string) {
    forall g, h | g in Unstopped(s) && h in Unstopped(s) && g < |s.ops| && h < |s.ops| ::
      s.ops[g].key == key && s.ops[h].key == key ==> g == h
  }

  /** An instance of the key whose stop was rejected. */
  predicate Abandoned(s: State, key: string) {
    exists g <- s.abandoned :: g < |s.ops| && s.ops[g].key == key
  }

  /** The start of an instance succeeds beside one that could not be stopped. */
  predicate Doubles(s: State, e: Event, key: string) {
    Enabled(s, e) && e.StartSettled? && e.ok && s.ops[e.op].key == key && Abandoned(s, key)
  }

  /** While a start is in progress, whatever is unstopped on its key is an instance whose stop was rejected. */
  lemma StartIsExclusive(events: seq<Event>, i: nat, g: nat)
    requires var s := Run(INIT, events);
             && i < |s.ops| && s.ops[i].phase.Starting?
             && g in Unstopped(s) && g < |s.ops| && s.ops[g].key == s.ops[i].key
    ensures g in Run(INIT, events).abandoned && g !in Run(INIT, events).live
  {
    InitHolds();
    RunKeeps(INIT, events);
    NothingAlive(Run(INIT, events), i, g);
  }

  lemma StartedBeside(s: State, i: nat)
    requires Inv(s) && Enabled(s, StartSettled(i, true))
    ensures One(Step(s, StartSettled(i, true)), s.ops[i].key) <==> !Abandoned(s, s.ops[i].key)
  {
    var t := Step(s, StartSettled(i, true));
    var key := s.ops[i].key;
    assert Launched(s, i) && i in Unstopped(t) && t.ops[i].key == key;
    if Abandoned(s, key) {
      var g :| g in s.abandoned && g < |s.ops| && s.ops[g].key == key;
      assert g in Unstopped(s) && g != i && g in Unstopped(t) && t.ops[g].key == key;
    } else {
      forall g | g in Unstopped(t) && g < |t.ops| && t.ops[g].key == key ensures g == i {
        if g != i { NothingAlive(s, i, g); }
      }
    }
  }

  /** Any other step leaves no more unstopped instances of the key than there were. */
  lemma NothingNew(s: State, e: Event, key: string)
    requires Inv(s) && One(s, key)
    requires !(Enabled(s, e) && e.StartSettled? && e.ok && s.ops[e.op].key == key)
    ensures One(Step(s, e), key)
  {
    var t := Step(s, e);
    if Enabled(s, e) {
      KeysStay(s, e);
      forall g | g in Unstopped(t) && g < |t.ops| && t.ops[g].key == key ensures g in Unstopped(s) && g < |s.ops| {
        assert Launched(s, g);
        StaysUnstopped(s, e, g);
      }
    }
  }

  lemma KeysStay(s: State, e: Event)
    requires Enabled(s, e)
    ensures |Step(s, e).ops| >= |s.ops|
    ensures forall k | 0 <= k < |s.ops| :: Step(s, e).ops[k].key == s.ops[k].key
  {
  }

  /** Only a successful start brings a new instance. */
  lemma StaysUnstopped(s: State, e: Event, g: nat)
    requires Inv(s) && Enabled(s, e) && g in Unstopped(Step(s, e))
    ensures g in Unstopped(s) || (e.StartSettled? && e.ok && g == e.op)
  {
    match e {
      case OldStopped(i, ok) => assert Placed(s, i) && Tracked(s, s.ops[i].key);
      case LastStopped(i, ok) => assert Placed(s, i);
      case _ =>
    }
  }

  /** One step, exactly: a key keeps at most one instance unless a start succeeds beside an instance that could not be stopped. */
  lemma StepKeepsOne(s: State, e: Event, key: string)
    requires Inv(s) && One(s, key)
    ensures One(Step(s, e), key) <==> !Doubles(s, e, key)
  {
    if Enabled(s, e) && e.StartSettled? && e.ok && s.ops[e.op].key == key {
      StartedBeside(s, e.op);
    } else {
      NothingNew(s, e, key);
    }
  }

  ghost predicate AlwaysOne(s: State, events: seq<Event>, key: string)
    decreases |events|
  {
    One(s, key) && (events == [] || AlwaysOne(Step(s, events[0]), events[1..], key))
  }

  predicate NeverDoubles(s: State, events: seq<Event>, key: string)
    decreases |events|
  {
    events == [] || (!Doubles(s, events[0], key) && NeverDoubles(Step(s, events[0]), events[1..], key))
  }

  lemma {:induction false} OneUnlessDoubled(s: State, events: seq<Event>, key: string)
    requires Inv(s) && One(s, key)
    ensures AlwaysOne(s, events, key) <==> NeverDoubles(s, events, key)
    decreases |events|
  {
    if events == [] {
    } else {
      StepKeeps(s, events[0]);
      StepKeepsOne(s, events[0], key);
      if One(Step(s, events[0]), key) { OneUnlessDoubled(Step(s, events[0]), events[1..], key); }
    }
  }

  /**
   A run of hot starts and stops keeps at most one unstopped instance of a key all the way if
   and only if no start on the key succeeds while an instance is left whose stop was rejected.
   */
  lemma OneInstancePerKey(events: seq<Event>, key: string)
    ensures AlwaysOne(INIT, events, key) <==> NeverDoubles(INIT, events, key)
  {
    InitHolds();
    OneUnlessDoubled(INIT, events, key);
  }

  /** A stop on the key is rejected. */
  predicate Rejects(s: State, e: Event, key: string) {
    Enabled(s, e) && (e.OldStopped? || e.LastStopped?) && !e.ok && s.ops[e.op].key == key
  }

  predicate StopsSucceed(s: State, events: seq<Event>, key: string)
    decreases |events|
  {
    events == [] || (!Rejects(s, events[0], key) && StopsSucceed(Step(s, events[0]), events[1..], key))
  }

  lemma NothingAbandoned(s: State, e: Event, key: string)
    requires Inv(s) && !Abandoned(s, key) && !Rejects(s, e, key)
    ensures !Abandoned(Step(s, e), key)
  {
    if Enabled(s, e) {
      KeysStay(s, e);
      var t := Step(s, e);
      forall g | g in t.abandoned && g < |t.ops| ensures t.ops[g].key != key {
        if g in s.abandoned {
          assert Launched(s, g);
        } else if e.OldStopped? {
          assert Placed(s, e.op) && Tracked(s, s.ops[e.op].key);
        } else {
          assert Placed(s, e.op);
        }
      }
    }
  }

  lemma {:induction false} StoppedForGood(s: State, events: seq<Event>, key: string)
    requires Inv(s) && !Abandoned(s, key) && StopsSucceed(s, events, key)
    ensures NeverDoubles(s, events, key)
    decreases |events|
  {
    if events == [] {
    } else {
      StepKeeps(s, events[0]);
      NothingAbandoned(s, events[0], key);
      StoppedForGood(Step(s, events[0]), events[1..], key);
    }
  }

  /** In particular there is never more than one if no stop on the key is rejected. */
  lemma SuccessfulStopsSuffice(events: seq<Event>, key: string)
    requires StopsSucceed(INIT, events, key)
    ensures AlwaysOne(INIT, events, key)
  {
    InitHolds();
    StoppedForGood(INIT, events, key);
    OneInstancePerKey(events, key);
  }

  lemma {:induction false} RunConcat(s: State, a: seq<Event>, b: seq<Event>)
    ensures Run(s, a + b) == Run(Run(s, a), b)
    decreases |a|
  {
    if a == [] {
      assert a + b == b;
    } else {
      assert (a + b)[1..] == a[1..] + b;
      RunConcat(Step(s, a[0]), a[1..], b);
    }
  }

  /** One finished start, and no other operation. */
  function OneStarted(key: string): State {
    State([Op(key, false, None, Finished)], map[key := 0], map[key := 0], map[key := 0], {0}, {})
  }

  lemma FirstStart(key: string)
    ensures Run(INIT, [Enqueue(key, false), Begin(0), StartSettled(0, true)]) == OneStarted(key)
  {
    var s1 := Step(INIT, Enqueue(key, false));
    var s2 := Step(s1, Begin(0));
    var s3 := Step(s2, StartSettled(0, true));
    assert s3 == OneStarted(key);
    assert Run(s2, [StartSettled(0, true)]) == s3 by { assert [StartSettled(0, true)][1..] == []; }
    assert Run(s1, [Begin(0), StartSettled(0, true)]) == s3 by {
      assert [Begin(0), StartSettled(0, true)][1..] == [StartSettled(0, true)];
    }
    assert [Enqueue(key, false), Begin(0), StartSettled(0, true)][1..] == [Begin(0), StartSettled(0, true)];
  }

  /** The second start has run into a rejected stop and succeeded itself. */
  function TwoStarted(key: string): State {
    State([Op(key, false, None, Finished), Op(key, false, Some(0), Finished)],
          map[key := 1], map[key := 1], map[key := 1], {1}, {0})
  }

  lemma Reload(key: string)
    ensures Run(OneStarted(key), [Enqueue(key, false), Begin(1), OldStopped(1, false), StartSettled(1, true)])
         == TwoStarted(key)
  {
    var s1 := Step(OneStarted(key), Enqueue(key, false));
    var s2 := Step(s1, Begin(1));
    var s3 := Step(s2, OldStopped(1, false));
    var s4 := Step(s3, StartSettled(1, true));
    assert s2.ops == [Op(key, false, None, Finished), Op(key, false, Some(0), StoppingOld(0))];
    assert s3.ops == [Op(key, false, None, Finished), Op(key, false, Some(0), Starting)];
    assert s4 == TwoStarted(key);
    assert Run(s3, [StartSettled(1, true)]) == s4 by { assert [StartSettled(1, true)][1..] == []; }
    var rest := [OldStopped(1, false), StartSettled(1, true)];
    assert Run(s2, rest) == s4 by { assert rest[1..] == [StartSettled(1, true)]; }
    assert Run(s1, [Begin(1)] + rest) == s4 by { assert ([Begin(1)] + rest)[1..] == rest; }
    var all := [Enqueue(key, false)] + ([Begin(1)] + rest);
    assert Run(OneStarted(key), all) == s4 by { assert all[1..] == [Begin(1)] + rest; }
    assert all == [Enqueue(key, false), Begin(1), OldStopped(1, false), StartSettled(1, true)];
  }

  /** A hot reload whose stop of the old instance fails: afterwards two instances of the channel are running. */
  lemma RejectedStopDoubles(key: string)
    ensures var s := Run(INIT, [Enqueue(key, false), Begin(0), StartSettled(0, true)]
                               + [Enqueue(key, false), Begin(1), OldStopped(1, false), StartSettled(1, true)]);
            s == TwoStarted(key) && Unstopped(s) == {0, 1} && !One(s, key)
  {
    var reload := [Enqueue(key, false), Begin(1), OldStopped(1, false), StartSettled(1, true)];
    RunConcat(INIT, [Enqueue(key, false), Begin(0), StartSettled(0, true)], reload);
    FirstStart(key);
    Reload(key);
    assert 0 in Unstopped(TwoStarted(key)) && 1 in Unstopped(TwoStarted(key));
  }

  // ---------------------------------------------------------------- what each operation does

  /** An operation on a running channel stops that very instance, and forgets it at once if it is a stop. */
  lemma OperationStopsInstance(s: State, i: nat)
    requires Enabled(s, Begin(i)) && s.ops[i].key in s.handles
    ensures var t, key := Step(s, Begin(i)), s.ops[i].key;
            if s.ops[i].isStop
            then t.ops[i].phase == StoppingLast(s.handles[key])
                 && t.handles == s.handles - {key} && t.channels == s.channels - {key}
            else t.ops[i].phase == StoppingOld(s.handles[key]) && t.handles == s.handles && t.channels == s.channels
  {
  }

  /** With no instance running, a start goes on at once and a stop has nothing to do. */
  lemma OperationWithoutInstance(s: State, i: nat)
    requires Enabled(s, Begin(i)) && s.ops[i].key !in s.handles
    ensures Step(s, Begin(i)) == SetPhase(s, i, if s.ops[i].isStop then Finished else Starting)
  {
  }

  /** Whether the old instance could be stopped or not, a start forgets it and goes on. */
  lemma StartGoesOn(s: State, i: nat, ok: bool)
    requires Enabled(s, OldStopped(i, ok))
    ensures var t, key, inst := Step(s, OldStopped(i, ok)), s.ops[i].key, s.ops[i].phase.inst;
            && t.ops[i].phase == Starting && t.handles == s.handles - {key} && t.channels == s.channels - {key}
            && inst !in t.live && (inst in t.abandoned <==> inst in s.abandoned || !ok)
  {
  }

  /** A start that succeeds is tracked under its key, and one that fails leaves nothing behind. */
  lemma StartIsTracked(s: State, i: nat, ok: bool)
    requires Enabled(s, StartSettled(i, ok))
    ensures var t, key := Step(s, StartSettled(i, ok)), s.ops[i].key;
            && t.ops[i].phase == Finished
            && (ok ==> t.handles == s.handles[key := i] && t.channels == s.channels[key := i] && t.live == s.live + {i})
            && (!ok ==> t.handles == s.handles && t.channels == s.channels && t.live == s.live)
  {
  }

  /** In every run a started instance that nobody has begun to stop is the one its key leads to. */
  lemma LiveInstanceIsFound(events: seq<Event>, g: nat)
    requires var s := Run(INIT, events); g in s.live && forall i | 0 <= i < |s.ops| :: s.ops[i].phase != StoppingLast(g)
    ensures var s := Run(INIT, events);
            && g < |s.ops|
            && s.ops[g].key in s.handles && s.handles[s.ops[g].key] == g
            && s.ops[g].key in s.channels && s.channels[s.ops[g].key] == g
  {
    InitHolds();
    RunKeeps(INIT, events);
    var s := Run(INIT, events);
    assert Accounted(s, g) && Tracked(s, s.ops[g].key);
  }
}
