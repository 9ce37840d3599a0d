/**
 The event queue of `TelemetrySender` (`src/telemetry/sender.ts`).  Accepted and restored
 events are numbered; a flush takes batches from the front while enqueues go on, and a
 failed batch goes back to the front.
 */
module Telemetry {
  import opened Prelude

  datatype Envelope = Envelope(id: nat, attempts: int)

  datatype Config = Config(maxQueueSize: nat, batchSize: nat, maxRetries: nat)

  datatype Metrics = Metrics(queued: nat, sent: nat, sendFailures: nat, retries: nat, dropped: nat)

  /** A line of the queue file: an event with its attempts, a line that is too long, or rubbish. */
  datatype Line = Stored(attempts: int) | TooLong | Malformed

  datatype State = State(
    config: Config,
    enabled: bool,
    restored: bool,
    flushing: bool,
    queue: seq<Envelope>,
    inFlight: seq<Envelope>,            // the batch being sent
    metrics: Metrics,
    births: seq<int>,                   // per event ever queued, the attempts it came with
    transmissions: seq<nat>,            // ... and how often it has been sent out
    sent: seq<Envelope>,
    dropped: seq<Envelope>,             // queued events that were given up
    refused: nat,                       // events that never got into the queue
    waiting: bool,                      // a shutdown awaits the flush it has started
    due: nat,                           // shutdowns whose flush is over and that write next
    written: Option<seq<Envelope>>)     // the queue file, if it was written

  datatype Event =
    | Enqueue
    | Flush                             // the interval timer, or any other call of flush()
    | Delivered                         // the pending request succeeds
    | Failed                            // ... or fails
    | SetEnabled(enabled: bool, file: seq<Line>)
    | Shutdown                          // shutdown() up to the end of its flush
    | Write(ok: bool)                   // ... and from there; a failing write is ignored

  function Max(a: int, b: int): int { if a < b then b else a }

  function Init(config: Config): State {
    State(config, false, false, false, [], [], Metrics(0, 0, 0, 0, 0), [], [], [], [], 0, false, 0, None)
  }

  // ---------------------------------------------------------------- the queue

  function Push(s: State, attempts: int): State {
    s.(queue := s.queue + [Envelope(|s.births|, attempts)],
       births := s.births + [attempts], transmissions := s.transmissions + [0])
  }

  function Refuse(s: State): State {
    s.(refused := s.refused + 1, metrics := s.metrics.(dropped := s.metrics.dropped + 1))
  }

  /** Every event of the batch goes out once more. */
  function Sent(transmissions: seq<nat>, batch: seq<Envelope>): (after: seq<nat>)
    ensures |after| == |transmissions|
    ensures forall id | 0 <= id < |after| :: after[id] == transmissions[id] + Occ(batch, id)
  {
    seq(|transmissions|, id requires 0 <= id < |transmissions| => transmissions[id] + Occ(batch, id))
  }

  /** `this.queue.splice(0, batchSize)`, and the request it is sent with. */
  function TakeBatch(s: State): State {
    var n := if s.config.batchSize < |s.queue| then s.config.batchSize else |s.queue|;
    s.(queue := s.queue[n..], inFlight := s.queue[..n], flushing := true,
       transmissions := Sent(s.transmissions, s.queue[..n]))
  }

  /** `flush` up to its first `await`. */
  function StartFlush(s: State): State {
    if !s.enabled || s.flushing || s.queue == [] then s else TakeBatch(s)
  }

  function Offer(s: State): State {
    if |s.queue| >= s.config.maxQueueSize then Refuse(s)
    else
      var t := Push(s, 0).(metrics := s.metrics.(queued := s.metrics.queued + 1));
      if |t.queue| >= t.config.batchSize then StartFlush(t) else t
  }

  /** How often an event occurs. */
  function Occ(envelopes: seq<Envelope>, id: nat): nat
    decreases |envelopes|
  {
    if envelopes == [] then 0 else (if envelopes[0].id == id then 1 else 0) + Occ(envelopes[1..], id)
  }

  /** The request succeeded; the loop goes on while there is something to send, even if disabled meanwhile. */
  function Deliver(s: State): State {
    var t := s.(inFlight := [], sent := s.sent + s.inFlight, flushing := false,
                metrics := s.metrics.(sent := s.metrics.sent + |s.inFlight|));
    if t.queue == [] then t else TakeBatch(t)
  }

  predicate GivenUp(item: Envelope, maxRetries: nat) { item.attempts + 1 > maxRetries }

  function Again(item: Envelope): Envelope { item.(attempts := item.attempts + 1) }

  /** The `catch` block for the items of `batch`, first to last: each goes back to the very front. */
  function PutBack(s: State, batch: seq<Envelope>): State
    decreases |batch|
  {
    if batch == [] then s
    else if GivenUp(batch[0], s.config.maxRetries)
    then PutBack(s.(dropped := s.dropped + [batch[0]],
                    metrics := s.metrics.(dropped := s.metrics.dropped + 1)), batch[1..])
    else PutBack(s.(queue := [Again(batch[0])] + s.queue,
                    metrics := s.metrics.(retries := s.metrics.retries + 1)), batch[1..])
  }

  function Fail(s: State): State {
    PutBack(s.(inFlight := [], flushing := false, metrics := s.metrics.(sendFailures := s.metrics.sendFailures + 1)),
            s.inFlight)
  }

  /** A flush that is over lets the shutdown go on that has started it. */
  function FlushOver(s: State): State {
    if s.waiting && !s.flushing then s.(waiting := false, due := s.due + 1) else s
  }

  /** `shutdown`: `flush` returns at once if there is nothing to do, or if another flush is under way. */
  function BeginShutdown(s: State): State {
    var t := StartFlush(s);
    if t.flushing && !s.flushing then t.(waiting := true) else t.(due := t.due + 1)
  }

  // ---------------------------------------------------------------- the queue file

  /** `persistQueue`, if the queue has ever been restored. */
  function WriteQueue(s: State, ok: bool): State {
    s.(due := if s.due > 0 then s.due - 1 else 0, written := if s.restored && ok then Some(s.queue) else s.written)
  }

  function RestoreLine(s: State, line: Line): State {
    match line
    case TooLong => Refuse(s)
    case Malformed => s
    case Stored(attempts) => Push(s, Max(0, attempts))
  }

  function RestoreLines(s: State, lines: seq<Line>): State
    decreases |lines|
  {
    if lines == [] then s else RestoreLines(RestoreLine(s, lines[0]), lines[1..])
  }

  /** `lines.slice(-maxQueueSize)`; with no room at all nothing is read in the first place. */
  function Newest(lines: seq<Line>, max: nat): seq<Line> {
    if max == 0 then [] else if |lines| <= max then lines else lines[|lines| - max..]
  }

  function Read(lines: seq<Line>, max: nat): seq<Line> { if max == 0 then [] else lines }

  function Restore(s: State, file: seq<Line>): State {
    var lines := Read(file, s.config.maxQueueSize);
    var surplus := Max(0, |lines| - s.config.maxQueueSize);
    RestoreLines(s.(refused := s.refused + surplus, metrics := s.metrics.(dropped := s.metrics.dropped + surplus)),
                 Newest(lines, s.config.maxQueueSize))
  }

  function Enable(s: State, file: seq<Line>): State {
    var t := s.(enabled := true);
    if s.restored then t else Restore(t, file).(restored := true)
  }

  predicate Enabled(s: State, e: Event) {
    (e.Delivered? || e.Failed? ==> s.flushing) && (e.Write? ==> s.due > 0)
  }

  function Step(s: State, e: Event): State {
    if !Enabled(s, e) then s else
    match e
    case Enqueue => if !s.enabled then s else Offer(s)
    case Flush => StartFlush(s)
    case Delivered => FlushOver(Deliver(s))
    case Failed => FlushOver(Fail(s))
    case Shutdown => BeginShutdown(s)
    case Write(ok) => WriteQueue(s, ok)
    case SetEnabled(enabled, file) =>
      if s.enabled == enabled then s else if enabled then Enable(s, file) else s.(enabled := false)
  }

  function Run(s: State, events: seq<Event>): State
    decreases |events|
  {
    if events == [] then s else Run(Step(s, events[0]), events[1..])
  }

  // ---------------------------------------------------------------- the invariant

  /** Every event ever queued is queued, in flight, sent or dropped, and in one of these only. */
  predicate Once(s: State, id: nat) {
    Occ(s.queue, id) + Occ(s.inFlight, id) + Occ(s.sent, id) + Occ(s.dropped, id) == if id < |s.births| then 1 else 0
  }

  ghost predicate Conserved(s: State) { forall id: nat :: Once(s, id) }

  predicate Bounded(s: State) {
    var bounded :=
      && |s.queue| + |s.inFlight| <= s.config.maxQueueSize + s.config.batchSize
      && |s.inFlight| <= s.config.batchSize
      && (!s.flushing ==> s.inFlight == [])
      && (!s.restored ==> s.queue == [] && s.inFlight == [] && !s.enabled);
    bounded
  }

  predicate Accounted(s: State) {
    s.metrics.sent == |s.sent| && s.metrics.dropped == |s.dropped| + s.refused
  }

  /** What the attempts of a waiting event say about its transmissions. */
  predicate Tried(s: State, item: Envelope, ahead: nat) {
    && item.id < |s.births| == |s.transmissions|
    && 0 <= s.births[item.id] <= item.attempts
    && s.transmissions[item.id] == item.attempts - s.births[item.id] + ahead
    && (item.attempts > s.births[item.id] ==> item.attempts <= s.config.maxRetries)
  }

  predicate AllTried(s: State) {
    var tried :=
      && |s.births| == |s.transmissions|
      && (forall i | 0 <= i < |s.queue| :: Tried(s, s.queue[i], 0))
      && (forall i | 0 <= i < |s.inFlight| :: Tried(s, s.inFlight[i], 1))
      && (forall id | 0 <= id < |s.births| :: Sparing(s, id));
    tried
  }

  predicate Sparing(s: State, id: nat)
    requires id < |s.births| == |s.transmissions|
  {
    s.births[id] >= 0 && s.transmissions[id] <= Max(1, s.config.maxRetries + 1 - s.births[id])
  }

  /** The invariant but for the bounds. */
  ghost predicate Sound(s: State) {
    var sound := Conserved(s) && Accounted(s) && AllTried(s);
    sound
  }

  ghost predicate Inv(s: State) {
    var sound := Sound(s) && Bounded(s);
    sound
  }

  lemma {:induction false} OccConcat(a: seq<Envelope>, b: seq<Envelope>, id: nat)
    ensures Occ(a + b, id) == Occ(a, id) + Occ(b, id)
    decreases |a|
  {
    if a == [] {
      assert a + b == b;
    } else {
      OccConcat(a[1..], b, id);
      assert (a + b)[1..] == a[1..] + b;
    }
  }

  lemma {:induction false} OccHas(a: seq<Envelope>, i: nat)
    requires i < |a|
    ensures Occ(a, a[i].id) >= 1
    decreases |a|
  {
    if i > 0 {
      OccHas(a[1..], i - 1);
    } else {
    }
  }

  lemma {:induction false} HasItem(a: seq<Envelope>, id: nat) returns (i: nat)
    requires Occ(a, id) >= 1
    ensures i < |a| && a[i].id == id
    decreases |a|
  {
    if a[0].id == id {
      i := 0;
    } else {
      i := HasItem(a[1..], id);
      i := i + 1;
    }
  }

  lemma OccOne(item: Envelope, id: nat)
    ensures Occ([item], id) == if item.id == id then 1 else 0
  {
    assert [item][1..] == [];
  }

  // ---------------------------------------------------------------- the steps keep it

  lemma PushKeeps(s: State, attempts: int)
    requires Sound(s) && attempts >= 0
    ensures Sound(Push(s, attempts))
  {
    var t := Push(s, attempts);
    var item := Envelope(|s.births|, attempts);
    forall id: nat ensures Once(t, id) {
      assert Once(s, id);
      OccConcat(s.queue, [item], id);
      OccOne(item, id);
    }
    forall i | 0 <= i < |t.queue| ensures Tried(t, t.queue[i], 0) { if i < |s.queue| { assert Tried(s, s.queue[i], 0); } }
    forall i | 0 <= i < |t.inFlight| ensures Tried(t, t.inFlight[i], 1) { assert Tried(s, s.inFlight[i], 1); }
    forall id | 0 <= id < |t.births| ensures Sparing(t, id) { if id < |s.births| { assert Sparing(s, id); } }
  }

  /** Splitting the queue: each event is in the batch or left, not both. */
  lemma Split(s: State, n: nat, id: nat)
    requires Conserved(s) && n <= |s.queue|
    ensures Occ(s.queue[..n], id) + Occ(s.queue[n..], id) == Occ(s.queue, id) <= 1
  {
    assert s.queue == s.queue[..n] + s.queue[n..];
    OccConcat(s.queue[..n], s.queue[n..], id);
    assert Once(s, id);
  }

  lemma TakeConserves(s: State)
    requires Conserved(s) && s.inFlight == []
    ensures Conserved(TakeBatch(s))
  {
    var t := TakeBatch(s);
    forall id: nat ensures Once(t, id) {
      assert Once(s, id);
      Split(s, |t.inFlight|, id);
    }
  }

  lemma TakeTries(s: State)
    requires Conserved(s) && AllTried(s) && s.inFlight == []
    ensures AllTried(TakeBatch(s))
  {
    var t := TakeBatch(s);
    var n := |t.inFlight|;
    forall i | 0 <= i < |t.queue| ensures Tried(t, t.queue[i], 0) {
      assert Tried(s, s.queue[n + i], 0);
      OccHas(t.queue, i);
      Split(s, n, t.queue[i].id);
    }
    forall i | 0 <= i < |t.inFlight| ensures Tried(t, t.inFlight[i], 1) {
      assert Tried(s, s.queue[i], 0);
      OccHas(t.inFlight, i);
      Split(s, n, t.inFlight[i].id);
    }
    forall id | 0 <= id < |t.births| ensures Sparing(t, id) {
      assert Sparing(s, id);
      Split(s, n, id);
      if Occ(t.inFlight, id) == 1 {
        var i := HasItem(t.inFlight, id);
        assert Tried(s, s.queue[i], 0);
      }
    }
  }

  lemma TakeKeeps(s: State)
    requires Sound(s) && s.inFlight == []
    ensures Sound(TakeBatch(s))
    ensures |TakeBatch(s).queue| + |TakeBatch(s).inFlight| == |s.queue|
  {
    TakeConserves(s);
    TakeTries(s);
  }

  lemma StartFlushKeeps(s: State)
    requires Inv(s)
    ensures Inv(StartFlush(s))
  {
    if s.enabled && !s.flushing && s.queue != [] { TakeKeeps(s); }
  }

  lemma OfferKeeps(s: State)
    requires Inv(s) && s.enabled
    ensures Inv(Offer(s))
  {
    if |s.queue| >= s.config.maxQueueSize {
      SameEvents(s, Refuse(s));
    } else {
      PushKeeps(s, 0);
      var t := Push(s, 0).(metrics := s.metrics.(queued := s.metrics.queued + 1));
      SameEvents(Push(s, 0), t);
      StartFlushKeeps(t);
    }
  }

  /** Steps that touch neither the events nor their history. */
  lemma SameEvents(s: State, t: State)
    requires Conserved(s) && AllTried(s) && t.sent == s.sent && t.dropped == s.dropped
    requires t.queue == s.queue && t.inFlight == s.inFlight && t.births == s.births
    requires t.transmissions == s.transmissions && t.config == s.config
    ensures Conserved(t) && AllTried(t)
  {
    forall id: nat ensures Once(t, id) { assert Once(s, id); }
    forall i | 0 <= i < |t.queue| ensures Tried(t, t.queue[i], 0) { assert Tried(s, s.queue[i], 0); }
    forall i | 0 <= i < |t.inFlight| ensures Tried(t, t.inFlight[i], 1) { assert Tried(s, s.inFlight[i], 1); }
    forall id | 0 <= id < |t.births| ensures Sparing(t, id) { assert Sparing(s, id); }
  }

  lemma DeliverKeeps(s: State)
    requires Inv(s)
    ensures Inv(Deliver(s))
  {
    var t := s.(inFlight := [], sent := s.sent + s.inFlight, flushing := false,
                metrics := s.metrics.(sent := s.metrics.sent + |s.inFlight|));
    forall id: nat ensures Once(t, id) {
      assert Once(s, id);
      OccConcat(s.sent, s.inFlight, id);
    }
    forall i | 0 <= i < |t.queue| ensures Tried(t, t.queue[i], 0) { assert Tried(s, s.queue[i], 0); }
    forall id | 0 <= id < |t.births| ensures Sparing(t, id) { assert Sparing(s, id); }
    if t.queue != [] { TakeKeeps(t); }
  }

  /** Everything but the queue, the counts and what became of the events. */
  function Rest(s: State): (Config, bool, bool, bool, seq<Envelope>, bool, nat, Option<seq<Envelope>>) {
    (s.config, s.enabled, s.restored, s.flushing, s.inFlight, s.waiting, s.due, s.written)
  }

  lemma {:induction false} PutBackSameRest(s: State, batch: seq<Envelope>)
    ensures Rest(PutBack(s, batch)) == Rest(s)
    decreases |batch|
  {
    if batch == [] {
    } else if GivenUp(batch[0], s.config.maxRetries) {
      PutBackSameRest(s.(dropped := s.dropped + [batch[0]],
                           metrics := s.metrics.(dropped := s.metrics.dropped + 1)), batch[1..]);
    } else {
      PutBackSameRest(s.(queue := [Again(batch[0])] + s.queue,
                           metrics := s.metrics.(retries := s.metrics.retries + 1)), batch[1..]);
    }
  }

  lemma {:induction false} RestoreSameRest(s: State, lines: seq<Line>)
    ensures Rest(RestoreLines(s, lines)) == Rest(s)
    decreases |lines|
  {
    if lines == [] {
    } else {
      RestoreSameRest(RestoreLine(s, lines[0]), lines[1..]);
    }
  }

  predicate OnceWith(s: State, batch: seq<Envelope>, id: nat) {
    Occ(s.queue, id) + Occ(batch, id) + Occ(s.sent, id) + Occ(s.dropped, id) == if id < |s.births| then 1 else 0
  }

  /** The state while the items of a failed batch are put back: `batch` is what is still to do. */
  ghost predicate PuttingBack(s: State, batch: seq<Envelope>) {
    var sound :=
      && (forall id: nat :: OnceWith(s, batch, id))
      && Accounted(s) && s.inFlight == [] && !s.flushing
      && AllTried(s)
      && (forall i | 0 <= i < |batch| :: Tried(s, batch[i], 1));
    sound
  }

  lemma {:induction false} PutBackKeeps(s: State, batch: seq<Envelope>)
    requires PuttingBack(s, batch)
    ensures var t := PutBack(s, batch);
            PuttingBack(t, []) && |t.queue| <= |s.queue| + |batch|
    decreases |batch|
  {
    if batch == [] {
    } else {
      var item := batch[0];
      var t := if GivenUp(item, s.config.maxRetries)
               then s.(dropped := s.dropped + [item], metrics := s.metrics.(dropped := s.metrics.dropped + 1))
               else s.(queue := [Again(item)] + s.queue, metrics := s.metrics.(retries := s.metrics.retries + 1));
      PutOneBack(s, batch, t);
      PutBackKeeps(t, batch[1..]);
    }
  }

  lemma PutOneBack(s: State, batch: seq<Envelope>, t: State)
    requires PuttingBack(s, batch) && batch != []
    requires t == if GivenUp(batch[0], s.config.maxRetries)
                  then s.(dropped := s.dropped + [batch[0]], metrics := s.metrics.(dropped := s.metrics.dropped + 1))
                  else s.(queue := [Again(batch[0])] + s.queue, metrics := s.metrics.(retries := s.metrics.retries + 1))
    ensures PuttingBack(t, batch[1..])
  {
    assert Tried(s, batch[0], 1);
    forall id: nat ensures OnceWith(t, batch[1..], id) {
      assert OnceWith(s, batch, id);
      OccConcat(s.dropped, [batch[0]], id);
      OccOne(batch[0], id);
      assert ([Again(batch[0])] + s.queue)[1..] == s.queue;
    }
    assert ([Again(batch[0])] + s.queue)[1..] == s.queue;
    forall i | 0 <= i < |t.queue| ensures Tried(t, t.queue[i], 0) {
      if t.queue != s.queue && i > 0 { assert Tried(s, s.queue[i - 1], 0); } else if t.queue == s.queue { assert Tried(s, s.queue[i], 0); }
    }
    forall i | 0 <= i < |batch[1..]| ensures Tried(t, batch[1..][i], 1) { assert Tried(s, batch[i + 1], 1); }
    forall id | 0 <= id < |t.births| ensures Sparing(t, id) { assert Sparing(s, id); }
  }

  lemma FailKeeps(s: State)
    requires Inv(s)
    ensures Inv(Fail(s))
  {
    var t := s.(inFlight := [], flushing := false, metrics := s.metrics.(sendFailures := s.metrics.sendFailures + 1));
    forall i | 0 <= i < |t.queue| ensures Tried(t, t.queue[i], 0) { assert Tried(s, s.queue[i], 0); }
    forall i | 0 <= i < |s.inFlight| ensures Tried(t, s.inFlight[i], 1) { assert Tried(s, s.inFlight[i], 1); }
    forall id | 0 <= id < |t.births| ensures Sparing(t, id) { assert Sparing(s, id); }
    forall id: nat ensures OnceWith(t, s.inFlight, id) { assert Once(s, id); }
    PutBackKeeps(t, s.inFlight);
    PutBackSameRest(t, s.inFlight);
    forall id: nat ensures Once(Fail(s), id) { assert OnceWith(Fail(s), [], id); }
  }

  lemma {:induction false} RestoreLinesKeeps(s: State, lines: seq<Line>)
    requires Sound(s)
    ensures var t := RestoreLines(s, lines);
            Sound(t) && |t.queue| <= |s.queue| + |lines|
    decreases |lines|
  {
    if lines == [] {
    } else {
      if lines[0].Stored? { PushKeeps(s, Max(0, lines[0].attempts)); } else { SameEvents(s, RestoreLine(s, lines[0])); }
      RestoreLinesKeeps(RestoreLine(s, lines[0]), lines[1..]);
    }
  }

  lemma EnableKeeps(s: State, file: seq<Line>)
    requires Inv(s)
    ensures Inv(Enable(s, file))
  {
    var t := s.(enabled := true);
    SameEvents(s, t);
    if !s.restored {
      var lines := Read(file, s.config.maxQueueSize);
      var surplus := Max(0, |lines| - s.config.maxQueueSize);
      var u := t.(refused := s.refused + surplus, metrics := s.metrics.(dropped := s.metrics.dropped + surplus));
      SameEvents(t, u);
      RestoreLinesKeeps(u, Newest(lines, s.config.maxQueueSize));
      RestoreSameRest(u, Newest(lines, s.config.maxQueueSize));
      SameEvents(Restore(t, file), Enable(s, file));
    }
  }

  /** Every step keeps all four invariants. */
  lemma StepKeeps(s: State, e: Event)
    requires Inv(s)
    ensures Inv(Step(s, e))
  {
    if Enabled(s, e) {
      match e {
        case Enqueue => if s.enabled { OfferKeeps(s); }
        case Flush => StartFlushKeeps(s);
        case Delivered =>
          DeliverKeeps(s);
          SameEvents(Deliver(s), FlushOver(Deliver(s)));
        case Failed =>
          FailKeeps(s);
          SameEvents(Fail(s), FlushOver(Fail(s)));
        case Shutdown =>
          StartFlushKeeps(s);
          SameEvents(StartFlush(s), BeginShutdown(s));
        case Write(ok) => SameEvents(s, WriteQueue(s, ok));
        case SetEnabled(enabled, file) =>
          if enabled { EnableKeeps(s, file); } else { SameEvents(s, s.(enabled := false)); }
      }
    }
  }

  lemma {:induction false} RunKeeps(s: State, events: seq<Event>)
    requires Inv(s)
    ensures Inv(Run(s, events))
    decreases |events|
  {
    if events == [] {
    } else {
      StepKeeps(s, events[0]);
      RunKeeps(Step(s, events[0]), events[1..]);
    }
  }

  // ---------------------------------------------------------------- what that says

  lemma InitHolds(config: Config)
    ensures Inv(Init(config))
  {
  }

  /** In every run each event that got into the queue is in exactly one place. */
  lemma NothingLostOrDuplicated(config: Config, events: seq<Event>, id: nat)
    requires id < |Run(Init(config), events).births|
    ensures var s := Run(Init(config), events);
            Occ(s.queue, id) + Occ(s.inFlight, id) + Occ(s.sent, id) + Occ(s.dropped, id) == 1
  {
    InitHolds(config);
    RunKeeps(Init(config), events);
    assert Once(Run(Init(config), events), id);
  }

  lemma {:induction false} SameConfig(s: State, events: seq<Event>)
    ensures Run(s, events).config == s.config
    decreases |events|
  {
    if events == [] {
    } else {
      StepSameConfig(s, events[0]);
      SameConfig(Step(s, events[0]), events[1..]);
    }
  }

  lemma StepSameConfig(s: State, e: Event)
    ensures Step(s, e).config == s.config
  {
    match e {
      case Failed =>
        PutBackSameRest(s.(inFlight := [], flushing := false,
                             metrics := s.metrics.(sendFailures := s.metrics.sendFailures + 1)), s.inFlight);
      case SetEnabled(enabled, file) =>
        var lines := Read(file, s.config.maxQueueSize);
        var surplus := Max(0, |lines| - s.config.maxQueueSize);
        RestoreSameRest(s.(enabled := true, refused := s.refused + surplus,
                             metrics := s.metrics.(dropped := s.metrics.dropped + surplus)),
                          Newest(lines, s.config.maxQueueSize));
      case _ =>
    }
  }

  /** Memory stays bounded, although failed batches are put back into a queue that was filled up meanwhile. */
  lemma QueueIsBounded(config: Config, events: seq<Event>)
    ensures var s := Run(Init(config), events);
            |s.queue| + |s.inFlight| <= config.maxQueueSize + config.batchSize
  {
    InitHolds(config);
    RunKeeps(Init(config), events);
    SameConfig(Init(config), events);
  }

  /** An event goes out at most `maxRetries + 1` times, less what it had behind it when restored, but once in any case. */
  lemma RetriesAreBounded(config: Config, events: seq<Event>, id: nat)
    requires id < |Run(Init(config), events).births|
    ensures var s := Run(Init(config), events);
            |s.transmissions| == |s.births| && s.births[id] >= 0
            && s.transmissions[id] <= Max(1, config.maxRetries + 1 - s.births[id])
  {
    InitHolds(config);
    RunKeeps(Init(config), events);
    SameConfig(Init(config), events);
    assert Sparing(Run(Init(config), events), id);
  }

  // ---------------------------------------------------------------- across a restart

  /** `persistQueue`: one line per queued event. */
  function Persist(queue: seq<Envelope>): (lines: seq<Line>)
    ensures |lines| == |queue|
    ensures forall i | 0 <= i < |queue| :: lines[i] == Stored(queue[i].attempts)
  {
    seq(|queue|, i requires 0 <= i < |queue| => Stored(queue[i].attempts))
  }

  lemma {:induction false} RestoreStored(s: State, lines: seq<Line>)
    requires forall i | 0 <= i < |lines| :: lines[i].Stored? && lines[i].attempts >= 0
    ensures var t := RestoreLines(s, lines);
            && |t.queue| == |s.queue| + |lines| && s.queue <= t.queue && t.refused == s.refused
            && forall i | 0 <= i < |lines| :: t.queue[|s.queue| + i].attempts == lines[i].attempts
    decreases |lines|
  {
    if lines == [] {
    } else {
      var t := RestoreLine(s, lines[0]);
      RestoreStored(t, lines[1..]);
      var u := RestoreLines(t, lines[1..]);
      assert u.queue[|s.queue|] == t.queue[|s.queue|];
      forall i | 1 <= i < |lines| ensures u.queue[|s.queue| + i].attempts == lines[i].attempts {
        assert u.queue[|t.queue| + (i - 1)].attempts == lines[1..][i - 1].attempts;
      }
    }
  }

  /**
   What a clean shutdown writes, the next process restores: the newest events up to the
   queue limit, in order and with their attempts; the others count as dropped.
   */
  lemma RestartKeepsNewest(config: Config, queue: seq<Envelope>)
    requires forall i | 0 <= i < |queue| :: queue[i].attempts >= 0
    ensures var t := Enable(Init(config), Persist(queue));
            var kept := if |queue| <= config.maxQueueSize then |queue| else config.maxQueueSize;
            && |t.queue| == kept
            && (forall i | 0 <= i < kept :: t.queue[i].attempts == queue[|queue| - kept + i].attempts)
            && (config.maxQueueSize > 0 ==> t.metrics.dropped == |queue| - kept)
  {
    var file := Persist(queue);
    var lines := Read(file, config.maxQueueSize);
    var surplus := Max(0, |lines| - config.maxQueueSize);
    var s := Init(config).(enabled := true);
    var u := s.(refused := s.refused + surplus, metrics := s.metrics.(dropped := s.metrics.dropped + surplus));
    RestoreStored(u, Newest(lines, config.maxQueueSize));
    RestoreMetrics(u, Newest(lines, config.maxQueueSize));
  }

  lemma {:induction false} RestoreMetrics(s: State, lines: seq<Line>)
    requires forall i | 0 <= i < |lines| :: lines[i].Stored?
    ensures RestoreLines(s, lines).metrics == s.metrics
    decreases |lines|
  {
    if lines == [] {
    } else {
      RestoreMetrics(RestoreLine(s, lines[0]), lines[1..]);
    }
  }

  // ---------------------------------------------------------------- shutdown

  /** Only a flush keeps a shutdown waiting. */
  lemma StepWaits(s: State, e: Event)
    requires s.waiting ==> s.flushing
    ensures Step(s, e).waiting ==> Step(s, e).flushing
  {
    match e {
      case SetEnabled(enabled, file) =>
        var lines := Read(file, s.config.maxQueueSize);
        var surplus := Max(0, |lines| - s.config.maxQueueSize);
        RestoreSameRest(s.(enabled := true, refused := s.refused + surplus,
                           metrics := s.metrics.(dropped := s.metrics.dropped + surplus)),
                        Newest(lines, s.config.maxQueueSize));
      case _ =>
    }
  }

  lemma {:induction false} RunWaits(s: State, events: seq<Event>)
    requires s.waiting ==> s.flushing
    ensures Run(s, events).waiting ==> Run(s, events).flushing
    decreases |events|
  {
    if events == [] {
    } else {
      StepWaits(s, events[0]);
      RunWaits(Step(s, events[0]), events[1..]);
    }
  }

  /**
   What is on disk after the write of a shutdown, in any run: an event that ever got into the
   queue is in the file, sent or given up, unless it is in the batch that is in flight just then.
   */
  lemma FileMissesTheBatch(config: Config, events: seq<Event>, id: nat)
    requires var s := Run(Init(config), events); id < |s.births| && s.due > 0 && s.restored
    ensures var s := Run(Init(config), events);
            var t := Step(s, Write(true));
            && t.written.Some? && t.inFlight == s.inFlight
            && Occ(t.written.value, id) + Occ(t.sent, id) + Occ(t.dropped, id) == if Occ(s.inFlight, id) > 0 then 0 else 1
  {
    NothingLostOrDuplicated(config, events, id);
  }

  /** `answers` are the responses up to the moment when a shutdown may write. */
  predicate UpToWrite(s: State, answers: seq<Event>)
    decreases |answers|
  {
    if s.due > 0 then answers == []
    else answers != [] && (answers[0].Delivered? || answers[0].Failed?) && UpToWrite(Step(s, answers[0]), answers[1..])
  }

  lemma {:induction false} OwnFlushEnds(s: State, answers: seq<Event>)
    requires s.waiting && s.flushing && s.due == 0 && UpToWrite(s, answers)
    ensures !Run(s, answers).flushing
    decreases |answers|
  {
    var t := Step(s, answers[0]);
    if answers[0].Failed? {
      PutBackSameRest(s.(inFlight := [], flushing := false,
                         metrics := s.metrics.(sendFailures := s.metrics.sendFailures + 1)), s.inFlight);
    }
    if t.due == 0 {
      OwnFlushEnds(t, answers[1..]);
    } else {
      assert answers[1..] == [];
    }
  }

  /**
   A shutdown that nothing but responses comes between writes everything that is left, except
   the batch of a flush that was under way when it was called: it does not wait for that one.
   */
  lemma ShutdownMissesPendingBatch(config: Config, events: seq<Event>, answers: seq<Event>)
    requires var s := Run(Init(config), events); s.due == 0 && UpToWrite(Step(s, Shutdown), answers)
    ensures var s := Run(Init(config), events);
            var t := Run(Step(s, Shutdown), answers);
            t.inFlight == if s.flushing then s.inFlight else []
  {
    var s := Run(Init(config), events);
    InitHolds(config);
    RunKeeps(Init(config), events);
    RunWaits(Init(config), events);
    var t := Step(s, Shutdown);
    StepKeeps(s, Shutdown);
    RunKeeps(t, answers);
    if t.due == 0 { OwnFlushEnds(t, answers); }
  }

  // ---------------------------------------------------------------- what each call does

  /** While telemetry is on, an event is taken as long as there is room, and refused otherwise; while it is off, nothing happens. */
  lemma EnqueueTakes(s: State)
    requires Inv(s)
    ensures var t, id := Step(s, Enqueue), |s.births|;
            && (!s.enabled ==> t == s)
            && (s.enabled && |s.queue| < s.config.maxQueueSize ==>
                  && t.births == s.births + [0] && t.metrics.queued == s.metrics.queued + 1 && t.refused == s.refused
                  && Occ(t.queue, id) + Occ(t.inFlight, id) == 1
                  && t.sent == s.sent && t.dropped == s.dropped)
            && (s.enabled && |s.queue| >= s.config.maxQueueSize ==>
                  t == s.(refused := s.refused + 1, metrics := s.metrics.(dropped := s.metrics.dropped + 1)))
  {
    if s.enabled && |s.queue| < s.config.maxQueueSize {
      var id, t := |s.births|, Step(s, Enqueue);
      assert Once(s, id);
      StepKeeps(s, Enqueue);
      assert Once(t, id);
    }
  }

  /** The next batch: the oldest events of the queue, as many as fit. */
  predicate Batched(s: State, t: State) {
    var n := if |s.queue| < s.config.batchSize then |s.queue| else s.config.batchSize;
    t.flushing && t.inFlight == s.queue[..n] && t.queue == s.queue[n..]
  }

  /** A flush sends the oldest events, if telemetry is on, no other flush is under way and there are any. */
  lemma FlushSends(s: State)
    ensures var t, due := Step(s, Flush), s.enabled && !s.flushing && |s.queue| > 0;
            (due ==> Batched(s, t)) && (!due ==> t == s)
  {
  }

  /** An event that fills a batch starts a flush. */
  lemma FullBatchIsSent(s: State)
    requires s.enabled && !s.flushing && |s.queue| < s.config.maxQueueSize
    ensures var t, taken := Step(s, Enqueue), s.queue + [Envelope(|s.births|, 0)];
            && (|taken| >= s.config.batchSize ==> Batched(s.(queue := taken), t))
            && (|taken| < s.config.batchSize ==> t.queue == taken && !t.flushing)
  {
  }

  /** A delivered batch counts as sent, and the flush goes on with what has come meanwhile. */
  lemma DeliveryGoesOn(s: State)
    requires s.flushing
    ensures var t := Step(s, Delivered);
            && t.sent == s.sent + s.inFlight && t.metrics.sent == s.metrics.sent + |s.inFlight| && t.dropped == s.dropped
            && (|s.queue| > 0 ==> Batched(s, t)) && (|s.queue| == 0 ==> !t.flushing && t.inFlight == [] && t.queue == [])
  {
  }

  /** The events of a failed batch that may be tried again, one attempt later. */
  function Retried(batch: seq<Envelope>, maxRetries: nat): seq<Envelope> {
    if batch == [] then []
    else (if batch[0].attempts < maxRetries then [Envelope(batch[0].id, batch[0].attempts + 1)] else [])
         + Retried(batch[1..], maxRetries)
  }

  function Exhausted(batch: seq<Envelope>, maxRetries: nat): seq<Envelope> {
    if batch == [] then []
    else (if batch[0].attempts < maxRetries then [] else [batch[0]]) + Exhausted(batch[1..], maxRetries)
  }

  function Reversed(s: seq<Envelope>): seq<Envelope> {
    if s == [] then [] else Reversed(s[1..]) + [s[0]]
  }

  lemma {:induction false} PutBackIs(s: State, batch: seq<Envelope>)
    ensures var t, max := PutBack(s, batch), s.config.maxRetries;
            && t.queue == Reversed(Retried(batch, max)) + s.queue
            && t.dropped == s.dropped + Exhausted(batch, max)
            && t.metrics.retries == s.metrics.retries + |Retried(batch, max)|
    decreases |batch|
  {
    if batch == [] {
    } else {
      var max := s.config.maxRetries;
      var t := if GivenUp(batch[0], max)
               then s.(dropped := s.dropped + [batch[0]], metrics := s.metrics.(dropped := s.metrics.dropped + 1))
               else s.(queue := [Again(batch[0])] + s.queue, metrics := s.metrics.(retries := s.metrics.retries + 1));
      PutBackIs(t, batch[1..]);
      if GivenUp(batch[0], max) {
        assert Retried(batch, max) == Retried(batch[1..], max);
        Regroup(s.dropped, [batch[0]], Exhausted(batch[1..], max));
      } else {
        assert Exhausted(batch, max) == Exhausted(batch[1..], max);
        ReversedFront(Envelope(batch[0].id, batch[0].attempts + 1), Retried(batch[1..], max), s.queue);
      }
    }
  }

  lemma Regroup(a: seq<Envelope>, b: seq<Envelope>, c: seq<Envelope>)
    ensures a + b + c == a + (b + c)
  {
  }

  lemma ReversedFront(first: Envelope, rest: seq<Envelope>, queue: seq<Envelope>)
    ensures Reversed([first] + rest) + queue == Reversed(rest) + ([first] + queue)
  {
    assert ([first] + rest)[1..] == rest;
  }

  /**
   After a failure the flush is over; the events that have attempts left are back in front of
   the queue, in reverse, and exactly the others are given up.
   */
  lemma FailureRetries(s: State)
    requires s.flushing
    ensures var t, max := Step(s, Failed), s.config.maxRetries;
            && !t.flushing && t.inFlight == [] && t.sent == s.sent
            && t.queue == Reversed(Retried(s.inFlight, max)) + s.queue
            && t.dropped == s.dropped + Exhausted(s.inFlight, max)
  {
    var u := s.(inFlight := [], flushing := false, metrics := s.metrics.(sendFailures := s.metrics.sendFailures + 1));
    PutBackIs(u, s.inFlight);
    PutBackSameRest(u, s.inFlight);
    PutBackSameSent(u, s.inFlight);
  }

  lemma {:induction false} PutBackSameSent(s: State, batch: seq<Envelope>)
    ensures PutBack(s, batch).sent == s.sent
    decreases |batch|
  {
    if batch == [] {
    } else {
      var t := if GivenUp(batch[0], s.config.maxRetries)
               then s.(dropped := s.dropped + [batch[0]], metrics := s.metrics.(dropped := s.metrics.dropped + 1))
               else s.(queue := [Again(batch[0])] + s.queue, metrics := s.metrics.(retries := s.metrics.retries + 1));
      PutBackSameSent(t, batch[1..]);
    }
  }

  /** The queue file is read when telemetry is first switched on, and never again. */
  lemma FileIsReadOnce(s: State, file: seq<Line>)
    ensures Step(s, SetEnabled(false, file)) == s.(enabled := false)
    ensures s.restored ==> Step(s, SetEnabled(true, file)) == s.(enabled := true)
    ensures !s.restored && !s.enabled ==> Step(s, SetEnabled(true, file)).restored
  {
  }
}
