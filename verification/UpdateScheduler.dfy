/**
 The debounced project scan (`ui/server/projectUpdateScheduler.js`).  Changes are numbered
 in the order in which they are scheduled; `pending` holds the latest.
 */
module UpdateScheduler {
  import opened Prelude

  datatype State = State(
    timer: bool,
    pending: Option<nat>,
    running: bool,
    disposed: bool,
    scans: seq<nat>,                  // the scans under way, by the change they were started for
    scheduled: nat,                   // changes scheduled so far
    lastScan: nat,                    // how many of them there were when the latest scan was started
    published: seq<nat>,              // the changes published, in order
    publishedAtDispose: Option<nat>)  // how many publications there were when dispose was called

  const INIT := State(false, None, false, false, [], 0, 0, [], None)

  datatype Event = Schedule | TimerFires | ScanSettles(scan: nat, ok: bool) | Dispose

  /** `run` up to its `await`. */
  function StartRun(s: State): State {
    if s.disposed || s.running || s.pending.None? then s
    else s.(running := true, scans := s.scans + [s.pending.value], pending := None, lastScan := s.scheduled)
  }

  /** The end of a scan: publish what it was started for. */
  function Settle(s: State, k: nat, ok: bool): State
    requires k < |s.scans|
  {
    s.(running := false, scans := s.scans[..k] + s.scans[k + 1..],
       published := if ok && !s.disposed then s.published + [s.scans[k]] else s.published)
  }

  /** ... and drain what came in meanwhile, unless its timer is still running. */
  function EndRun(s: State, k: nat, ok: bool): State
    requires k < |s.scans|
  {
    var t := Settle(s, k, ok);
    if !t.disposed && t.pending.Some? && !t.timer then StartRun(t) else t
  }

  predicate Enabled(s: State, e: Event) {
    match e
    case TimerFires => s.timer
    case ScanSettles(k, _) => k < |s.scans|
    case _ => true
  }

  function Step(s: State, e: Event): State {
    if !Enabled(s, e) then s else
    match e
    case Schedule =>
      if s.disposed then s else s.(pending := Some(s.scheduled), scheduled := s.scheduled + 1, timer := true)
    case TimerFires => StartRun(s.(timer := false))
    case ScanSettles(k, ok) => EndRun(s, k, ok)
    case Dispose =>
      s.(disposed := true, pending := None, timer := false,
         publishedAtDispose := if s.disposed then s.publishedAtDispose else Some(|s.published|))
  }

  function Run(s: State, events: seq<Event>): State
    decreases |events|
  {
    if events == [] then s else Run(Step(s, events[0]), events[1..])
  }

  // ---------------------------------------------------------------- the invariant

  predicate Waiting(s: State) {
    && (s.pending.Some? ==> s.pending.value + 1 == s.scheduled && !s.disposed && (s.timer || s.running))
    && (s.timer ==> s.pending.Some?)
  }

  predicate Scanning(s: State) {
    && |s.scans| == (if s.running then 1 else 0)
    && (s.running ==> s.scans[0] < s.lastScan)
    && s.lastScan <= s.scheduled
    && (s.running && s.pending.Some? ==> s.scans[0] < s.pending.value)
    && (!s.disposed && s.pending.None? ==> s.lastScan == s.scheduled)
  }

  /** The earliest change that may still be published. */
  function Horizon(s: State): nat {
    if s.scans != [] then s.scans[0] else if s.pending.Some? then s.pending.value else s.scheduled
  }

  /** Publications are in the order of their changes, and before the changes still to be published. */
  predicate Publishing(s: State) {
    && (s.disposed ==> s.publishedAtDispose == Some(|s.published|))
    && (forall i, j | 0 <= i < j < |s.published| :: s.published[i] < s.published[j])
    && (forall i | 0 <= i < |s.published| :: s.published[i] < Horizon(s))
  }

  predicate Inv(s: State) {
    var sound := Waiting(s) && Scanning(s) && Publishing(s);
    sound
  }

  lemma StartRunKeeps(s: State)
    requires !s.disposed && !s.running && Inv(s.(timer := s.pending.Some?))
    ensures Inv(StartRun(s.(timer := false)))
  {
  }

  /** The end of a scan leaves the scheduler sound, but for a change that nobody looks after yet. */
  lemma SettleKeeps(s: State, k: nat, ok: bool)
    requires Inv(s) && k < |s.scans|
    ensures var t := Settle(s, k, ok); Inv(t.(timer := t.pending.Some?))
  {
    var t := Settle(s, k, ok);
    var u := t.(timer := t.pending.Some?);
    assert u.scans == [];
    assert Horizon(s) == s.scans[0] < Horizon(u);
    assert Publishing(u);
  }

  lemma EndRunKeeps(s: State, k: nat, ok: bool)
    requires Inv(s) && k < |s.scans|
    ensures Inv(EndRun(s, k, ok))
  {
    var t := Settle(s, k, ok);
    SettleKeeps(s, k, ok);
    if !t.disposed && t.pending.Some? && !t.timer {
      StartRunKeeps(t);
      assert t.(timer := false) == t;
    } else {
      assert t.(timer := t.pending.Some?) == t;
    }
  }

  lemma StepKeeps(s: State, e: Event)
    requires Inv(s)
    ensures Inv(Step(s, e))
  {
    if Enabled(s, e) {
      match e {
        case TimerFires => if !s.running { StartRunKeeps(s); }
        case ScanSettles(k, ok) => EndRunKeeps(s, k, ok);
        case _ =>
      }
    }
  }

  lemma {:induction false} RunKeeps(s: State, events: seq<Event>)
    requires Inv(s)
    ensures Inv(Run(s, events))
    decreases |events|
  {
    if events == [] {
    } else {
      StepKeeps(s, events[0]);
      RunKeeps(Step(s, events[0]), events[1..]);
    }
  }

  // ---------------------------------------------------------------- what that says

  lemma ScansNeverOverlap(events: seq<Event>)
    ensures |Run(INIT, events).scans| <= 1
  {
    RunKeeps(INIT, events);
  }

  /** A change that waits is never forgotten: a timer is armed for it, or a running scan will look after it. */
  lemma PendingIsLookedAfter(events: seq<Event>)
    ensures var s := Run(INIT, events);
            s.pending.Some? ==> !s.disposed && (s.timer || |s.scans| == 1)
  {
    RunKeeps(INIT, events);
  }

  /** When nothing waits any more, the latest scan was started after the latest change. */
  lemma LatestScanSawEverything(events: seq<Event>)
    ensures var s := Run(INIT, events);
            !s.disposed && s.pending.None? ==> s.lastScan == s.scheduled
  {
    RunKeeps(INIT, events);
  }

  /** Publications go with their changes, in order and without repetition. */
  lemma PublishedInOrder(events: seq<Event>, i: nat, j: nat)
    requires i < j < |Run(INIT, events).published|
    ensures Run(INIT, events).published[i] < Run(INIT, events).published[j] < Run(INIT, events).scheduled
  {
    RunKeeps(INIT, events);
  }

  /** From dispose on nothing is published, although a scan may still be under way. */
  lemma NothingAfterDispose(events: seq<Event>)
    ensures var s := Run(INIT, events);
            s.disposed ==> s.publishedAtDispose == Some(|s.published|) && s.pending.None? && !s.timer
  {
    RunKeeps(INIT, events);
  }

  /** The steps that are left until all is quiet, if no more changes come. */
  function Backlog(s: State): nat {
    (if s.timer then 1 else 0) + |s.scans| + (if s.pending.Some? then 2 else 0)
  }

  /** Without new changes every timer and every scan that ends brings quiet nearer, and one of them is due until then. */
  lemma ComesToRest(s: State, e: Event)
    requires Inv(s) && !s.disposed && (e.TimerFires? || e.ScanSettles?) && Enabled(s, e)
    ensures Backlog(Step(s, e)) < Backlog(s) && !Step(s, e).disposed
    ensures Backlog(s) > 0 ==> Enabled(s, TimerFires) || Enabled(s, ScanSettles(0, true))
  {
  }

  // ---------------------------------------------------------------- the closure

  class ProjectUpdateScheduler {
    var timer: bool
    var pending: Option<nat>
    var running: bool
    var disposed: bool
    var scans: seq<nat>
    var scheduled: nat
    var lastScan: nat
    var published: seq<nat>
    var publishedAtDispose: Option<nat>

    function View(): State
      reads this
    {
      State(timer, pending, running, disposed, scans, scheduled, lastScan, published, publishedAtDispose)
    }

    constructor ()
      ensures View() == INIT
    {
      timer, pending, running, disposed, scans := false, None, false, false, [];
      scheduled, lastScan, published, publishedAtDispose := 0, 0, [], None;
    }

    /** `run` up to `await scan()`. */
    method BeginScan()
      modifies this`running, this`pending, this`scans, this`lastScan
      ensures View() == StartRun(old(View()))
    {
      if disposed || running || pending.None? { return; }
      var change := pending.value;
      pending := None;
      running := true;
      scans := scans + [change];
      lastScan := scheduled;
    }

    /** `run` from the end of `await scan()`. */
    method OnScanSettled(k: nat, ok: bool)
      requires k < |scans|
      modifies this
      ensures View() == Step(old(View()), ScanSettles(k, ok))
    {
      if ok && !disposed {
        published := published + [scans[k]];
      }
      scans := scans[..k] + scans[k + 1..];
      running := false;
      if !disposed && pending.Some? && !timer {
        BeginScan();
      }
    }

    method ScheduleChange()
      modifies this
      ensures View() == Step(old(View()), Schedule)
    {
      if disposed { return; }
      pending := Some(scheduled);
      scheduled := scheduled + 1;
      timer := true;
    }

    method OnTimer()
      requires timer
      modifies this
      ensures View() == Step(old(View()), TimerFires)
    {
      timer := false;
      BeginScan();
    }

    method DisposeScheduler()
      modifies this
      ensures View() == Step(old(View()), Dispose)
    {
      if !disposed {
        publishedAtDispose := Some(|published|);
      }
      disposed := true;
      pending := None;
      timer := false;
    }
  }

  // ---------------------------------------------------------------- what each call does

  /** A scan that succeeds publishes the change it was started for, unless the scheduler was disposed of meanwhile. */
  lemma ScanIsPublished(s: State, k: nat, ok: bool)
    requires k < |s.scans|
    ensures Step(s, ScanSettles(k, ok)).published == if ok && !s.disposed then s.published + [s.scans[k]] else s.published
  {
  }

  /** A change arms the timer; when that fires, a scan starts for the latest change, unless one is running. */
  lemma ChangeIsScanned(s: State)
    requires !s.disposed
    ensures var t := Step(s, Schedule); t.timer && t.pending == Some(s.scheduled) && t.scheduled == s.scheduled + 1
    ensures s.timer && s.pending.Some? && !s.running ==>
              var t := Step(s, TimerFires);
              !t.timer && t.running && t.scans == s.scans + [s.pending.value] && t.pending == None && t.lastScan == s.scheduled
    ensures s.timer && s.running ==> Step(s, TimerFires) == s.(timer := false)
  {
  }

  predicate Succeeding(events: seq<Event>) {
    forall i | 0 <= i < |events| :: events[i] != Dispose && (events[i].ScanSettles? ==> events[i].ok)
  }

  /** The running scan is for the latest change before it started, and so was the last one to be published. */
  predicate UpToDate(s: State) {
    var upToDate :=
      && !s.disposed
      && (s.running ==> |s.scans| == 1 && s.scans[0] + 1 == s.lastScan)
      && (!s.running && s.lastScan > 0 ==> s.published != [] && s.published[|s.published| - 1] + 1 == s.lastScan);
    upToDate
  }

  lemma StepUpToDate(s: State, e: Event)
    requires Inv(s) && UpToDate(s) && e != Dispose && (e.ScanSettles? ==> e.ok)
    ensures UpToDate(Step(s, e))
  {
  }

  lemma {:induction false} RunUpToDate(s: State, events: seq<Event>)
    requires Inv(s) && UpToDate(s) && Succeeding(events)
    ensures Inv(Run(s, events)) && UpToDate(Run(s, events))
    decreases |events|
  {
    if events == [] {
    } else {
      StepKeeps(s, events[0]);
      StepUpToDate(s, events[0]);
      RunUpToDate(Step(s, events[0]), events[1..]);
    }
  }

  /** When all is quiet after scans that succeeded, the last publication is of the last change. */
  lemma LastChangeIsPublished(events: seq<Event>)
    requires Succeeding(events) && Run(INIT, events).scheduled > 0
    requires Run(INIT, events).pending.None? && !Run(INIT, events).running
    ensures var s := Run(INIT, events); s.published != [] && s.published[|s.published| - 1] == s.scheduled - 1
  {
    RunUpToDate(INIT, events);
  }
}
