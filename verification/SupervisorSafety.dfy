/** What the supervisor keeps through every interleaving of messages, exits, timers and signals. */
module SupervisorSafety {
  import opened Prelude
  import opened Supervisor

  /** `c` is a later version of the process: what took it out of the way is not forgotten. */
  predicate Later(was: Proc, c: Proc) {
    && c.kind == was.kind && (was.exitCode ==> c.exitCode) && (was.closed ==> c.closed) && (was.failed ==> c.failed)
  }

  lemma InitHolds(dev: bool)
    ensures Inv(Init(dev))
  {
  }

  lemma SetProcKeeps(s: State, p: nat, c: Proc)
    requires Inv(s) && p < |s.procs| && Later(s.procs[p], c)
    requires c.kind.Gateway? ==> Published(c, Current(s, Gateway, p))
    ensures Inv(SetProc(s, p, c))
  {
    var t := SetProc(s, p, c);
    forall kind ensures Sane(t, kind) { assert Sane(s, kind); }
    forall q: nat ensures Gone(s, q) ==> Gone(t, q) {}
    forall op | 0 <= op < |t.stops| ensures StopKnown(t, op) { assert StopKnown(s, op); }
    forall q: nat ensures Accounted(t, q) { assert Accounted(s, q) && (BeingStopped(s, q) ==> BeingStopped(t, q)); }
    forall q: nat ensures Reported(t, q) { assert Reported(s, q); }
  }

  /** The gateway leaves the table because it has closed or could not be spawned. */
  lemma GatewayLeaves(s: State, p: nat, c: Proc)
    requires Inv(s) && p < |s.procs| && Current(s, Gateway, p) && Later(s.procs[p], c)
    requires (c.closed || c.failed) && Published(c, false)
    ensures Inv(SetProc(s, p, c).(children := s.children - {Gateway}))
  {
    var t := SetProc(s, p, c).(children := s.children - {Gateway});
    assert Sane(s, Gateway);
    forall kind ensures Sane(t, kind) { assert Sane(s, kind); }
    forall q: nat ensures Gone(s, q) ==> Gone(t, q) {}
    forall op | 0 <= op < |t.stops| ensures StopKnown(t, op) { assert StopKnown(s, op); }
    forall q: nat ensures Accounted(t, q) { assert Accounted(s, q) && (BeingStopped(s, q) ==> BeingStopped(t, q)); }
    forall q: nat ensures Reported(t, q) { assert Reported(s, q); }
  }

  /** A stop of the gateway, with whatever was published on the way. */
  lemma StopGatewayKeeps(s: State, p: nat, c: Proc)
    requires Inv(s) && p < |s.procs| && Current(s, Gateway, p) && Later(s.procs[p], c) && Published(c, false)
    ensures Inv(StopGateway(SetProc(s, p, c)))
  {
    var t := StopGateway(SetProc(s, p, c));
    var n := |s.stops|;
    assert Sane(s, Gateway) && t.stops == s.stops + [t.stops[n]] && t.stops[n].child == p;
    forall kind ensures Sane(t, kind) { assert Sane(s, kind); }
    forall q: nat ensures Gone(s, q) ==> Gone(t, q) { StopsKept(s, t, q); }
    forall op | 0 <= op < |t.stops| ensures StopKnown(t, op) { if op < n { assert StopKnown(s, op); } }
    assert t.stops[n].phase.Done? || BeingStopped(t, p);
    forall q: nat ensures Accounted(t, q) {
      assert Accounted(s, q);
      StopsKept(s, t, q);
    }
    forall q: nat ensures Reported(t, q) { assert Reported(s, q); }
  }

  /** Adding stops to the end, and keeping who waits for the others, loses no ground to stand on. */
  lemma StopsKept(s: State, t: State, q: nat)
    requires s.stops <= t.stops && |t.procs| == |s.procs|
    requires forall p | 0 <= p < |s.procs| :: Later(s.procs[p], t.procs[p])
    requires forall op: nat | op < |s.stops| && Awaited(s, op) :: Awaited(t, op)
    ensures Gone(s, q) ==> Gone(t, q)
    ensures BeingStopped(s, q) ==> BeingStopped(t, q)
  {
    if BeingStopped(s, q) {
      var op :| 0 <= op < |s.stops| && s.stops[op].child == q && !Settled(s.stops[op].phase) && Awaited(s, op);
      assert t.stops[op] == s.stops[op] && Awaited(t, op);
    }
    if exists op | 0 <= op < |s.stops| :: s.stops[op] == StopOp(q, Exhausted) {
      var op :| 0 <= op < |s.stops| && s.stops[op] == StopOp(q, Exhausted);
      assert t.stops[op] == s.stops[op];
    }
  }

  /** A stop as `stopChild` creates it. */
  predicate FreshStop(procs: seq<Proc>, op: StopOp) {
    op.child < |procs| && op.phase == if procs[op.child].exitCode then Done else Terminating
  }

  lemma OneStop(s: State, kind: Kind)
    requires forall k :: Sane(s, k)
    ensures var t := StopChild(s, kind);
            && t == s.(children := s.children - {kind}, stops := t.stops) && s.stops <= t.stops
            && (kind in s.children ==> |t.stops| == |s.stops| + 1 && t.stops[|s.stops|].child == s.children[kind])
            && (forall op | |s.stops| <= op < |t.stops| :: FreshStop(s.procs, t.stops[op]))
            && (forall k :: Sane(t, k))
  {
    var t := StopChild(s, kind);
    assert Sane(s, kind);
    forall k ensures Sane(t, k) { assert Sane(s, k); }
    if kind !in s.children { assert s.children - {kind} == s.children; }
  }

  /** What `stopAll` leaves: no children, and a stop for the gateway if there was one. */
  lemma Everything(s: State)
    requires forall k :: Sane(s, k)
    ensures var t := StopEverything(s);
            && t == s.(children := map[], stops := t.stops) && s.stops <= t.stops
            && (Gateway in s.children ==> |s.stops| < |t.stops| && t.stops[|s.stops|].child == s.children[Gateway])
            && (forall op | |s.stops| <= op < |t.stops| :: FreshStop(s.procs, t.stops[op]))
  {
    var a := StopChild(s, Gateway);
    var b := StopChild(a, Client);
    var c := StopChild(b, Server);
    OneStop(s, Gateway);
    OneStop(a, Client);
    OneStop(b, Server);
    NoKindLeft(s.children);
    if Gateway in s.children { assert a.stops[|s.stops|] == c.stops[|s.stops|]; }
    forall op | |s.stops| <= op < |c.stops| ensures FreshStop(s.procs, c.stops[op]) {
      if op < |a.stops| {
        assert c.stops[op] == a.stops[op];
      } else if op < |b.stops| {
        assert c.stops[op] == b.stops[op];
      }
    }
  }

  lemma NoKindLeft(children: map<Kind, nat>)
    ensures children - {Gateway} - {Client} - {Server} == map[]
  {
    var rest := children - {Gateway} - {Client} - {Server};
    if rest != map[] {
      var kind :| kind in rest;
      match kind {
        case Server =>
        case Client =>
        case Gateway =>
      }
    }
  }

  lemma StopAllKeeps(s: State, next: Continuation, handling: bool, signal: Option<Signal>)
    requires Inv(s) && !s.stopping && (next.AfterSignal? ==> !handling && signal.Some?)
    ensures Inv(StopAll(s, next).(handlingCriticalExit := handling, shutdownSignal := signal))
  {
    var t := StopAll(s, next).(handlingCriticalExit := handling, shutdownSignal := signal);
    var n := |s.stops|;
    Everything(s);
    forall q: nat ensures (Gone(s, q) ==> Gone(t, q)) && (BeingStopped(s, q) ==> BeingStopped(t, q)) { StopsKept(s, t, q); }
    forall op | 0 <= op < |t.stops| ensures StopKnown(t, op) {
      if op < n { assert StopKnown(s, op) && t.stops[op] == s.stops[op]; }
    }
    if Gateway in s.children {
      assert Sane(s, Gateway) && t.stops[n].child == s.children[Gateway] && Awaited(t, n);
    }
    forall q: nat ensures Accounted(t, q) { assert Accounted(s, q); }
    forall q: nat ensures Reported(t, q) { assert Reported(s, q); }
  }

  // ---------------------------------------------------------------- the shutdown sequence

  lemma CriticalExitKeeps(s: State, code: Option<int>, signaled: bool)
    requires Inv(s) && (s.stopping ==> s.handlingCriticalExit)
    ensures Inv(CriticalExit(s, code, signaled))
  {
    if !s.handlingCriticalExit {
      StopAllKeeps(s, AfterCriticalExit(code, signaled), true, s.shutdownSignal);
    }
  }

  lemma InterruptKeeps(s: State, signal: Signal)
    requires Inv(s)
    ensures Inv(Interrupt(s, signal))
  {
    if s.stopping {
      FlagsKeep(s, s.(shutdownSignal := Some(signal)));
    } else {
      StopAllKeeps(s, AfterSignal(signal), false, Some(signal));
    }
  }

  /** When everything that was waited for has ended, every gateway so far is out of the way. */
  lemma NothingRunning(s: State, p: nat)
    requires Inv(s) && p < |s.procs| && s.procs[p].kind.Gateway? && !Current(s, Gateway, p)
    requires s.gatewayStop.None? && (s.pending.Some? ==> Complete(s, s.pending.value))
    ensures Gone(s, p)
  {
    assert Accounted(s, p);
  }

  lemma StoppedCompletely(s: State)
    requires Inv(s) && s.pending.Some? && Complete(s, s.pending.value)
    ensures s.gatewayStop.None? && s.children == map[]
    ensures forall p: nat | p < |s.procs| && s.procs[p].kind.Gateway? :: Gone(s, p)
  {
    forall p: nat | p < |s.procs| && s.procs[p].kind.Gateway? ensures Gone(s, p) { NothingRunning(s, p); }
  }

  lemma ExitKeeps(s: State, code: int)
    requires Inv(s) && s.pending.Some? && Complete(s, s.pending.value)
    ensures Inv(Exit(s, code))
  {
    var t := Exit(s, code);
    StoppedCompletely(s);
    forall kind ensures Sane(t, kind) { assert Sane(s, kind); }
    forall op | 0 <= op < |t.stops| ensures StopKnown(t, op) { assert StopKnown(s, op); }
    forall q: nat ensures Accounted(t, q) { assert Gone(s, q) ==> Gone(t, q); }
    forall q: nat ensures Reported(t, q) { assert Reported(s, q); }
  }

  lemma RelaunchKeeps(s: State)
    requires Inv(s) && s.pending.Some? && Complete(s, s.pending.value) && s.shutdownSignal.None?
    ensures Inv(Relaunch(s))
  {
    var t := Relaunch(s);
    StoppedCompletely(s);
    forall kind ensures Sane(t, kind) { assert Sane(s, kind); }
    forall op | 0 <= op < |t.stops| ensures StopKnown(t, op) {
      assert StopKnown(s, op);
      assert Gone(s, s.stops[op].child) ==> Gone(t, s.stops[op].child);
    }
    forall q: nat ensures Accounted(t, q) { assert Gone(s, q) ==> Gone(t, q); }
    forall q: nat ensures Reported(t, q) { assert Reported(s, q); }
  }

  lemma ContinueKeeps(s: State, requested: bool, consumed: bool)
    requires Inv(s) && s.pending.Some? && Complete(s, s.pending.value)
    ensures Inv(Continue(s, s.pending.value.next, requested, consumed))
  {
    match s.pending.value.next {
      case AfterSignal(signal) => ExitKeeps(s, ExitCode(signal));
      case AfterCriticalExit(code, signaled) =>
        if s.shutdownSignal.Some? {
          ExitKeeps(s, ExitCode(s.shutdownSignal.value));
        } else if requested {
          if consumed { RelaunchKeeps(s); } else { ExitKeeps(s, 1); }
        } else {
          ExitKeeps(s, code.GetOr(if signaled then 1 else 0));
        }
    }
  }

  // ---------------------------------------------------------------- starting the gateway

  lemma SpawnKeeps(s: State, kind: Kind)
    requires Inv(s) && !s.stopping && kind !in s.children && (kind.Gateway? ==> s.gatewayStop.None?)
    ensures Inv(Spawn(s, kind))
  {
    var t := Spawn(s, kind);
    assert t.procs[|s.procs|] == NewProc(kind);
    forall k ensures Sane(t, k) { assert Sane(s, k); }
    forall q: nat | q < |s.procs| ensures (Gone(s, q) ==> Gone(t, q)) && (BeingStopped(s, q) ==> BeingStopped(t, q)) {}
    forall op | 0 <= op < |t.stops| ensures StopKnown(t, op) { assert StopKnown(s, op); }
    forall q: nat ensures Accounted(t, q) { assert Accounted(s, q); }
    forall q: nat ensures Reported(t, q) { assert Reported(s, q); }
  }

  /** Changes of the order book alone: the configuration, the waiting starts, the restart flags. */
  lemma FlagsKeep(s: State, t: State)
    requires Inv(s)
    requires t == s.(ready := t.ready, waiting := t.waiting, resumes := t.resumes, shutdownSignal := t.shutdownSignal)
    requires t.shutdownSignal == s.shutdownSignal || (s.stopping && t.shutdownSignal.Some?)
    ensures Inv(t)
  {
    forall k ensures Sane(t, k) { assert Sane(s, k); }
    forall op | 0 <= op < |t.stops| ensures StopKnown(t, op) { assert StopKnown(s, op) && (Gone(s, s.stops[op].child) ==> Gone(t, s.stops[op].child)); }
    forall q: nat ensures Accounted(t, q) { assert Accounted(s, q) && (Gone(s, q) ==> Gone(t, q)) && (BeingStopped(s, q) ==> BeingStopped(t, q)); }
    forall q: nat ensures Reported(t, q) { assert Reported(s, q); }
  }

  lemma StartGatewayKeeps(s: State)
    requires Inv(s)
    ensures Inv(StartGateway(s))
  {
    if s.ready && Gateway !in s.children && !s.stopping {
      if s.gatewayStop.Some? {
        FlagsKeep(s, s.(waiting := s.waiting + 1));
      } else {
        SpawnKeeps(s, Gateway);
      }
    }
  }

  lemma ReconfigureKeeps(s: State, ready: bool)
    requires Inv(s)
    ensures Inv(Reconfigure(s, ready))
  {
    var t := s.(ready := ready);
    FlagsKeep(s, t);
    if ready {
      StartGatewayKeeps(t);
    } else if Gateway in t.children {
      assert Sane(t, Gateway);
      var p := t.children[Gateway];
      assert Reported(t, p) && SetProc(t, p, t.procs[p]) == t;
      StopGatewayKeeps(t, p, t.procs[p]);
    }
  }

  lemma PublishReadyKeeps(s: State, p: nat)
    requires Inv(s) && p < |s.procs| && s.procs[p].kind.Gateway?
    ensures Inv(PublishReady(s, p))
  {
    var c := P(s, p);
    assert Reported(s, p);
    if c.portReady && c.processReady && !c.readinessPublished && !c.reportedFailure && Current(s, Gateway, p) {
      SetProcKeeps(s, p, c.(readinessPublished := true, sent := c.sent + [Ready]));
    }
  }

  lemma ReadinessKeeps(s: State, p: nat, port: bool, process: bool)
    requires Inv(s) && p < |s.procs| && s.procs[p].kind.Gateway?
    requires (s.procs[p].portReady ==> port) && (s.procs[p].processReady ==> process)
    ensures Inv(PublishReady(SetProc(s, p, P(s, p).(portReady := port, processReady := process)), p))
  {
    assert Reported(s, p);
    var c := P(s, p).(portReady := port, processReady := process);
    SetProcKeeps(s, p, c);
    PublishReadyKeeps(SetProc(s, p, c), p);
  }

  lemma FailReadinessKeeps(s: State, p: nat)
    requires Inv(s) && p < |s.procs| && s.procs[p].kind.Gateway?
    ensures Inv(FailReadiness(s, p))
  {
    if Current(s, Gateway, p) && !P(s, p).reportedFailure && !P(s, p).readinessPublished {
      assert Reported(s, p);
      StopGatewayKeeps(s, p, P(s, p).(reportedFailure := true, sent := P(s, p).sent + [Errored]));
    }
  }

  // ---------------------------------------------------------------- the ends of processes

  lemma FailKeeps(s: State, p: nat)
    requires Inv(s) && p < |s.procs|
    ensures Inv(Fail(s, p))
  {
    assert Reported(s, p);
    SetProcKeeps(s, p, P(s, p).(failed := true));
  }

  lemma ErrorsKeeps(s: State, p: nat)
    requires Inv(s) && p < |s.procs|
    ensures Inv(Errors(s, p))
  {
    assert Reported(s, p);
    if P(s, p).kind.Gateway? {
      if Current(s, Gateway, p) {
        var c := P(s, p).(failed := true, reportedFailure := true, sent := P(s, p).sent + [Errored]);
        assert Fail(Report(s, p), p) == SetProc(s, p, c);
        GatewayLeaves(s, p, c);
      }
    } else {
      FailKeeps(s, p);
      if Current(s, P(s, p).kind, p) { CriticalExitKeeps(Fail(s, p), Some(1), false); }
    }
  }

  lemma CloseKeeps(s: State, p: nat)
    requires Inv(s) && p < |s.procs|
    ensures Inv(Close(s, p))
  {
    assert Reported(s, p);
    var c := P(s, p).(closed := true);
    SetProcKeeps(s, p, c);
    var t := SetProc(s, p, c);
    var u := Close(s, p);
    assert Gone(u, p);
    forall q: nat ensures Gone(t, q) ==> Gone(u, q) {
      if exists op | 0 <= op < |t.stops| :: t.stops[op] == StopOp(q, Exhausted) {
        var op :| 0 <= op < |t.stops| && t.stops[op] == StopOp(q, Exhausted);
        assert u.stops[op] == t.stops[op];
      }
    }
    forall q: nat ensures BeingStopped(t, q) ==> BeingStopped(u, q) || q == p {
      if BeingStopped(t, q) && q != p {
        var op :| 0 <= op < |t.stops| && t.stops[op].child == q && !Settled(t.stops[op].phase) && Awaited(t, op);
        assert u.stops[op] == t.stops[op] && Awaited(u, op);
      }
    }
    forall k ensures Sane(u, k) { assert Sane(t, k); }
    forall op | 0 <= op < |u.stops| ensures StopKnown(u, op) { assert StopKnown(t, op); }
    forall q: nat ensures Accounted(u, q) { assert Accounted(t, q); }
    forall q: nat ensures Reported(u, q) { assert Reported(t, q); }
  }

  lemma GatewayClosesKeeps(s: State, p: nat)
    requires Inv(s) && p < |s.procs| && s.procs[p].kind.Gateway? && s.procs[p].closed
    ensures Inv(GatewayCloses(s, p))
  {
    assert Reported(s, p);
    if Current(s, Gateway, p) {
      GatewayLeaves(s, p, P(s, p).(sent := P(s, p).sent + [Errored]));
    }
  }

  lemma CriticalLeaves(s: State, kind: Kind)
    requires Inv(s) && !kind.Gateway?
    ensures Inv(s.(children := s.children - {kind}))
  {
    var t := s.(children := s.children - {kind});
    forall k ensures Sane(t, k) { assert Sane(s, k); }
    forall op | 0 <= op < |t.stops| ensures StopKnown(t, op) { assert StopKnown(s, op) && (Gone(s, s.stops[op].child) ==> Gone(t, s.stops[op].child)); }
    forall q: nat ensures Accounted(t, q) { assert Accounted(s, q) && (Gone(s, q) ==> Gone(t, q)) && (BeingStopped(s, q) ==> BeingStopped(t, q)); }
    forall q: nat ensures Reported(t, q) { assert Reported(s, q); }
  }

  lemma ClosesKeeps(s: State, p: nat, code: Option<int>, signaled: bool)
    requires Inv(s) && p < |s.procs|
    ensures Inv(Closes(s, p, code, signaled))
  {
    CloseKeeps(s, p);
    var t := Close(s, p);
    if P(s, p).kind.Gateway? {
      GatewayClosesKeeps(t, p);
    } else {
      CriticalLeaves(t, P(s, p).kind);
      if !t.stopping { CriticalExitKeeps(t.(children := t.children - {P(s, p).kind}), code, signaled); }
    }
  }

  // ---------------------------------------------------------------- timers

  lemma TimerKeeps(s: State, op: nat, phase: Phase)
    requires Inv(s) && op < |s.stops| && !Settled(s.stops[op].phase) && (phase.Killing? || phase.Exhausted?)
    ensures Inv(SetStop(s, op, phase))
  {
    var t := SetStop(s, op, phase);
    forall q: nat ensures Gone(s, q) ==> Gone(t, q) {
      if exists o | 0 <= o < |s.stops| :: s.stops[o] == StopOp(q, Exhausted) {
        var o :| 0 <= o < |s.stops| && s.stops[o] == StopOp(q, Exhausted);
        assert t.stops[o] == s.stops[o];
      }
    }
    forall q: nat ensures BeingStopped(s, q) ==> BeingStopped(t, q) || Gone(t, q) {
      if BeingStopped(s, q) {
        var o :| 0 <= o < |s.stops| && s.stops[o].child == q && !Settled(s.stops[o].phase) && Awaited(s, o);
        assert Awaited(t, o) && t.stops[o].child == q;
      }
    }
    forall k ensures Sane(t, k) { assert Sane(s, k); }
    forall o | 0 <= o < |t.stops| ensures StopKnown(t, o) { assert StopKnown(s, o); }
    forall q: nat ensures Accounted(t, q) { assert Accounted(s, q); }
    forall q: nat ensures Reported(t, q) { assert Reported(s, q); }
  }

  lemma GatewayStoppedKeeps(s: State)
    requires Inv(s) && Enabled(s, GatewayStopped)
    ensures Inv(Step(s, GatewayStopped))
  {
    var t := s.(gatewayStop := None);
    forall q: nat ensures BeingStopped(s, q) ==> BeingStopped(t, q) {
      if BeingStopped(s, q) {
        var o :| 0 <= o < |s.stops| && s.stops[o].child == q && !Settled(s.stops[o].phase) && Awaited(s, o);
        assert Awaited(t, o) && t.stops[o].child == q;
      }
    }
    forall q: nat ensures Gone(s, q) ==> Gone(t, q) {}
    forall k ensures Sane(t, k) { assert Sane(s, k); }
    forall o | 0 <= o < |t.stops| ensures StopKnown(t, o) { assert StopKnown(s, o); }
    forall q: nat ensures Accounted(t, q) { assert Accounted(s, q); }
    forall q: nat ensures Reported(t, q) { assert Reported(s, q); }
    FlagsKeep(t, Step(s, GatewayStopped));
  }

  // ---------------------------------------------------------------- steps and runs

  lemma OrderKeeps(s: State, e: Event)
    requires Inv(s) && Enabled(s, e) && (e.ServerListening? || e.Configure? || e.RetryGateway? || e.ResumeStart?)
    ensures Inv(Step(s, e))
  {
    match e {
      case ServerListening(validPort) => if s.dev && Client !in s.children && !s.stopping { SpawnKeeps(s, Client); }
      case Configure(ready) => ReconfigureKeeps(s, ready);
      case RetryGateway => StartGatewayKeeps(s);
      case ResumeStart =>
        FlagsKeep(s, s.(resumes := s.resumes - 1));
        StartGatewayKeeps(s.(resumes := s.resumes - 1));
    }
  }

  lemma ReadyKeeps(s: State, e: Event)
    requires Inv(s) && Enabled(s, e) && (e.GatewayMessage? || e.PortOpens? || e.ReadinessFails?)
    ensures Inv(Step(s, e))
  {
    match e {
      case GatewayMessage(p, expected) => ReadinessKeeps(s, p, P(s, p).portReady, true);
      case PortOpens(p) => ReadinessKeeps(s, p, true, P(s, p).processReady);
      case ReadinessFails(p) => FailReadinessKeeps(s, p);
    }
  }

  lemma EndKeeps(s: State, e: Event)
    requires Inv(s) && Enabled(s, e) && (e.ProcErrors? || e.ProcExits? || e.ProcCloses?)
    ensures Inv(Step(s, e))
  {
    match e {
      case ProcErrors(p) => ErrorsKeeps(s, p);
      case ProcExits(p) =>
        assert Reported(s, p);
        SetProcKeeps(s, p, P(s, p).(exitCode := true));
      case ProcCloses(p, code, signaled) => ClosesKeeps(s, p, code, signaled);
    }
  }

  lemma StepKeeps(s: State, e: Event)
    requires Inv(s)
    ensures Inv(Step(s, e))
  {
    if Enabled(s, e) {
      if e.ServerListening? || e.Configure? || e.RetryGateway? || e.ResumeStart? {
        OrderKeeps(s, e);
      } else if e.GatewayMessage? || e.PortOpens? || e.ReadinessFails? {
        ReadyKeeps(s, e);
      } else if e.ProcErrors? || e.ProcExits? || e.ProcCloses? {
        EndKeeps(s, e);
      } else if e.KillTimer? {
        TimerKeeps(s, e.op, Killing);
      } else if e.ForceTimer? {
        TimerKeeps(s, e.op, Exhausted);
      } else if e.GatewayStopped? {
        GatewayStoppedKeeps(s);
      } else if e.AllStopped? {
        ContinueKeeps(s, e.requested, e.consumed);
      } else {
        InterruptKeeps(s, e.signal);
      }
    }
  }

  lemma {:induction false} RunKeeps(s: State, events: seq<Event>)
    requires Inv(s)
    ensures Inv(Run(s, events))
    decreases |events|
  {
    if events == [] {
    } else {
      StepKeeps(s, events[0]);
      RunKeeps(Step(s, events[0]), events[1..]);
    }
  }

  // ---------------------------------------------------------------- what it is for

  lemma SpawnedByStart(s: State)
    requires Inv(s) && |StartGateway(s).procs| > |s.procs|
    ensures forall p: nat | p < |s.procs| && s.procs[p].kind.Gateway? :: Gone(s, p)
  {
    forall p: nat | p < |s.procs| && s.procs[p].kind.Gateway? ensures Gone(s, p) { NothingRunning(s, p); }
  }

  /**
   A gateway is spawned only when every gateway before it has exited or closed, could not be
   spawned, or has outlived the grace period after being killed.
   */
  lemma GatewaysDoNotOverlap(dev: bool, events: seq<Event>, e: Event)
    requires var s := Run(Init(dev), events);
             |Step(s, e).procs| > |s.procs| && Step(s, e).procs[|s.procs|].kind.Gateway?
    ensures var s := Run(Init(dev), events);
            forall p: nat | p < |s.procs| && s.procs[p].kind.Gateway? :: Gone(s, p)
  {
    InitHolds(dev);
    RunKeeps(Init(dev), events);
    var s := Run(Init(dev), events);
    match e {
      case Configure(ready) =>
        FlagsKeep(s, s.(ready := ready));
        if ready { SpawnedByStart(s.(ready := true)); }
        assert forall p: nat :: Gone(s.(ready := true), p) ==> Gone(s, p);
      case RetryGateway => SpawnedByStart(s);
      case ResumeStart =>
        var t := s.(resumes := s.resumes - 1);
        FlagsKeep(s, t);
        SpawnedByStart(t);
        assert forall p: nat :: Gone(t, p) ==> Gone(s, p);
      case _ => OnlyStartsSpawn(s, e);
    }
  }

  lemma OnlyStartsSpawn(s: State, e: Event)
    requires Inv(s) && !e.Configure? && !e.RetryGateway? && !e.ResumeStart?
    ensures var t := Step(s, e);
            |t.procs| == |s.procs| || (|t.procs| == |s.procs| + 1 && !t.procs[|s.procs|].kind.Gateway?)
  {
    match e {
      case ProcErrors(p) => ErrorsDoNotSpawn(s, p);
      case ProcCloses(p, code, signaled) => ClosesDoNotSpawn(s, p, code, signaled);
      case SignalArrives(signal) => SameProcs(s);
      case ReadinessFails(p) => SameProcs(Report(s, p));
      case _ =>
    }
  }

  lemma ErrorsDoNotSpawn(s: State, p: nat)
    ensures |Errors(s, p).procs| == |s.procs|
  {
    SameProcs(Fail(s, p));
  }

  lemma ClosesDoNotSpawn(s: State, p: nat, code: Option<int>, signaled: bool)
    ensures |Closes(s, p, code, signaled).procs| == |s.procs|
  {
    SameProcs(Close(s, p).(children := Close(s, p).children - {P(s, p).kind}));
  }

  lemma SameProcs(s: State)
    ensures StopEverything(s).procs == s.procs && StopGateway(s).procs == s.procs
  {
  }

  /** A signal is final: from then on nothing is spawned, so a restart under way is not completed. */
  lemma {:induction false} SignalPreventsRelaunch(s: State, events: seq<Event>)
    requires Inv(s) && s.shutdownSignal.Some?
    ensures |Run(s, events).procs| == |s.procs|
    decreases |events|
  {
    if events == [] {
    } else {
      QuietAfterSignal(s, events[0]);
      StepKeeps(s, events[0]);
      SignalPreventsRelaunch(Step(s, events[0]), events[1..]);
    }
  }

  lemma QuietAfterSignal(s: State, e: Event)
    requires Inv(s) && s.shutdownSignal.Some?
    ensures |Step(s, e).procs| == |s.procs| && Step(s, e).shutdownSignal.Some?
  {
    if e.ProcErrors? || e.ProcCloses? || e.ProcExits? {
      QuietEnds(s, e);
    } else {
      QuietOtherwise(s, e);
    }
  }

  /** Nothing but the process itself, and the stops that wait for it, changes. */
  predicate SameShutdown(s: State, t: State) {
    |t.procs| == |s.procs| && t.exits == s.exits && t.pending == s.pending && t.shutdownSignal == s.shutdownSignal
  }

  lemma ErrorsWhileStopping(s: State, p: nat)
    requires s.children == map[] && p < |s.procs|
    ensures SameShutdown(s, Errors(s, p))
  {
  }

  lemma ClosesWhileStopping(s: State, p: nat, code: Option<int>, signaled: bool)
    requires s.children == map[] && p < |s.procs|
    ensures SameShutdown(s, Closes(s, p, code, signaled))
  {
    assert Close(s, p).children == map[];
  }

  /** Once everything is being stopped, the end of a process has no consequence. */
  lemma QuietEnds(s: State, e: Event)
    requires s.children == map[] && (e.ProcErrors? || e.ProcCloses? || e.ProcExits?)
    ensures SameShutdown(s, Step(s, e))
  {
    if Enabled(s, e) {
      match e {
        case ProcErrors(p) => ErrorsWhileStopping(s, p);
        case ProcCloses(p, code, signaled) => ClosesWhileStopping(s, p, code, signaled);
        case ProcExits(p) =>
      }
    }
  }

  lemma QuietOtherwise(s: State, e: Event)
    requires Inv(s) && s.shutdownSignal.Some? && !(e.ProcErrors? || e.ProcCloses? || e.ProcExits?)
    ensures |Step(s, e).procs| == |s.procs| && Step(s, e).shutdownSignal.Some?
  {
  }

  /** The exit function is called once at most. */
  lemma ExitsOnce(dev: bool, events: seq<Event>)
    ensures |Run(Init(dev), events).exits| <= 1
  {
    InitHolds(dev);
    RunKeeps(Init(dev), events);
  }

  /** The stop under way ends, or has ended, with the exit code of `signal`. */
  predicate EndsWith(s: State, signal: Signal) {
    s.shutdownSignal.Some?
    && (s.exits == [ExitCode(signal)]
        || (s.exits == [] && s.pending.Some?
            && (s.pending.value.next == AfterSignal(signal)
                || (s.pending.value.next.AfterCriticalExit? && s.shutdownSignal == Some(signal)))))
  }

  /** A later signal matters only while a critical exit is being handled. */
  predicate Consistent(s: State, e: Event, signal: Signal) {
    e.SignalArrives? && s.pending.Some? && s.pending.value.next.AfterCriticalExit? ==> e.signal == signal
  }

  lemma StepEndsWith(s: State, e: Event, signal: Signal)
    requires Inv(s) && EndsWith(s, signal) && Consistent(s, e, signal)
    ensures EndsWith(Step(s, e), signal)
    ensures s.pending.Some? && Step(s, e).pending.Some? ==> Step(s, e).pending == s.pending
    ensures s.pending.None? ==> Step(s, e).pending.None?
  {
    if e.ProcErrors? || e.ProcCloses? || e.ProcExits? {
      QuietEnds(s, e);
    } else {
      OthersEndWith(s, e, signal);
    }
  }

  lemma OthersEndWith(s: State, e: Event, signal: Signal)
    requires Inv(s) && EndsWith(s, signal) && Consistent(s, e, signal)
    requires !(e.ProcErrors? || e.ProcCloses? || e.ProcExits?)
    ensures EndsWith(Step(s, e), signal)
    ensures s.pending.Some? && Step(s, e).pending.Some? ==> Step(s, e).pending == s.pending
    ensures s.pending.None? ==> Step(s, e).pending.None?
  {
  }

  /**
   After a signal the program exits with the code of that signal and with no other: of the
   first one, if a signal began the stop, and otherwise of one that came while a critical
   exit was being handled.
   */
  lemma {:induction false} SignalDecidesExitCode(s: State, events: seq<Event>, signal: Signal)
    requires Inv(s) && EndsWith(s, signal)
    requires s.pending.Some? && s.pending.value.next.AfterCriticalExit? ==>
               forall e <- events :: e.SignalArrives? ==> e.signal == signal
    ensures Run(s, events).exits == [] || Run(s, events).exits == [if signal.SigInt? then 0 else 1]
    decreases |events|
  {
    if events == [] {
    } else {
      assert events[0] in events;
      StepEndsWith(s, events[0], signal);
      StepKeeps(s, events[0]);
      SignalDecidesExitCode(Step(s, events[0]), events[1..], signal);
    }
  }

  /** What is published for one gateway, in any run. */
  lemma PublishedStates(dev: bool, events: seq<Event>, p: nat)
    requires p < |Run(Init(dev), events).procs| && Run(Init(dev), events).procs[p].kind.Gateway?
    ensures var c := Run(Init(dev), events).procs[p];
            && GoodSequence(c.sent)
            && (Ready in c.sent ==> c.portReady && c.processReady)
            && (Errored in c.sent ==> !Current(Run(Init(dev), events), Gateway, p))
  {
    InitHolds(dev);
    RunKeeps(Init(dev), events);
    assert Reported(Run(Init(dev), events), p);
  }
}
