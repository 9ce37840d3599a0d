/**
 The web runtime supervisor (`ui/server/webRuntimeSupervisor.js`): a server process, in
 development mode a client process, and a gateway process that is started and stopped on the
 server's orders.  Every callback, timer and promise continuation is one step.
 */
module Supervisor {
  import opened Prelude

  datatype Kind = Server | Client | Gateway

  datatype GatewayState = Starting | Ready | Errored

  /** A child process and the closure variables its callbacks share. */
  datatype Proc = Proc(
    kind: Kind,
    exitCode: bool,              // child.exitCode != null
    closed: bool,                // 'close' has been emitted
    failed: bool,                // 'error' was emitted while the supervisor still counted on the child
    reportedFailure: bool, portReady: bool, processReady: bool, readinessPublished: bool,
    sent: seq<GatewayState>)     // the states published for this gateway

  /** Done: the child closed, or had exited before; Exhausted: neither happened within the grace period. */
  datatype Phase = Terminating | Killing | Done | Exhausted

  datatype StopOp = StopOp(child: nat, phase: Phase)

  datatype Signal = SigInt | SigTerm

  datatype Continuation = AfterCriticalExit(code: Option<int>, signaled: bool) | AfterSignal(signal: Signal)

  /** `await stopAll()`: it waits for the stops from `first` up to `end` and for a stop of the gateway under way. */
  datatype Pending = Pending(first: nat, end: nat, gatewayStop: Option<nat>, next: Continuation)

  datatype State = State(
    dev: bool,
    procs: seq<Proc>,
    children: map<Kind, nat>,
    ready: bool,                       // configuration?.state === 'ready'
    stopping: bool,
    handlingCriticalExit: bool,
    gatewayStop: Option<nat>,          // gatewayStopPromise, by the stop it waits for
    waiting: nat,                      // calls of startGateway that wait for gatewayStopPromise
    resumes: nat,                      // ... and are about to run again
    shutdownSignal: Option<Signal>,
    stops: seq<StopOp>,
    pending: Option<Pending>,
    exits: seq<int>)

  datatype Event =
    | ServerListening(validPort: bool)
    | Configure(ready: bool)
    | RetryGateway
    | GatewayMessage(proc: nat, expected: bool)
    | PortOpens(proc: nat)
    | ReadinessFails(proc: nat)
    | ProcErrors(proc: nat)
    | ProcExits(proc: nat)
    | ProcCloses(proc: nat, code: Option<int>, signaled: bool)
    | KillTimer(op: nat)
    | ForceTimer(op: nat)
    | GatewayStopped
    | ResumeStart
    | AllStopped(requested: bool, consumed: bool)
    | SignalArrives(signal: Signal)

  function NewProc(kind: Kind): Proc {
    Proc(kind, false, false, false, false, false, false, false, if kind.Gateway? then [Starting] else [])
  }

  function Spawn(s: State, kind: Kind): State {
    s.(procs := s.procs + [NewProc(kind)], children := s.children[kind := |s.procs|])
  }

  /** `run`: the state once the first server process has been spawned. */
  function Init(dev: bool): State {
    Spawn(State(dev, [], map[], false, false, false, None, 0, 0, None, [], None, []), Server)
  }

  function P(s: State, p: nat): Proc { if p < |s.procs| then s.procs[p] else NewProc(Server) }

  function SetProc(s: State, p: nat, proc: Proc): State {
    s.(procs := if p < |s.procs| then s.procs[p := proc] else s.procs)
  }

  /** `children.get(kind) === child` */
  predicate Current(s: State, kind: Kind, p: nat) { kind in s.children && s.children[kind] == p }

  predicate Settled(phase: Phase) { phase.Done? || phase.Exhausted? }

  // ---------------------------------------------------------------- stopping

  function StopChild(s: State, kind: Kind): State {
    if kind !in s.children then s
    else
      var p := s.children[kind];
      s.(children := s.children - {kind},
         stops := s.stops + [StopOp(p, if P(s, p).exitCode then Done else Terminating)])
  }

  function StopEverything(s: State): State {
    StopChild(StopChild(StopChild(s, Gateway), Client), Server)
  }

  /** `stopAll`, awaited before `next`. */
  function StopAll(s: State, next: Continuation): State {
    StopEverything(s).(stopping := true, 
                        pending := Some(Pending(|s.stops|, |StopEverything(s).stops|, s.gatewayStop, next)))
  }

  function StopGateway(s: State): State {
    if Gateway !in s.children then s else StopChild(s, Gateway).(gatewayStop := Some(|s.stops|))
  }

  // ---------------------------------------------------------------- the gateway

  function StartGateway(s: State): State {
    if !s.ready || Gateway in s.children || s.stopping then s
    else if s.gatewayStop.Some? then s.(waiting := s.waiting + 1)
    else Spawn(s, Gateway)
  }

  function PublishReady(s: State, p: nat): State {
    var c := P(s, p);
    if !c.portReady || !c.processReady || c.readinessPublished || c.reportedFailure || !Current(s, Gateway, p) then s
    else SetProc(s, p, c.(readinessPublished := true, sent := c.sent + [Ready]))
  }

  function Report(s: State, p: nat): State {
    SetProc(s, p, P(s, p).(reportedFailure := true, sent := P(s, p).sent + [Errored]))
  }

  function FailReadiness(s: State, p: nat): State {
    if !Current(s, Gateway, p) || P(s, p).reportedFailure || P(s, p).readinessPublished then s
    else StopGateway(Report(s, p))
  }

  function GatewayErrors(s: State, p: nat): State {
    if !Current(s, Gateway, p) then s
    else Fail(Report(s, p), p).(children := s.children - {Gateway})
  }

  function Fail(s: State, p: nat): State { SetProc(s, p, P(s, p).(failed := true)) }

  function GatewayCloses(s: State, p: nat): State {
    if !Current(s, Gateway, p) then s
    else if s.stopping || P(s, p).reportedFailure then s.(children := s.children - {Gateway})
    else SetProc(s, p, P(s, p).(sent := P(s, p).sent + [Errored])).(children := s.children - {Gateway})
  }

  // ---------------------------------------------------------------- the critical children

  function CriticalExit(s: State, code: Option<int>, signaled: bool): State {
    if s.handlingCriticalExit then s
    else StopAll(s, AfterCriticalExit(code, signaled)).(handlingCriticalExit := true)
  }

  function CriticalErrors(s: State, kind: Kind, p: nat): State {
    if !Current(s, kind, p) || s.handlingCriticalExit then s
    else CriticalExit(Fail(s, p), Some(1), false)
  }

  function CriticalCloses(s: State, kind: Kind, p: nat, code: Option<int>, signaled: bool): State {
    if !Current(s, kind, p) || s.stopping || s.handlingCriticalExit then s
    else CriticalExit(s.(children := s.children - {kind}), code, signaled)
  }

  /** 'close' settles the stops that wait for it. */
  function Close(s: State, p: nat): State {
    SetProc(s, p, P(s, p).(closed := true)).(stops := ClosedStops(s.stops, p))
  }

  function ClosedStops(stops: seq<StopOp>, p: nat): seq<StopOp> {
    seq(|stops|, i requires 0 <= i < |stops| =>
      if stops[i].child == p && !Settled(stops[i].phase) then StopOp(p, Done) else stops[i])
  }

  function ExitCode(signal: Signal): int { if signal.SigInt? then 0 else 1 }

  function Exit(s: State, code: int): State { s.(exits := s.exits + [code], pending := None) }

  function Relaunch(s: State): State {
    Spawn(s.(handlingCriticalExit := false, stopping := false, ready := false, pending := None), Server)
  }

  function Continue(s: State, next: Continuation, requested: bool, consumed: bool): State {
    match next
    case AfterSignal(signal) => Exit(s, ExitCode(signal))
    case AfterCriticalExit(code, signaled) =>
      if s.shutdownSignal.Some? then Exit(s, ExitCode(s.shutdownSignal.value))
      else if requested then (if consumed then Relaunch(s) else Exit(s, 1))
      else Exit(s, code.GetOr(if signaled then 1 else 0))
  }

  // ---------------------------------------------------------------- the steps

  predicate Complete(s: State, pending: Pending) {
    && pending.end <= |s.stops| && (forall op | pending.first <= op < pending.end :: Settled(s.stops[op].phase))
    && (pending.gatewayStop.None? || s.gatewayStop != pending.gatewayStop)
  }

  predicate Enabled(s: State, e: Event) {
    match e
    case ServerListening(_) => Server in s.children
    case Configure(_) => Server in s.children
    case RetryGateway => Server in s.children
    case GatewayMessage(p, _) => p < |s.procs| && s.procs[p].kind.Gateway?
    case PortOpens(p) => p < |s.procs| && s.procs[p].kind.Gateway?
    case ReadinessFails(p) => p < |s.procs| && s.procs[p].kind.Gateway?
    case ProcErrors(p) => p < |s.procs|
    case ProcExits(p) => p < |s.procs|
    case ProcCloses(p, _, _) => p < |s.procs| && !s.procs[p].closed
    case KillTimer(op) => op < |s.stops| && s.stops[op].phase.Terminating?
    case ForceTimer(op) => op < |s.stops| && s.stops[op].phase.Killing?
    case GatewayStopped => s.gatewayStop.Some? && s.gatewayStop.value < |s.stops| && Settled(s.stops[s.gatewayStop.value].phase)
    case ResumeStart => s.resumes > 0
    case AllStopped(_, _) => s.pending.Some? && Complete(s, s.pending.value)
    case SignalArrives(_) => true
  }

  function SetStop(s: State, op: nat, phase: Phase): State
    requires op < |s.stops|
  {
    s.(stops := s.stops[op := StopOp(s.stops[op].child, phase)])
  }

  function Errors(s: State, p: nat): State {
    if P(s, p).kind.Gateway? then GatewayErrors(s, p) else CriticalErrors(s, P(s, p).kind, p)
  }

  function Closes(s: State, p: nat, code: Option<int>, signaled: bool): State {
    if P(s, p).kind.Gateway? then GatewayCloses(Close(s, p), p)
    else CriticalCloses(Close(s, p), P(s, p).kind, p, code, signaled)
  }

  function Interrupt(s: State, signal: Signal): State {
    if s.stopping then s.(shutdownSignal := Some(signal))
    else StopAll(s, AfterSignal(signal)).(shutdownSignal := Some(signal))
  }

  function Reconfigure(s: State, ready: bool): State {
    if ready then StartGateway(s.(ready := true)) else StopGateway(s.(ready := false))
  }

  function Step(s: State, e: Event): State {
    if !Enabled(s, e) then s else
    match e
    case ServerListening(validPort) =>
      if !s.dev || Client in s.children || s.stopping || !validPort then s else Spawn(s, Client)
    case Configure(ready) => Reconfigure(s, ready)
    case RetryGateway => StartGateway(s)
    case GatewayMessage(p, expected) =>
      if expected then PublishReady(SetProc(s, p, P(s, p).(processReady := true)), p) else s
    case PortOpens(p) => PublishReady(SetProc(s, p, P(s, p).(portReady := true)), p)
    case ReadinessFails(p) => FailReadiness(s, p)
    case ProcErrors(p) => Errors(s, p)
    case ProcExits(p) => SetProc(s, p, P(s, p).(exitCode := true))
    case ProcCloses(p, code, signaled) => Closes(s, p, code, signaled)
    case KillTimer(op) => SetStop(s, op, Killing)
    case ForceTimer(op) => SetStop(s, op, Exhausted)
    case GatewayStopped => s.(gatewayStop := None, resumes := s.resumes + s.waiting, waiting := 0)
    case ResumeStart => StartGateway(s.(resumes := s.resumes - 1))
    case AllStopped(requested, consumed) => Continue(s, s.pending.value.next, requested, consumed)
    case SignalArrives(signal) => Interrupt(s, signal)
  }

  function Run(s: State, events: seq<Event>): State
    decreases |events|
  {
    if events == [] then s else Run(Step(s, events[0]), events[1..])
  }

  // ---------------------------------------------------------------- the invariant

  /** The process is out of the way. */
  predicate Gone(s: State, p: nat) {
    P(s, p).exitCode || P(s, p).closed || P(s, p).failed
    || exists op | 0 <= op < |s.stops| :: s.stops[op] == StopOp(p, Exhausted)
  }

  /** The process is being stopped, and someone waits for that. */
  predicate BeingStopped(s: State, p: nat) {
    exists op | 0 <= op < |s.stops| :: s.stops[op].child == p && !Settled(s.stops[op].phase) && Awaited(s, op)
  }

  predicate Awaited(s: State, op: nat) {
    s.gatewayStop == Some(op) || (s.pending.Some? && s.pending.value.first <= op < s.pending.value.end)
  }

  predicate Accounted(s: State, p: nat) {
    p < |s.procs| && s.procs[p].kind.Gateway? && !Current(s, Gateway, p) ==> Gone(s, p) || BeingStopped(s, p)
  }

  predicate GoodSequence(sent: seq<GatewayState>) {
    sent == [Starting] || sent == [Starting, Ready] || sent == [Starting, Errored] || sent == [Starting, Ready, Errored]
  }

  /** What was published for a gateway, and on what grounds. */
  predicate Published(c: Proc, current: bool) {
    && GoodSequence(c.sent)
    && (c.readinessPublished <==> Ready in c.sent)
    && (Ready in c.sent ==> c.portReady && c.processReady)
    && (current ==> Errored !in c.sent && !c.reportedFailure)
  }

  predicate Reported(s: State, p: nat) {
    p < |s.procs| && s.procs[p].kind.Gateway? ==> Published(s.procs[p], Current(s, Gateway, p))
  }

  predicate Sane(s: State, kind: Kind) {
    kind in s.children ==> s.children[kind] < |s.procs| && s.procs[s.children[kind]].kind == kind
  }

  predicate StopsInRange(s: State) {
    && (forall op | 0 <= op < |s.stops| :: StopKnown(s, op))
    && (s.gatewayStop.Some? ==> s.gatewayStop.value < |s.stops| && Gateway !in s.children)
  }

  predicate StopKnown(s: State, op: nat)
    requires op < |s.stops|
  {
    s.stops[op].child < |s.procs| && (s.stops[op].phase.Done? ==> Gone(s, s.stops[op].child))
  }

  /** One shutdown at a time, one exit at most. */
  predicate Phases(s: State) {
    && (s.stopping <==> s.pending.Some? || s.exits != [])
    && (s.stopping ==> s.children == map[])
    && (s.handlingCriticalExit ==> s.stopping)
    && (s.shutdownSignal.Some? ==> s.stopping)
    && |s.exits| <= 1 && (s.exits != [] ==> s.pending.None?)
    && (s.pending.Some? ==> s.pending.value.gatewayStop == s.gatewayStop || s.gatewayStop.None?)
    && (s.exits != [] ==> s.gatewayStop.None?)
    && (s.pending.Some? && s.pending.value.next.AfterSignal? ==> s.shutdownSignal.Some? && !s.handlingCriticalExit)
  }

  ghost predicate Inv(s: State) {
    var sound :=
      && (forall kind :: Sane(s, kind))
      && StopsInRange(s) && Phases(s)
      && (forall p: nat :: Accounted(s, p))
      && (forall p: nat :: Reported(s, p));
    sound
  }
}
