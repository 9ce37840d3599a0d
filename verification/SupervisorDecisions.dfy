/**
 What each callback of the supervisor comes to, read off the fields before it: what is
 spawned, published and stopped, and how a completed stop ends.
 */
module SupervisorDecisions {
  import opened Prelude
  import opened Supervisor
  import opened SupervisorSafety

  // ---------------------------------------------------------------- how a stop ends

  /** 0 for an interrupt from the terminal, 1 for a request to terminate. */
  function CodeOf(signal: Signal): int {
    match signal
    case SigInt => 0
    case SigTerm => 1
  }

  /** A stop that a signal began, or during which one came, ends with the code of that signal. */
  lemma SignalEndsStop(s: State, requested: bool, consumed: bool, signal: Signal)
    requires Inv(s) && Enabled(s, AllStopped(requested, consumed))
    requires s.pending.value.next == AfterSignal(signal)
             || (s.pending.value.next.AfterCriticalExit? && s.shutdownSignal == Some(signal))
    ensures var t := Step(s, AllStopped(requested, consumed));
            t.exits == [CodeOf(signal)] && t.procs == s.procs && t.pending == None
  {
  }

  /**
   After a critical exit without a signal, a restart that was requested starts a new server; if
   the request cannot be taken back the program gives up; and without a request it ends with
   the code of the child, or 1 if a signal killed that.
   */
  lemma CriticalExitEndsStop(s: State, requested: bool, consumed: bool, code: Option<int>, signaled: bool)
    requires Inv(s) && Enabled(s, AllStopped(requested, consumed)) && s.shutdownSignal == None
    requires s.pending.value.next == AfterCriticalExit(code, signaled)
    ensures var t := Step(s, AllStopped(requested, consumed));
            && t.pending == None
            && (requested && consumed ==>
                  && t.procs[..|s.procs|] == s.procs && |t.procs| == |s.procs| + 1 && t.procs[|s.procs|].kind == Server
                  && t.children == map[Server := |s.procs|] && !t.stopping && !t.handlingCriticalExit && t.exits == [])
            && (requested && !consumed ==> t.exits == [1] && t.procs == s.procs)
            && (!requested ==> t.procs == s.procs
                               && t.exits == [if code.Some? then code.value else if signaled then 1 else 0])
  {
  }

  // ---------------------------------------------------------------- how a stop begins

  /** The stops from `first` on contain one for the process, over at once if that has exited. */
  predicate StopBegun(t: State, first: nat, p: nat, exited: bool) {
    exists op | first <= op < |t.stops| :: t.stops[op] == StopOp(p, if exited then Done else Terminating)
  }

  lemma ChildStops(s: State, kind: Kind)
    ensures var t := StopChild(s, kind);
            && kind !in t.children && s.stops <= t.stops && t.procs == s.procs
            && (forall k <- t.children :: k in s.children && t.children[k] == s.children[k])
            && (forall k <- s.children :: k != kind ==> k in t.children && t.children[k] == s.children[k])
            && (kind in s.children ==> StopBegun(t, |s.stops|, s.children[kind], P(s, s.children[kind]).exitCode))
  {
    if kind in s.children { assert StopChild(s, kind).stops[|s.stops|].child == s.children[kind]; }
  }

  lemma StillBegun(s: State, t: State, first: nat, p: nat, exited: bool)
    requires StopBegun(s, first, p, exited) && s.stops <= t.stops
    ensures StopBegun(t, first, p, exited)
  {
    var op :| first <= op < |s.stops| && s.stops[op] == StopOp(p, if exited then Done else Terminating);
    assert t.stops[op] == s.stops[op];
  }

  lemma LaterBegun(t: State, first: nat, from: nat, p: nat, exited: bool)
    requires StopBegun(t, from, p, exited) && first <= from
    ensures StopBegun(t, first, p, exited)
  {
  }

  /** Every child is forgotten, and its stop has begun. */
  lemma AllChildrenStop(s: State, kind: Kind)
    ensures var t := StopEverything(s);
            && t.children == map[] && t.procs == s.procs && s.stops <= t.stops
            && (kind in s.children ==> StopBegun(t, |s.stops|, s.children[kind], P(s, s.children[kind]).exitCode))
  {
    var a := StopChild(s, Gateway);
    var b := StopChild(a, Client);
    var c := StopChild(b, Server);
    ChildStops(s, Gateway);
    ChildStops(a, Client);
    ChildStops(b, Server);
    forall k: Kind ensures k !in c.children {
      match k {
        case Gateway =>
        case Client =>
        case Server =>
      }
    }
    assert c.children == map[];
    if kind in s.children {
      var p := s.children[kind];
      match kind {
        case Gateway =>
          StillBegun(a, b, |s.stops|, p, P(s, p).exitCode);
          StillBegun(b, c, |s.stops|, p, P(s, p).exitCode);
        case Client =>
          LaterBegun(b, |s.stops|, |a.stops|, p, P(s, p).exitCode);
          StillBegun(b, c, |s.stops|, p, P(s, p).exitCode);
        case Server => LaterBegun(c, |s.stops|, |b.stops|, p, P(s, p).exitCode);
      }
    }
  }

  /** The shutdown that was begun from `s`, and what is to follow it. */
  predicate Stopping(s: State, t: State, next: Continuation) {
    && t.stopping && t.children == map[] && t.pending == Some(Pending(|s.stops|, |t.stops|, s.gatewayStop, next))
  }

  lemma StopAllStops(s: State, next: Continuation, kind: Kind)
    ensures var t := StopAll(s, next);
            && Stopping(s, t, next) && t.procs == s.procs
            && (kind in s.children ==> StopBegun(t, |s.stops|, s.children[kind], P(s, s.children[kind]).exitCode))
  {
    AllChildrenStop(s, kind);
    if kind in s.children {
      StillBegun(StopEverything(s), StopAll(s, next), |s.stops|, s.children[kind], P(s, s.children[kind]).exitCode);
    }
  }

  /** A signal stops every child, unless a shutdown is under way; it is remembered in any case. */
  lemma SignalStopsAll(s: State, signal: Signal, kind: Kind)
    ensures var t := Step(s, SignalArrives(signal));
            && t.shutdownSignal == Some(signal)
            && (s.stopping ==> t == s.(shutdownSignal := Some(signal)))
            && (!s.stopping ==>
                  && Stopping(s, t, AfterSignal(signal))
                  && (kind in s.children ==> StopBegun(t, |s.stops|, s.children[kind], P(s, s.children[kind]).exitCode)))
  {
    StopAllStops(s, AfterSignal(signal), kind);
  }

  /** When the server or the client closes unasked, everything else is stopped, and its code is kept for the end. */
  lemma CriticalCloseStopsAll(s: State, p: nat, code: Option<int>, signaled: bool, kind: Kind)
    requires Inv(s) && Enabled(s, ProcCloses(p, code, signaled)) && !s.procs[p].kind.Gateway?
    requires s.procs[p].kind in s.children && s.children[s.procs[p].kind] == p && !s.stopping
    ensures var t := Step(s, ProcCloses(p, code, signaled));
            && Stopping(s, t, AfterCriticalExit(code, signaled)) && t.handlingCriticalExit
            && (kind in s.children && kind != s.procs[p].kind ==>
                  StopBegun(t, |s.stops|, s.children[kind], P(s, s.children[kind]).exitCode))
  {
    var u := Close(s, p).(children := s.children - {s.procs[p].kind});
    StopAllStops(u, AfterCriticalExit(code, signaled), kind);
    if kind in s.children && kind != s.procs[p].kind {
      assert Sane(s, kind) && s.children[kind] != p;
      assert P(u, s.children[kind]).exitCode == P(s, s.children[kind]).exitCode;
    }
  }

  /** ... and so it is when one of them cannot be spawned, which counts as code 1. */
  lemma CriticalErrorStopsAll(s: State, p: nat)
    requires Inv(s) && Enabled(s, ProcErrors(p)) && !s.procs[p].kind.Gateway?
    requires s.procs[p].kind in s.children && s.children[s.procs[p].kind] == p && !s.handlingCriticalExit
    ensures var t := Step(s, ProcErrors(p));
            Stopping(s, t, AfterCriticalExit(Some(1), false)) && t.handlingCriticalExit
  {
    StopAllStops(Fail(s, p), AfterCriticalExit(Some(1), false), Server);
  }

  // ---------------------------------------------------------------- the gateway

  /**
   A gateway is started when the configuration is ready, none is running and nothing is being
   stopped; if the last one is still being stopped, the start waits for that.
   */
  lemma GatewayStarts(s: State)
    requires Enabled(s, RetryGateway)
    ensures var t := Step(s, RetryGateway);
            var due := s.ready && Gateway !in s.children && !s.stopping;
            if !due then t == s
            else if s.gatewayStop != None then t == s.(waiting := s.waiting + 1)
            else && t.procs == s.procs + [NewProc(Gateway)] && t.children == s.children[Gateway := |s.procs|]
                 && t == s.(procs := t.procs, children := t.children)
  {
  }

  /** The message of the server starts or stops the gateway as its configuration says. */
  lemma ConfigurationDecides(s: State)
    requires Enabled(s, Configure(true))
    ensures Step(s, Configure(true)) == Step(s.(ready := true), RetryGateway)
    ensures var t := Step(s, Configure(false));
            && !t.ready && Gateway !in t.children
            && (Gateway !in s.children ==> t == s.(ready := false))
            && (Gateway in s.children ==>
                  && t.gatewayStop == Some(|s.stops|) && |t.stops| == |s.stops| + 1
                  && t.stops[|s.stops|].child == s.children[Gateway])
  {
  }

  /** A start that waited for a stop is made up for when the stop is over. */
  lemma WaitingStartsResume(s: State)
    requires Enabled(s, GatewayStopped)
    ensures var t := Step(s, GatewayStopped);
            t.gatewayStop == None && t.waiting == 0 && t.resumes == s.resumes + s.waiting
    ensures s.resumes > 0 ==>
              Step(s, ResumeStart) == (if Server in s.children then Step(s.(resumes := s.resumes - 1), RetryGateway)
                                       else StartGateway(s.(resumes := s.resumes - 1)))
  {
  }

  /** Readiness is published as soon as both the port is open and the gateway has said so, in either order. */
  lemma ReadinessIsPublished(s: State, p: nat)
    requires p < |s.procs| && s.procs[p].kind.Gateway? && Gateway in s.children && s.children[Gateway] == p
    requires !s.procs[p].reportedFailure && !s.procs[p].readinessPublished
    ensures s.procs[p].processReady ==> Step(s, PortOpens(p)).procs[p].sent == s.procs[p].sent + [Ready]
    ensures s.procs[p].portReady ==> Step(s, GatewayMessage(p, true)).procs[p].sent == s.procs[p].sent + [Ready]
    ensures !s.procs[p].processReady ==> Step(s, PortOpens(p)) == SetProc(s, p, s.procs[p].(portReady := true))
    ensures Step(s, GatewayMessage(p, false)) == s
  {
  }

  /** A gateway that does not get ready in time is reported and stopped. */
  lemma FailureIsReported(s: State, p: nat)
    requires p < |s.procs| && s.procs[p].kind.Gateway? && Gateway in s.children && s.children[Gateway] == p
    requires !s.procs[p].reportedFailure && !s.procs[p].readinessPublished
    ensures var t := Step(s, ReadinessFails(p));
            && t.procs[p].sent == s.procs[p].sent + [Errored] && Gateway !in t.children
            && t.gatewayStop == Some(|s.stops|) && |t.stops| == |s.stops| + 1 && t.stops[|s.stops|].child == p
  {
  }

  /** A gateway that closes unasked is reported, unless it had been before or everything is being stopped. */
  lemma UnexpectedCloseIsReported(s: State, p: nat, code: Option<int>, signaled: bool)
    requires Enabled(s, ProcCloses(p, code, signaled)) && s.procs[p].kind.Gateway?
    requires Gateway in s.children && s.children[Gateway] == p
    ensures var t := Step(s, ProcCloses(p, code, signaled));
            && Gateway !in t.children && |t.procs| == |s.procs| && t.procs[p].closed
            && t.procs[p].sent == s.procs[p].sent + (if s.stopping || s.procs[p].reportedFailure then [] else [Errored])
  {
  }

  /** What ends a stop: the child closes, or does not even after it was killed. */
  lemma StopsSettle(s: State, op: nat, code: Option<int>, signaled: bool)
    requires op < |s.stops|
    ensures Enabled(s, KillTimer(op)) ==> Step(s, KillTimer(op)).stops == s.stops[op := StopOp(s.stops[op].child, Killing)]
    ensures Enabled(s, ForceTimer(op)) ==> Step(s, ForceTimer(op)).stops == s.stops[op := StopOp(s.stops[op].child, Exhausted)]
    ensures Close(s, s.stops[op].child).stops[op]
         == if s.stops[op].phase == Exhausted then s.stops[op] else StopOp(s.stops[op].child, Done)
  {
  }

  /** In development, the client is started once the server listens on a valid port. */
  lemma ClientStarts(s: State, validPort: bool)
    requires Enabled(s, ServerListening(validPort))
    ensures var t := Step(s, ServerListening(validPort));
            if s.dev && validPort && Client !in s.children && !s.stopping
            then t.procs == s.procs + [NewProc(Client)] && t.children == s.children[Client := |s.procs|]
            else t == s
  {
  }
}
