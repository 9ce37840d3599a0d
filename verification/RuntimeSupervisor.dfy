/** `createRuntimeSupervisor`: the closures that share its variables, as methods of a class. */
module RuntimeSupervisor {
  import opened Prelude
  import S = Supervisor

  class Supervisor {
    const dev: bool
    var procs: seq<S.Proc>
    var children: map<S.Kind, nat>
    var ready: bool
    var stopping: bool
    var handlingCriticalExit: bool
    var gatewayStop: Option<nat>
    var waiting: nat
    var resumes: nat
    var shutdownSignal: Option<S.Signal>
    var stops: seq<S.StopOp>
    var pending: Option<S.Pending>
    var exits: seq<int>

    function View(): S.State
      reads this
    {
      S.State(dev, procs, children, ready, stopping, handlingCriticalExit, gatewayStop, waiting, resumes, shutdownSignal,
              stops, pending, exits)
    }

    /** `run` */
    constructor (dev: bool)
      ensures View() == S.Init(dev)
    {
      this.dev := dev;
      procs, children := [S.NewProc(S.Server)], map[S.Server := 0];
      ready, stopping, handlingCriticalExit, gatewayStop, waiting, resumes := false, false, false, None, 0, 0;
      shutdownSignal, stops, pending, exits := None, [], None, [];
    }

    method SpawnProcess(kind: S.Kind) returns (child: nat)
      modifies this`procs, this`children
      ensures View() == S.Spawn(old(View()), kind) && child == |old(procs)|
    {
      child := |procs|;
      procs := procs + [S.NewProc(kind)];
      children := children[kind := child];
    }

    method SetProc(p: nat, c: S.Proc)
      modifies this`procs
      ensures View() == S.SetProc(old(View()), p, c)
    {
      if p < |procs| { procs := procs[p := c]; }
    }

    // ---------------------------------------------------------------- stopping

    method StopChild(kind: S.Kind)
      modifies this`children, this`stops
      ensures View() == S.StopChild(old(View()), kind)
    {
      if kind !in children { return; }
      var p := children[kind];
      children := children - {kind};
      var exited := p < |procs| && procs[p].exitCode;
      stops := stops + [S.StopOp(p, if exited then S.Done else S.Terminating)];
    }

    method StopEverything()
      modifies this`children, this`stops
      ensures View() == S.StopEverything(old(View()))
    {
      StopChild(S.Gateway);
      StopChild(S.Client);
      StopChild(S.Server);
    }

    /** `stopping = true; await stopAll()` */
    method StopAll(next: S.Continuation)
      modifies this`children, this`stops, this`stopping, this`pending
      ensures View() == S.StopAll(old(View()), next)
    {
      var first := |stops|;
      StopEverything();
      stopping := true;
      pending := Some(S.Pending(first, |stops|, gatewayStop, next));
    }

    /** Set the flags of a shutdown, then `stopping = true; await stopAll()`. */
    method StopAllFlagged(next: S.Continuation, handling: bool, signal: Option<S.Signal>)
      modifies this`children, this`stops, this`stopping, this`pending, this`handlingCriticalExit, this`shutdownSignal
      ensures View() == Flagged(S.StopAll(old(View()), next), handling, signal)
    {
      StopAllIgnoresFlags(View(), next, handling, signal);
      SetFlags(handling, signal);
      StopAll(next);
    }

    method SetFlags(handling: bool, signal: Option<S.Signal>)
      modifies this`handlingCriticalExit, this`shutdownSignal
      ensures View() == Flagged(old(View()), handling, signal)
    {
      handlingCriticalExit := handling;
      shutdownSignal := signal;
    }

    method StopGateway()
      modifies this`children, this`stops, this`gatewayStop
      ensures View() == S.StopGateway(old(View()))
    {
      if S.Gateway !in children { return; }
      gatewayStop := Some(|stops|);
      StopChild(S.Gateway);
    }

    // ---------------------------------------------------------------- the gateway

    method StartGateway()
      modifies this`procs, this`children, this`waiting
      ensures View() == S.StartGateway(old(View()))
    {
      if !ready || S.Gateway in children || stopping { return; }
      if gatewayStop.Some? {
        waiting := waiting + 1;
        return;
      }
      var _ := SpawnProcess(S.Gateway);
    }

    method PublishReady(p: nat)
      requires p < |procs|
      modifies this`procs
      ensures View() == S.PublishReady(old(View()), p)
    {
      var c := procs[p];
      if !c.portReady || !c.processReady || c.readinessPublished || c.reportedFailure
         || S.Gateway !in children || children[S.Gateway] != p
      {
        return;
      }
      SetProc(p, c.(readinessPublished := true, sent := c.sent + [S.Ready]));
    }

    method FailReadiness(p: nat)
      requires p < |procs|
      modifies this`procs, this`children, this`stops, this`gatewayStop
      ensures View() == S.FailReadiness(old(View()), p)
    {
      var c := procs[p];
      if S.Gateway !in children || children[S.Gateway] != p || c.reportedFailure || c.readinessPublished { return; }
      SetProc(p, c.(reportedFailure := true, sent := c.sent + [S.Errored]));
      StopGateway();
    }

    method OnGatewayError(p: nat)
      requires p < |procs|
      modifies this`procs, this`children
      ensures View() == S.GatewayErrors(old(View()), p)
    {
      if S.Gateway !in children || children[S.Gateway] != p { return; }
      children := children - {S.Gateway};
      var c := procs[p];
      SetProc(p, c.(reportedFailure := true, failed := true, sent := c.sent + [S.Errored]));
    }

    method OnGatewayClose(p: nat)
      requires p < |procs|
      modifies this`procs, this`children
      ensures View() == S.GatewayCloses(old(View()), p)
    {
      if S.Gateway !in children || children[S.Gateway] != p { return; }
      children := children - {S.Gateway};
      var c := procs[p];
      if stopping || c.reportedFailure { return; }
      SetProc(p, c.(sent := c.sent + [S.Errored]));
    }

    // ---------------------------------------------------------------- messages of the server

    method OnServerListening(validPort: bool)
      requires S.Enabled(View(), S.ServerListening(validPort))
      modifies this`procs, this`children
      ensures View() == S.Step(old(View()), S.ServerListening(validPort))
    {
      if !dev || S.Client in children || stopping { return; }
      if !validPort { return; }
      var _ := SpawnProcess(S.Client);
    }

    method OnConfiguration(isReady: bool)
      requires S.Enabled(View(), S.Configure(isReady))
      modifies this`ready, this`procs, this`children, this`waiting, this`stops, this`gatewayStop
      ensures View() == S.Step(old(View()), S.Configure(isReady))
    {
      ready := isReady;
      if isReady {
        StartGateway();
      } else {
        StopGateway();
      }
    }

    // ---------------------------------------------------------------- the critical children

    method HandleCriticalExit(code: Option<int>, signaled: bool)
      modifies this`children, this`stops, this`stopping, this`pending, this`handlingCriticalExit, this`shutdownSignal
      ensures View() == S.CriticalExit(old(View()), code, signaled)
    {
      if handlingCriticalExit { return; }
      StopAllFlagged(S.AfterCriticalExit(code, signaled), true, shutdownSignal);
    }

    method OnCriticalError(kind: S.Kind, p: nat)
      requires p < |procs|
      modifies this`procs, this`children, this`stops, this`stopping, this`pending, this`handlingCriticalExit, this`shutdownSignal
      ensures View() == S.CriticalErrors(old(View()), kind, p)
    {
      if kind !in children || children[kind] != p || handlingCriticalExit { return; }
      SetProc(p, procs[p].(failed := true));
      HandleCriticalExit(Some(1), false);
    }

    method OnCriticalClose(kind: S.Kind, p: nat, code: Option<int>, signaled: bool)
      modifies this`children, this`stops, this`stopping, this`pending, this`handlingCriticalExit, this`shutdownSignal
      ensures View() == S.CriticalCloses(old(View()), kind, p, code, signaled)
    {
      if kind !in children || children[kind] != p || stopping || handlingCriticalExit { return; }
      children := children - {kind};
      HandleCriticalExit(code, signaled);
    }

    // ---------------------------------------------------------------- after stopAll

    method Exit(code: int)
      modifies this`exits, this`pending
      ensures View() == S.Exit(old(View()), code)
    {
      exits := exits + [code];
      pending := None;
    }

    method StartRuntime()
      modifies this`handlingCriticalExit, this`stopping, this`ready, this`pending, this`procs, this`children
      ensures View() == S.Relaunch(old(View()))
    {
      pending := None;
      handlingCriticalExit := false;
      stopping := false;
      ready := false;
      var _ := SpawnProcess(S.Server);
    }

    /** What follows `await stopAll()` in `handleCriticalExit` and in `stop`. */
    method AfterStopAll(requested: bool, consumed: bool)
      requires S.Enabled(View(), S.AllStopped(requested, consumed))
      modifies this`handlingCriticalExit, this`stopping, this`ready, this`pending, this`procs, this`children, this`exits
      ensures View() == S.Step(old(View()), S.AllStopped(requested, consumed))
    {
      var next := pending.value.next;
      if next.AfterSignal? {
        Exit(if next.signal.SigInt? then 0 else 1);
      } else if shutdownSignal.Some? {
        Exit(if shutdownSignal.value.SigInt? then 0 else 1);
      } else if requested {
        if consumed {
          StartRuntime();
        } else {
          Exit(1);
        }
      } else {
        Exit(if next.code.Some? then next.code.value else if next.signaled then 1 else 0);
      }
    }

    /** `stop` */
    method Stop(signal: S.Signal)
      modifies this`shutdownSignal, this`children, this`stops, this`stopping, this`pending, this`handlingCriticalExit
      ensures View() == S.Interrupt(old(View()), signal)
    {
      if stopping {
        shutdownSignal := Some(signal);
        return;
      }
      StopAllFlagged(S.AfterSignal(signal), handlingCriticalExit, Some(signal));
    }

    /** The `finally` handler of `gatewayStopPromise`. */
    method OnGatewayStopped()
      requires S.Enabled(View(), S.GatewayStopped)
      modifies this`gatewayStop, this`waiting, this`resumes
      ensures View() == S.Step(old(View()), S.GatewayStopped)
    {
      gatewayStop := None;
      resumes := resumes + waiting;
      waiting := 0;
    }
  }

  function Flagged(s: S.State, handling: bool, signal: Option<S.Signal>): S.State {
    s.(handlingCriticalExit := handling, shutdownSignal := signal)
  }

  lemma StopIgnoresFlags(s: S.State, handling: bool, signal: Option<S.Signal>, kind: S.Kind)
    ensures S.StopChild(Flagged(s, handling, signal), kind) == Flagged(S.StopChild(s, kind), handling, signal)
  {
  }

  lemma StopAllIgnoresFlags(s: S.State, next: S.Continuation, handling: bool, signal: Option<S.Signal>)
    ensures S.StopAll(Flagged(s, handling, signal), next) == Flagged(S.StopAll(s, next), handling, signal)
  {
    StopsIgnoreFlags(s, handling, signal);
  }

  /** Whether a flag is set before or after the children are stopped makes no difference to the stops. */
  lemma StopsIgnoreFlags(s: S.State, handling: bool, signal: Option<S.Signal>)
    ensures S.StopEverything(Flagged(s, handling, signal)) == Flagged(S.StopEverything(s), handling, signal)
  {
    StopIgnoresFlags(s, handling, signal, S.Gateway);
    StopIgnoresFlags(S.StopChild(s, S.Gateway), handling, signal, S.Client);
    StopIgnoresFlags(S.StopChild(S.StopChild(s, S.Gateway), S.Client), handling, signal, S.Server);
  }
}
