/** The channel bookkeeping of `startPilotDeckServer`: maps updated around the `await`s of each operation. */
module PilotdeckServer {
  import opened Prelude
  import C = ChannelOps

  class ChannelRunner {
    var ops: seq<C.Op>
    var channelOps: map<string, nat>
    var runningHandles: map<string, nat>
    var runningChannels: map<string, nat>
    var live: set<nat>
    var abandoned: set<nat>

    function View(): C.State
      reads this
    {
      C.State(ops, channelOps, runningHandles, runningChannels, live, abandoned)
    }

    constructor ()
      ensures View() == C.INIT
    {
      ops, channelOps, runningHandles, runningChannels, live, abandoned := [], map[], map[], map[], {}, {};
    }

    /** `enqueueChannelOp` */
    method EnqueueChannelOp(key: string, isStop: bool) returns (op: nat)
      modifies this`ops, this`channelOps
      ensures View() == C.Step(old(View()), C.Enqueue(key, isStop)) && op == |old(ops)|
    {
      var previous := if key in channelOps then Some(channelOps[key]) else None;
      op := |ops|;
      ops := ops + [C.Op(key, isStop, previous, C.Queued)];
      channelOps := channelOps[key := op];
    }

    method SetPhase(op: nat, phase: C.Phase)
      requires op < |ops|
      modifies this`ops
      ensures View() == C.SetPhase(old(View()), op, phase)
    {
      ops := ops[op := ops[op].(phase := phase)];
    }

    method Untrack(key: string)
      modifies this`runningHandles, this`runningChannels
      ensures View() == C.Untrack(old(View()), key)
    {
      runningHandles := runningHandles - {key};
      runningChannels := runningChannels - {key};
    }

    /** `startAndTrack` up to its first `await`. */
    method StartAndTrack(op: nat)
      requires C.Enabled(View(), C.Begin(op)) && !ops[op].isStop
      modifies this`ops
      ensures View() == C.Step(old(View()), C.Begin(op))
    {
      var key := ops[op].key;
      if key in runningHandles {
        SetPhase(op, C.StoppingOld(runningHandles[key]));
      } else {
        SetPhase(op, C.Starting);
      }
    }

    /** The operation of `stopChannel` up to its first `await`. */
    method StopChannel(op: nat)
      requires C.Enabled(View(), C.Begin(op)) && ops[op].isStop
      modifies this`ops, this`runningHandles, this`runningChannels
      ensures View() == C.Step(old(View()), C.Begin(op))
    {
      var key := ops[op].key;
      if key !in runningHandles {
        SetPhase(op, C.Finished);
        return;
      }
      var handle := runningHandles[key];
      Untrack(key);
      SetPhase(op, C.StoppingLast(handle));
    }

    /** The stop of an instance settles; an error is only logged, or not even that. */
    method InstanceStopped(inst: nat, ok: bool)
      modifies this`live, this`abandoned
      ensures View() == C.Gone(old(View()), inst, ok)
    {
      live := live - {inst};
      if !ok {
        abandoned := abandoned + {inst};
      }
    }

    /** `startAndTrack` from the end of `existing.stop(...)`. */
    method OnOldStopped(op: nat, ok: bool)
      requires C.Enabled(View(), C.OldStopped(op, ok))
      modifies this`ops, this`runningHandles, this`runningChannels, this`live, this`abandoned
      ensures View() == C.Step(old(View()), C.OldStopped(op, ok))
    {
      InstanceStopped(ops[op].phase.inst, ok);
      Untrack(ops[op].key);
      SetPhase(op, C.Starting);
    }

    /** ... from the end of `ch.start(...)`. */
    method OnStartSettled(op: nat, ok: bool)
      requires C.Enabled(View(), C.StartSettled(op, ok))
      modifies this`ops, this`runningHandles, this`runningChannels, this`live
      ensures View() == C.Step(old(View()), C.StartSettled(op, ok))
    {
      if ok {
        var key := ops[op].key;
        runningHandles := runningHandles[key := op];
        runningChannels := runningChannels[key := op];
        live := live + {op};
      }
      SetPhase(op, C.Finished);
    }

    /** The stop operation from the end of `handle.stop(...)`. */
    method OnLastStopped(op: nat, ok: bool)
      requires C.Enabled(View(), C.LastStopped(op, ok))
      modifies this`ops, this`live, this`abandoned
      ensures View() == C.Step(old(View()), C.LastStopped(op, ok))
    {
      InstanceStopped(ops[op].phase.inst, ok);
      SetPhase(op, C.Finished);
    }

    /** The `finally` handler of the chain. */
    method CleanUp(op: nat)
      requires C.Enabled(View(), C.CleanUp(op))
      modifies this`channelOps
      ensures View() == C.Step(old(View()), C.CleanUp(op))
    {
      if ops[op].key in channelOps && channelOps[ops[op].key] == op {
        channelOps := channelOps - {ops[op].key};
      }
    }
  }
}
