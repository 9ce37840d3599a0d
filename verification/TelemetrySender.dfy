/** `TelemetrySender`: the queue is pushed, spliced and unshifted in place. */
module TelemetrySending {
  import opened Prelude
  import T = Telemetry

  class TelemetrySender {
    const config: T.Config
    var enabled: bool
    var restored: bool
    var flushing: bool
    var queue: seq<T.Envelope>
    var inFlight: seq<T.Envelope>
    var metrics: T.Metrics
    var births: seq<int>
    var transmissions: seq<nat>
    var sent: seq<T.Envelope>
    var dropped: seq<T.Envelope>
    var refused: nat
    var waiting: bool
    var due: nat
    var written: Option<seq<T.Envelope>>

    function View(): T.State
      reads this
    {
      T.State(config, enabled, restored, flushing, queue, inFlight, metrics, births, transmissions, sent, dropped, refused,
              waiting, due, written)
    }

    constructor (config: T.Config)
      ensures View() == T.Init(config)
    {
      this.config := config;
      enabled, restored, flushing, queue, inFlight, metrics := false, false, false, [], [], T.Metrics(0, 0, 0, 0, 0);
      births, transmissions, sent, dropped, refused := [], [], [], [], 0;
      waiting, due, written := false, 0, None;
    }

    method Push(attempts: int)
      modifies this`queue, this`births, this`transmissions
      ensures View() == T.Push(old(View()), attempts)
    {
      queue := queue + [T.Envelope(|births|, attempts)];
      births := births + [attempts];
      transmissions := transmissions + [0];
    }

    method Refuse()
      modifies this`refused, this`metrics
      ensures View() == T.Refuse(old(View()))
    {
      refused := refused + 1;
      metrics := metrics.(dropped := metrics.dropped + 1);
    }

    /** `splice`, and the call of `sendBatch`. */
    method TakeBatch()
      modifies this`queue, this`inFlight, this`flushing, this`transmissions
      ensures View() == T.TakeBatch(old(View()))
    {
      var n := if config.batchSize < |queue| then config.batchSize else |queue|;
      inFlight := queue[..n];
      queue := queue[n..];
      flushing := true;
      transmissions := T.Sent(transmissions, inFlight);
    }

    /** `flush` up to its first `await`. */
    method Flush()
      modifies this`queue, this`inFlight, this`flushing, this`transmissions
      ensures View() == T.StartFlush(old(View()))
    {
      if !enabled || flushing || |queue| == 0 { return; }
      TakeBatch();
    }

    method Enqueue()
      modifies this
      ensures View() == T.Step(old(View()), T.Enqueue)
    {
      if !enabled { return; }
      if |queue| >= config.maxQueueSize {
        Refuse();
        return;
      }
      Push(0);
      metrics := metrics.(queued := metrics.queued + 1);
      if |queue| >= config.batchSize {
        Flush();
      }
    }

    /** The loop of `flush` after a successful request. */
    method Deliver()
      modifies this`inFlight, this`sent, this`flushing, this`metrics, this`queue, this`transmissions
      ensures View() == T.Deliver(old(View()))
    {
      metrics := metrics.(sent := metrics.sent + |inFlight|);
      sent := sent + inFlight;
      inFlight := [];
      flushing := false;
      if |queue| > 0 {
        TakeBatch();
      }
    }

    method OnDelivered()
      requires T.Enabled(View(), T.Delivered)
      modifies this
      ensures View() == T.Step(old(View()), T.Delivered)
    {
      Deliver();
      FlushOver();
    }

    /** `flush` returns to the shutdown that awaits it. */
    method FlushOver()
      modifies this`waiting, this`due
      ensures View() == T.FlushOver(old(View()))
    {
      if waiting && !flushing {
        waiting := false;
        due := due + 1;
      }
    }

    /** `shutdown` up to its `await`. */
    method Shutdown()
      modifies this
      ensures View() == T.Step(old(View()), T.Shutdown)
    {
      var wasFlushing := flushing;
      Flush();
      if flushing && !wasFlushing {
        waiting := true;
      } else {
        due := due + 1;
      }
    }

    /** ... and from there: `persistQueue`. */
    method OnShutdownFlushed(ok: bool)
      requires T.Enabled(View(), T.Write(ok))
      modifies this`due, this`written
      ensures View() == T.Step(old(View()), T.Write(ok))
    {
      due := due - 1;
      if restored && ok {
        written := Some(queue);
      }
    }

    method PutBackOne(item: T.Envelope)
      modifies this`queue, this`metrics, this`dropped
      ensures View() == T.PutBack(old(View()), [item])
    {
      assert [item][1..] == [];
      if item.attempts + 1 > config.maxRetries {
        dropped := dropped + [item];
        metrics := metrics.(dropped := metrics.dropped + 1);
      } else {
        metrics := metrics.(retries := metrics.retries + 1);
        queue := [item.(attempts := item.attempts + 1)] + queue;
      }
    }

    method PutBack(batch: seq<T.Envelope>)
      modifies this`queue, this`metrics, this`dropped
      ensures View() == T.PutBack(old(View()), batch)
    {
      ghost var start := View();
      for i := 0 to |batch|
        invariant T.PutBack(start, batch) == T.PutBack(View(), batch[i..])
      {
        PutBackFirst(View(), batch[i..]);
        assert batch[i..][1..] == batch[i + 1..];
        PutBackOne(batch[i]);
      }
    }

    /** The `catch` block of `flush`. */
    method Fail()
      modifies this`inFlight, this`flushing, this`metrics, this`queue, this`dropped
      ensures View() == T.Fail(old(View()))
    {
      var batch := inFlight;
      metrics := metrics.(sendFailures := metrics.sendFailures + 1);
      inFlight := [];
      flushing := false;
      PutBack(batch);
    }

    method OnFailed()
      requires T.Enabled(View(), T.Failed)
      modifies this
      ensures View() == T.Step(old(View()), T.Failed)
    {
      Fail();
      FlushOver();
    }

    method RestoreLine(line: T.Line)
      modifies this`queue, this`births, this`transmissions, this`refused, this`metrics
      ensures View() == T.RestoreLine(old(View()), line)
    {
      match line {
        case TooLong => Refuse();
        case Malformed =>
        case Stored(attempts) => Push(if attempts < 0 then 0 else attempts);
      }
    }

    method RestoreLines(lines: seq<T.Line>)
      modifies this`queue, this`births, this`transmissions, this`refused, this`metrics
      ensures View() == T.RestoreLines(old(View()), lines)
    {
      ghost var start := View();
      for i := 0 to |lines|
        invariant T.RestoreLines(start, lines) == T.RestoreLines(View(), lines[i..])
      {
        assert lines[i..][1..] == lines[i + 1..];
        RestoreLine(lines[i]);
      }
    }

    /** `restoreQueue` */
    method RestoreQueue(file: seq<T.Line>)
      modifies this`queue, this`births, this`transmissions, this`refused, this`metrics
      ensures View() == T.Restore(old(View()), file)
    {
      var lines := if config.maxQueueSize == 0 then [] else file;
      var surplus := if |lines| > config.maxQueueSize then |lines| - config.maxQueueSize else 0;
      refused := refused + surplus;
      metrics := metrics.(dropped := metrics.dropped + surplus);
      RestoreLines(T.Newest(lines, config.maxQueueSize));
    }

    method SetEnabled(on: bool, file: seq<T.Line>)
      modifies this
      ensures View() == T.Step(old(View()), T.SetEnabled(on, file))
    {
      if enabled == on { return; }
      enabled := on;
      if on && !restored {
        RestoreQueue(file);
        restored := true;
      }
    }
  }

  lemma PutBackFirst(s: T.State, batch: seq<T.Envelope>)
    requires batch != []
    ensures T.PutBack(s, batch) == T.PutBack(T.PutBack(s, [batch[0]]), batch[1..])
  {
    assert [batch[0]][1..] == [];
  }
}
