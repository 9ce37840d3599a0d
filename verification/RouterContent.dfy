/**
 What the consumer of `RouterRuntime.execute` can rely on, whatever the providers do: the
 content it sees comes from one call only, and settings and surroundings fix the whole run.
 */
module RouterContent {
  import opened RouterExecution

  /** The content events, in order. */
  function Content(events: seq<ModelEvent>): seq<ModelEvent> {
    if events == [] then []
    else (if IsContent(events[0]) then [events[0]] else []) + Content(events[1..])
  }

  /** The content of all calls of a run, one call after the other. */
  function AllContent(w: World, log: seq<Call>): seq<ModelEvent> {
    if log == [] then [] else AllContent(w, log[..|log| - 1]) + Content(w.respond(log[|log| - 1]).events)
  }

  lemma {:induction false} ContentOfConcat(a: seq<ModelEvent>, b: seq<ModelEvent>)
    ensures Content(a + b) == Content(a) + Content(b)
  {
    if a == [] {
      assert a + b == b;
    } else {
      ContentOfConcat(a[1..], b);
      assert (a + b)[1..] == a[1..] + b && (a + b)[0] == a[0];
      var first := if IsContent(a[0]) then [a[0]] else [];
      assert first + (Content(a[1..]) + Content(b)) == (first + Content(a[1..])) + Content(b);
    }
  }

  lemma {:induction false} NoContent(events: seq<ModelEvent>)
    requires !HasContent(events)
    ensures Content(events) == [] && Content(Framing(events)) == []
    decreases |events|
  {
    if events == [] {
    } else {
      var init, last := events[..|events| - 1], events[|events| - 1];
      assert events == init + [last];
      assert !IsContent(last);
      NoContent(init);
      ContentOfConcat(init, [last]);
      ContentOfConcat(Framing(init), if last.ErrorEvent? then [] else [last]);
    }
  }

  /** No call but the last one delivered any content. */
  lemma {:induction false} RetriedCallsWereSilent(w: World, cfg: Settings, log: seq<Call>, i: nat)
    requires Explained(w, cfg, log) && i < |log| - 1
    ensures !HasContent(w.respond(log[i]).events)
  {
    assert Proceeds(w, cfg, log[i + 1 - 1], log[i + 1]);
  }

  lemma {:induction false} SilentCalls(w: World, log: seq<Call>)
    requires forall i | 0 <= i < |log| :: !HasContent(w.respond(log[i]).events)
    ensures AllContent(w, log) == []
    decreases |log|
  {
    if log == [] {
    } else {
      SilentCalls(w, log[..|log| - 1]);
      NoContent(w.respond(log[|log| - 1]).events);
    }
  }

  lemma {:induction false} OnlyTheLast(w: World, cfg: Settings, log: seq<Call>)
    requires Explained(w, cfg, log) && log != []
    ensures AllContent(w, log) == Content(w.respond(log[|log| - 1]).events)
  {
    var init := log[..|log| - 1];
    forall i | 0 <= i < |init|
      ensures !HasContent(w.respond(init[i]).events)
    {
      RetriedCallsWereSilent(w, cfg, log, i);
    }
    SilentCalls(w, init);
  }

  /** A run that ended between two calls had shown nothing, and its calls had nothing to show. */
  lemma EndedSilently(w: World, cfg: Settings, log: seq<Call>, out: seq<ModelEvent>, result: Result)
    requires Explained(w, cfg, log) && Concluded(w, cfg, log, out, result)
    requires result.AbortedBefore? || result.OverBudget? || result.AbortedDelay?
    ensures Content(out) == [] && AllContent(w, log) == []
  {
    NoContent(out);
    if log != [] {
      OnlyTheLast(w, cfg, log);
      NoContent(w.respond(log[|log| - 1]).events);
    }
  }

  /**
   Nothing is lost and nothing is shown twice: however the run ends, the content it yields is
   the content of all its calls, and all of that comes from the last one.
   */
  lemma ContentIsConserved(w: World, cfg: Settings, log: seq<Call>, out: seq<ModelEvent>, result: Result)
    requires Explained(w, cfg, log) && Concluded(w, cfg, log, out, result)
    ensures Content(out) == AllContent(w, log)
    ensures log != [] ==> AllContent(w, log) == Content(w.respond(log[|log| - 1]).events)
  {
    if log != [] {
      OnlyTheLast(w, cfg, log);
      var events := w.respond(log[|log| - 1]).events;
      if !HasContent(events) { NoContent(events); }
      if result.Failed? {
        var tail := if HasContent(events) then [] else Framing(events);
        ContentOfConcat(events + tail, [ErrorEvent(result.error)]);
        ContentOfConcat(events, tail);
      }
    }
    if result.AbortedBefore? || result.OverBudget? || result.AbortedDelay? {
      EndedSilently(w, cfg, log, out, result);
    }
  }

  // ---------------------------------------------------------------- the run is determined

  lemma PassedOver(w: World, from: Call, a: Call, b: Call)
    requires IsFallback(w, from, a) && Tried(w, a.plan) && IsFallback(w, from, b)
    ensures b.plan <= a.plan
  {
    assert from.plan < a.plan < b.plan ==> w.skip(a.plan);
  }

  lemma NextIsUnique(w: World, cfg: Settings, from: Call, a: Call, b: Call)
    requires Follows(w, cfg, from, a) && Tried(w, a.plan) && Follows(w, cfg, from, b) && Tried(w, b.plan)
    ensures a == b
  {
    if IsFallback(w, from, a) && IsFallback(w, from, b) {
      PassedOver(w, from, a, b);
      PassedOver(w, from, b, a);
    }
  }

  lemma {:induction false} SameCalls(w: World, cfg: Settings, a: seq<Call>, b: seq<Call>, n: nat)
    requires Explained(w, cfg, a) && Explained(w, cfg, b) && n <= |a| && n <= |b|
    ensures a[..n] == b[..n]
  {
    if n == 0 {
    } else {
      SameCalls(w, cfg, a, b, n - 1);
      if n >= 2 {
        assert a[n - 2] == a[..n - 1][n - 2] == b[..n - 1][n - 2] == b[n - 2];
        assert Proceeds(w, cfg, a[n - 1 - 1], a[n - 1]) && Proceeds(w, cfg, b[n - 1 - 1], b[n - 1]);
        NextIsUnique(w, cfg, a[n - 2], a[n - 1], b[n - 1]);
      }
      assert a[..n] == a[..n - 1] + [a[n - 1]] && b[..n] == b[..n - 1] + [b[n - 1]];
    }
  }

  lemma {:induction false} TransientsGrow(w: World, cfg: Settings, log: seq<Call>, n: nat)
    requires n <= |log|
    ensures Transients(w, cfg, log[..n]) <= Transients(w, cfg, log)
    decreases |log|
  {
    if n == |log| {
      assert log[..n] == log;
    } else {
      TransientsGrow(w, cfg, log[..|log| - 1], n);
      assert log[..|log| - 1][..n] == log[..n];
    }
  }

  /** A plan that ended the run cannot also have been passed over. */
  lemma ReachedOnce(w: World, log: seq<Call>, p: nat, q: nat)
    requires Reaches(w, log, p) && Reaches(w, log, q) && (w.abortedAt(p) || Tried(w, p))
    ensures q <= p
  {
    if log != [] {
      assert log[|log| - 1].plan < p < q ==> w.skip(p) && !w.abortedAt(p);
    }
  }

  /** A concluded run makes no further call. */
  lemma ConcludedRunStops(w: World, cfg: Settings, log: seq<Call>, out: seq<ModelEvent>, result: Result, next: Call)
    requires Explained(w, cfg, log) && Concluded(w, cfg, log, out, result)
    requires Plannable(w, next.plan) && Transients(w, cfg, log + [next]) <= TransientMax(cfg)
    ensures !MayFollow(w, cfg, log, next)
  {
    if MayFollow(w, cfg, log, next) {
      Appended(w, cfg, log, next);
      if result.AbortedDelay? {
        NextIsUnique(w, cfg, log[|log| - 1], Call(log[|log| - 1].plan, log[|log| - 1].iteration + 1), next);
      } else if log != [] && (result.AbortedBefore? || result.OverBudget?) {
        PassedOver(w, log[|log| - 1], next, Call(result.plan, 1));
        ReachedOnce(w, log, result.plan, next.plan);
      }
    }
  }

  lemma SameLength(w: World, cfg: Settings, a: seq<Call>, outA: seq<ModelEvent>, resultA: Result, b: seq<Call>)
    requires Explained(w, cfg, a) && Concluded(w, cfg, a, outA, resultA)
    requires Explained(w, cfg, b) && Transients(w, cfg, b) <= TransientMax(cfg)
    ensures |b| <= |a|
  {
    if |a| < |b| {
      SameCalls(w, cfg, a, b, |a|);
      OneLonger(w, cfg, a, b);
      NextIsReasonable(w, cfg, a, b);
      ConcludedRunStops(w, cfg, a, outA, resultA, b[|a|]);
    }
  }

  /** A leading part and its next call have no more transient retries than the whole log. */
  lemma OneLonger(w: World, cfg: Settings, a: seq<Call>, b: seq<Call>)
    requires |a| < |b| && a[..|a|] == b[..|a|]
    ensures a == b[..|a|] && Transients(w, cfg, a + [b[|a|]]) <= Transients(w, cfg, b)
  {
    assert a[..|a|] == a;
    Prefixed(a, b);
    TransientsGrow(w, cfg, b, |a| + 1);
  }

  lemma Prefixed(a: seq<Call>, b: seq<Call>)
    requires |a| < |b| && a == b[..|a|]
    ensures b[..|a| + 1] == a + [b[|a|]]
  {
  }

  /** The call that follows a leading part of an explained run may follow it. */
  lemma NextIsReasonable(w: World, cfg: Settings, a: seq<Call>, b: seq<Call>)
    requires Explained(w, cfg, b) && |a| < |b| && a == b[..|a|]
    ensures MayFollow(w, cfg, a, b[|a|]) && Plannable(w, b[|a|].plan)
  {
    if a != [] {
      assert b[|a| - 1] == b[..|a|][|a| - 1];
      assert Proceeds(w, cfg, b[|a| - 1], b[|a|]);
    }
  }

  lemma SameEnd(w: World, cfg: Settings, log: seq<Call>, outA: seq<ModelEvent>, a: Result, outB: seq<ModelEvent>, b: Result)
    requires Explained(w, cfg, log) && Concluded(w, cfg, log, outA, a) && Concluded(w, cfg, log, outB, b)
    ensures outA == outB && a == b
  {
    if (a.AbortedBefore? || a.OverBudget?) && (b.AbortedBefore? || b.OverBudget?) {
      ReachedOnce(w, log, a.plan, b.plan);
      ReachedOnce(w, log, b.plan, a.plan);
    }
  }

  /** The contract of `Execute` leaves no freedom: calls, output and result are determined. */
  lemma RunIsDetermined(w: World, cfg: Settings, logA: seq<Call>, outA: seq<ModelEvent>, a: Result,
                        logB: seq<Call>, outB: seq<ModelEvent>, b: Result)
    requires Explained(w, cfg, logA) && Concluded(w, cfg, logA, outA, a) && Transients(w, cfg, logA) <= TransientMax(cfg)
    requires Explained(w, cfg, logB) && Concluded(w, cfg, logB, outB, b) && Transients(w, cfg, logB) <= TransientMax(cfg)
    ensures logA == logB && outA == outB && a == b
  {
    SameLength(w, cfg, logA, outA, a, logB);
    SameLength(w, cfg, logB, outB, b, logA);
    SameCalls(w, cfg, logA, logB, |logA|);
    assert logA == logA[..|logA|] == logB[..|logA|] == logB;
    SameEnd(w, cfg, logA, outA, a, outB, b);
  }
}
