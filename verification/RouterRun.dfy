/**
 A routed model call from end to end: `execute` builds its list of attempts from the requested
 model and the configured fallbacks, and makes its provider calls along that list.
 */
module RouterRun {
  import opened Prelude
  import opened RouterPlan
  import opened RouterExecution
  import opened RouterContent

  datatype Request = Request(
    requested: ModelRef,
    configured: seq<ModelRef>,         // the fallbacks of the scenario
    explicit: bool,                    // the user named the model
    maxFallbacks: Option<int>,
    caps: Capabilities,
    required: seq<string>)             // the media the request needs

  function Candidates(q: Request): seq<ModelRef> {
    [q.requested] + Fallbacks(q.configured, q.explicit, q.maxFallbacks)
  }

  function Plans(q: Request): seq<AttemptPlan> {
    AttemptPlans(q.requested, Fallbacks(q.configured, q.explicit, q.maxFallbacks), q.caps, q.required)
  }

  /** How many of the configured fallbacks take part: none for a model the user named, and five unless configured otherwise. */
  function PlannedFallbacks(q: Request): nat {
    var cap := match q.maxFallbacks case None => 5 case Some(n) => if n > 0 then n else 0;
    if q.explicit then 0 else if |q.configured| < cap then |q.configured| else cap
  }

  /** The surroundings of a call whose attempts are those of the request. */
  function Routed(q: Request, w: World): World {
    w.(models := seq(|Plans(q)|, k requires 0 <= k < |Plans(q)| =>
                   (Plans(q)[k].attempt.provider, Plans(q)[k].attempt.model)))
  }

  lemma {:induction false} MorePlansMoreCalls(n: nat, m: nat, max: nat)
    requires n <= m
    ensures n * max <= m * max
    decreases m
  {
    if n < m {
      MorePlansMoreCalls(n, m - 1, max);
      assert m * max == (m - 1) * max + max;
    } else {
    }
  }

  /** `execute` while the router is enabled. */
  method ExecuteRequest(q: Request, w: World, cfg: Settings)
    returns (out: seq<ModelEvent>, log: seq<Call>, stats: nat, result: Result)
    ensures Explained(Routed(q, w), cfg, log) && Concluded(Routed(q, w), cfg, log, out, result)
    ensures Content(out) == AllContent(Routed(q, w), log)
    ensures |log| <= |Candidates(q)| * ZeroUsageMax(cfg) + TransientMax(cfg)
    ensures |Candidates(q)| == 1 + PlannedFallbacks(q)
    ensures stats == if result.Succeeded? || result.Failed? then 1 else 0
  {
    var fallbacks := Fallbacks(q.configured, q.explicit, q.maxFallbacks);
    NeverEmpty(q.requested, fallbacks, q.caps, q.required);
    NoMoreThanCandidates(q.requested, fallbacks, q.caps, q.required);
    MorePlansMoreCalls(|Plans(q)|, |Candidates(q)|, ZeroUsageMax(cfg));
    out, log, stats, result := Execute(Routed(q, w), cfg);
    ContentIsConserved(Routed(q, w), cfg, log, out, result);
  }

  // ---------------------------------------------------------------- the models of a run

  function ModelOf(q: Request, c: Call): ModelRef {
    if c.plan < |Plans(q)| then Plans(q)[c.plan].attempt else q.requested
  }

  /** A run goes down the list and never back. */
  lemma {:induction false} PlansAscend(w: World, cfg: Settings, log: seq<Call>, i: nat, j: nat)
    requires Explained(w, cfg, log) && i <= j < |log|
    ensures log[i].plan <= log[j].plan
    decreases j
  {
    if i < j {
      PlansAscend(w, cfg, log, i, j - 1);
      assert Proceeds(w, cfg, log[j - 1], log[j]);
    } else {
    }
  }

  /** No two plans of a request are for the same provider and model. */
  lemma PlansDiffer(q: Request, k: nat, l: nat)
    requires k < |Plans(q)| && l < |Plans(q)| && SameModel(Plans(q)[k].attempt, Plans(q)[l].attempt)
    ensures k == l
  {
    var fallbacks := Fallbacks(q.configured, q.explicit, q.maxFallbacks);
    if k < l {
      var _, _ := StablePartition(q.requested, fallbacks, q.caps, q.required, k, l);
    } else if l < k {
      var _, _ := StablePartition(q.requested, fallbacks, q.caps, q.required, l, k);
    }
  }

  /**
   A run turns to each provider and model once: between two calls to the same model there are
   only calls to that model, so one that has been left is never called again.
   */
  lemma EachModelOnce(q: Request, w: World, cfg: Settings, log: seq<Call>, i: nat, j: nat, k: nat)
    requires Explained(Routed(q, w), cfg, log) && i <= j <= k < |log|
    requires SameModel(ModelOf(q, log[i]), ModelOf(q, log[k]))
    ensures log[j].plan == log[i].plan == log[k].plan
  {
    PlansDiffer(q, log[i].plan, log[k].plan);
    PlansAscend(Routed(q, w), cfg, log, i, j);
    PlansAscend(Routed(q, w), cfg, log, j, k);
  }

  /** Every call goes to the requested model or a fallback, and its media are downgraded exactly if the model needs that. */
  lemma CallsGoToCandidates(q: Request, w: World, cfg: Settings, log: seq<Call>, i: nat)
    requires Explained(Routed(q, w), cfg, log) && i < |log|
    ensures log[i].plan < |Plans(q)| && ModelOf(q, log[i]) in Candidates(q)
    ensures Plans(q)[log[i].plan].downgrade <==>
              exists m <- q.required :: m !in q.caps(ModelOf(q, log[i]).provider, ModelOf(q, log[i]).model)
  {
    assert Plannable(Routed(q, w), log[i].plan);
    PlanAt(q.requested, Fallbacks(q.configured, q.explicit, q.maxFallbacks), q.caps, q.required, log[i].plan);
  }

  /** The requested model has a plan, and so has every configured fallback up to the cap. */
  lemma CandidatesArePlanned(q: Request, i: nat)
    requires i <= PlannedFallbacks(q)
    ensures var ref := if i == 0 then q.requested else q.configured[i - 1];
            exists k | 0 <= k < |Plans(q)| :: SameModel(Plans(q)[k].attempt, ref)
  {
    var fallbacks := Fallbacks(q.configured, q.explicit, q.maxFallbacks);
    var ref := if i == 0 then q.requested else q.configured[i - 1];
    assert ([q.requested] + fallbacks)[i] == ref;
    EveryModelOnce(q.requested, fallbacks, q.caps, q.required, ref);
    var plans := AttemptPlans(q.requested, fallbacks, q.caps, q.required);
    var k :| 0 <= k < |plans| && SameModel(plans[k].attempt, ref);
    assert Plans(q)[k] == plans[k];
  }

  /** A call has been made under the plan. */
  predicate CalledUnder(log: seq<Call>, plan: nat) {
    exists i | 0 <= i < |log| :: log[i].plan == plan
  }

  /** A run passes over a plan only if it is neither the first nor the last and its provider is unhealthy. */
  lemma {:induction false} CalledOrSkipped(w: World, cfg: Settings, log: seq<Call>, n: nat, plan: nat)
    requires Explained(w, cfg, log) && n < |log| && plan <= log[n].plan
    ensures CalledUnder(log, plan) || (0 < plan < |w.models| - 1 && w.skip(plan))
    decreases n
  {
    assert log[0] == Call(0, 1);
    if log[n].plan != plan {
      assert Proceeds(w, cfg, log[n - 1], log[n]);
      if plan <= log[n - 1].plan {
        CalledOrSkipped(w, cfg, log, n - 1, plan);
      } else {
        assert IsFallback(w, log[n - 1], log[n]);
      }
    }
  }

  /** No content has been shown. */
  predicate Silent(w: World, c: Call) { forall e <- w.respond(c).events :: !IsContent(e) }

  /**
   A run that shows nothing and ends with an error another model might not have had has tried
   them all: it has made calls under every plan but the unhealthy ones, and under the first
   and the last of all.
   */
  lemma FailedRunTriedAll(q: Request, w: World, cfg: Settings, log: seq<Call>, out: seq<ModelEvent>, result: Result, plan: nat)
    requires Explained(Routed(q, w), cfg, log) && Concluded(Routed(q, w), cfg, log, out, result) && result.Failed?
    requires Silent(w, log[|log| - 1]) && Eligible(result.error) && plan < |Plans(q)|
    ensures log[|log| - 1].plan == |Plans(q)| - 1
    ensures CalledUnder(log, plan) || (0 < plan < |Plans(q)| - 1 && w.skip(plan))
  {
    var u := Routed(q, w);
    assert Recoverable(u, log[|log| - 1]);
    CalledOrSkipped(u, cfg, log, |log| - 1, plan);
  }

  /** A call under a plan other than the last is never a transient retry, and one under the last comes after as many calls as there were. */
  lemma {:induction false} RetriesAreIterations(w: World, cfg: Settings, log: seq<Call>)
    requires Explained(w, cfg, log) && log != []
    ensures Transients(w, cfg, log) <= if log[|log| - 1].plan == |w.models| - 1 then log[|log| - 1].iteration - 1 else 0
    decreases |log|
  {
    assert log[0] == Call(0, 1);
    if |log| > 1 {
      var init := log[..|log| - 1];
      forall i | 0 < i < |init| ensures Proceeds(w, cfg, init[i - 1], init[i]) { assert Proceeds(w, cfg, log[i - 1], log[i]); }
      RetriesAreIterations(w, cfg, init);
      assert Proceeds(w, cfg, log[|log| - 1 - 1], log[|log| - 1]);
    }
  }

  /** ... and, unless transient retries are switched off, it has retried the last of them as often as it may. */
  lemma FailedRunRetried(q: Request, w: World, cfg: Settings, log: seq<Call>, out: seq<ModelEvent>, result: Result)
    requires Explained(Routed(q, w), cfg, log) && Concluded(Routed(q, w), cfg, log, out, result) && result.Failed?
    requires Silent(w, log[|log| - 1]) && Eligible(result.error)
    requires cfg.transientEnabled != Some(false)
    ensures log[|log| - 1].iteration > TransientMax(cfg)
  {
    var u := Routed(q, w);
    assert Recoverable(u, log[|log| - 1]);
    RetriesAreIterations(u, cfg, log);
  }

  /** A run succeeds with a blank response only after the last try, or if such tries are switched off. */
  lemma BlankSuccessIsLast(q: Request, w: World, cfg: Settings, log: seq<Call>, out: seq<ModelEvent>)
    requires Explained(Routed(q, w), cfg, log) && Concluded(Routed(q, w), cfg, log, out, Succeeded)
    requires Silent(w, log[|log| - 1]) && EmptyResponse(w.respond(log[|log| - 1]).events)
    ensures cfg.zeroUsageEnabled == Some(false) || log[|log| - 1].iteration >= ZeroUsageMax(cfg)
  {
    var last := log[|log| - 1];
    assert !IsZeroUsageRetry(Routed(q, w), cfg, last, Call(last.plan, last.iteration + 1));
  }

  // ---------------------------------------------------------------- what counts as what

  /** Which errors another model, or another try, may cure. */
  lemma EligibleErrors(error: ModelError)
    ensures error.code in ["invalid_tool_arguments", "billing", "model_not_found", "auth_error"] ==> Eligible(error)
    ensures error.code in ["prompt_too_long", "request_too_large", "context_overflow"] ==> !Eligible(error)
    ensures error.code !in ["invalid_tool_arguments", "billing", "model_not_found", "auth_error",
                            "prompt_too_long", "request_too_large", "context_overflow"] ==>
              (Eligible(error) <==> error.retryable && !error.viaCompact && !error.viaImageStrip)
  {
  }

  /** Both limits are 5 unless configured, and never less than one. */
  lemma RetryLimits(cfg: Settings)
    ensures cfg.zeroUsageMax.None? ==> ZeroUsageMax(cfg) == 5
    ensures cfg.transientMax.None? ==> TransientMax(cfg) == 5
    ensures cfg.zeroUsageMax.Some? ==> ZeroUsageMax(cfg) == if cfg.zeroUsageMax.value >= 1 then cfg.zeroUsageMax.value else 1
    ensures cfg.transientMax.Some? ==> TransientMax(cfg) == if cfg.transientMax.value >= 1 then cfg.transientMax.value else 1
  {
  }

  /** The error of an attempt is its rejection, or else the last error event. */
  lemma {:induction false} LastErrorCounts(events: seq<ModelEvent>, i: nat)
    requires i < |events| && events[i].ErrorEvent? && forall j | i < j < |events| :: !events[j].ErrorEvent?
    ensures LastError(events) == Some(events[i].error)
    decreases |events|
  {
    if i < |events| - 1 {
      LastErrorCounts(events[..|events| - 1], i);
    } else {
    }
  }

  lemma {:induction false} LastUsageCounts(events: seq<ModelEvent>, i: nat)
    requires i < |events| && events[i].UsageReport? && forall j | i < j < |events| :: !events[j].UsageReport?
    ensures LastUsage(events) == Some(events[i].usage)
    decreases |events|
  {
    if i < |events| - 1 {
      LastUsageCounts(events[..|events| - 1], i);
    } else {
    }
  }

  lemma {:induction false} NoUsage(events: seq<ModelEvent>)
    requires forall e <- events :: !e.UsageReport?
    ensures LastUsage(events) == None
    decreases |events|
  {
    if events == [] {
    } else {
      NoUsage(events[..|events| - 1]);
    }
  }

  /** A response that reports tokens, says something or ends with an error is not blank; a finished one that does none of it is. */
  lemma BlankResponses(events: seq<ModelEvent>, i: nat)
    requires i < |events|
    ensures events[i].TextDelta? && events[i].text != "" ==> !EmptyResponse(events)
    ensures events[i].ToolCallDelta? && events[i].delta != "" ==> !EmptyResponse(events)
    ensures events[i].ToolCallEnd? || events[i].ErrorEvent? ==> !EmptyResponse(events)
    ensures events[i].MessageEnd? && (forall e <- events :: !e.UsageReport? && !e.ErrorEvent? && !IsContent(e)) ==>
              EmptyResponse(events)
    ensures events[i].UsageReport? && (forall j | i < j < |events| :: !events[j].UsageReport?) ==>
              var u := events[i].usage;
              EmptyResponse(events) ==> u.total + u.input + u.output + u.cacheRead + u.cacheWrite == 0
  {
    if IsAnswer(events[i]) { assert HasAnswer(events); }
    if forall e <- events :: !e.UsageReport? { NoUsage(events); }
    if events[i].UsageReport? && (forall j | i < j < |events| :: !events[j].UsageReport?) { LastUsageCounts(events, i); }
  }

  /** Content is what the user sees: text, thinking and tool calls. */
  lemma WhatIsContent(e: ModelEvent)
    ensures IsContent(e) <==> !(e.RequestStarted? || e.MessageStart? || e.MessageEnd? || e.UsageReport? || e.ErrorEvent?)
  {
  }

  /** What is replayed after a failure without content: everything that was buffered, in order ... */
  lemma {:induction false} FramingKeepsRest(events: seq<ModelEvent>)
    requires forall i | 0 <= i < |events| :: !events[i].ErrorEvent?
    ensures Framing(events) == events
    decreases |events|
  {
    if events == [] {
    } else {
      FramingKeepsRest(events[..|events| - 1]);
      assert events == events[..|events| - 1] + [events[|events| - 1]];
    }
  }

  lemma {:induction false} FramingOfConcat(a: seq<ModelEvent>, b: seq<ModelEvent>)
    ensures Framing(a + b) == Framing(a) + Framing(b)
    decreases |b|
  {
    if b == [] {
      assert a + b == a;
    } else {
      var init, last := b[..|b| - 1], b[|b| - 1];
      FramingOfConcat(a, init);
      assert (a + b)[..|a + b| - 1] == a + init && (a + b)[|a + b| - 1] == last;
    }
  }

  /** ... but the errors. */
  lemma FramingDropsErrors(before: seq<ModelEvent>, error: ModelError, after: seq<ModelEvent>)
    ensures Framing(before + [ErrorEvent(error)] + after) == Framing(before + after)
  {
    FramingOfConcat(before + [ErrorEvent(error)], after);
    FramingOfConcat(before, [ErrorEvent(error)]);
    FramingOfConcat(before, after);
    assert [ErrorEvent(error)][..0] == [];
  }

  // ---------------------------------------------------------------- the disabled router

  lemma {:induction false} ErrorsAreFound(events: seq<ModelEvent>)
    ensures LastError(events).Some? <==> exists e <- events :: e.ErrorEvent?
    decreases |events|
  {
    if events == [] {
    } else {
      ErrorsAreFound(events[..|events| - 1]);
      assert events == events[..|events| - 1] + [events[|events| - 1]];
    }
  }

  /** A disabled router loses no content, and its output has an error exactly if the attempt had one. */
  lemma PassThroughIsFaithful(r: Response)
    ensures Content(PassedThrough(r)) == Content(r.events) && r.events <= PassedThrough(r)
    ensures !r.ending.Aborted? ==> ((exists e <- PassedThrough(r) :: e.ErrorEvent?) <==> ErrorOf(r).Some?)
  {
    ErrorsAreFound(r.events);
    if PassedThrough(r) != r.events {
      var last := PassedThrough(r)[|r.events|];
      ContentOfConcat(r.events, [last]);
      assert Content([last]) == [] by { assert [last][1..] == []; }
      assert last in PassedThrough(r);
    }
  }
}
