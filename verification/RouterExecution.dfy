/**
 `RouterRuntime.execute`: one model call streamed through a list of attempt plans, with
 provider fallback, transient retries and zero-usage retries.

 The provider is an oracle: what the `iteration`-th call under the `plan`-th attempt plan
 streams before it ends, and how it ends.  Health skips, the sub-agent budget and aborts are
 oracles too.  The method records its provider calls; its contract explains every one of
 them and pins down the events it yields.
 */
module RouterExecution {
  import opened Prelude

  const ZERO_USAGE_DEFAULT := 5
  const TRANSIENT_DEFAULT := 5

  datatype ModelError = ModelError(
    code: string, retryable: bool, viaCompact: bool, viaImageStrip: bool, provider: string, model: string)

  datatype Usage = Usage(total: int, input: int, output: int, cacheRead: int, cacheWrite: int)

  datatype ModelEvent =
    | RequestStarted(provider: string, model: string)
    | MessageStart
    | TextDelta(text: string)
    | ThinkingDelta(text: string)
    | ToolCallStart(id: string)
    | ToolCallDelta(id: string, delta: string)
    | ToolCallEnd(id: string)
    | MessageEnd
    | UsageReport(usage: Usage)
    | ErrorEvent(error: ModelError)

  datatype Ending = Completed | Rejected(error: ModelError) | Aborted

  datatype Response = Response(events: seq<ModelEvent>, ending: Ending)

  datatype Call = Call(plan: nat, iteration: nat)

  datatype Settings = Settings(
    zeroUsageEnabled: Option<bool>, zeroUsageMax: Option<int>, transientEnabled: Option<bool>, transientMax: Option<int>)

  /** Everything the call meets outside the router; `models` names the attempt of each plan. */
  datatype World = World(
    models: seq<(string, string)>,
    respond: Call -> Response,
    skip: nat -> bool,                 // the health tracker's shouldSkip, when plan k comes up
    abortedAt: nat -> bool,            // aborted when plan k comes up
    abortedPreparing: nat -> bool,     // aborted while the request of plan k is being prepared
    overBudget: nat -> bool,           // the sub-agent budget does not fit plan k
    abortedDelay: Call -> bool)        // aborted during the delay after this call

  datatype Result =
    | Succeeded
    | Failed(error: ModelError)
    | OverBudget(plan: nat)
    | AbortedBefore(plan: nat)
    | AbortedDelay
    | AbortedInStream

  // ---------------------------------------------------------------- what an attempt amounts to

  predicate IsContent(e: ModelEvent) {
    e.TextDelta? || e.ThinkingDelta? || e.ToolCallStart? || e.ToolCallDelta? || e.ToolCallEnd?
  }

  predicate HasContent(events: seq<ModelEvent>) {
    exists e <- events :: IsContent(e)
  }

  predicate HasAnswer(events: seq<ModelEvent>) {
    exists e <- events :: IsAnswer(e)
  }

  function LastError(events: seq<ModelEvent>): Option<ModelError> {
    if events == [] then None
    else if events[|events| - 1].ErrorEvent? then Some(events[|events| - 1].error)
    else LastError(events[..|events| - 1])
  }

  function LastUsage(events: seq<ModelEvent>): Option<Usage> {
    if events == [] then None
    else if events[|events| - 1].UsageReport? then Some(events[|events| - 1].usage)
    else LastUsage(events[..|events| - 1])
  }

  /** The error of an attempt that was not aborted. */
  function ErrorOf(r: Response): Option<ModelError> {
    if r.ending.Rejected? then Some(r.ending.error) else LastError(r.events)
  }

  function TotalTokens(u: Usage): int {
    u.total + u.input + u.output + u.cacheRead + u.cacheWrite
  }

  predicate IsAnswer(e: ModelEvent) {
    (e.TextDelta? && |e.text| > 0) || (e.ToolCallDelta? && |e.delta| > 0) || e.ToolCallEnd?
  }

  /** A finished, error-free response without any answer that used no tokens. */
  predicate EmptyResponse(events: seq<ModelEvent>) {
    && (forall e <- events :: !e.ErrorEvent?)
    && (exists e <- events :: e.MessageEnd?)
    && !HasAnswer(events)
    && (LastUsage(events).Some? ==> TotalTokens(LastUsage(events).value) == 0)
  }

  /** `isFallbackEligible` */
  predicate Eligible(error: ModelError) {
    if error.code in {"invalid_tool_arguments", "billing", "model_not_found", "auth_error"} then true
    else error.retryable && !error.viaCompact && !error.viaImageStrip
         && error.code !in {"prompt_too_long", "request_too_large", "context_overflow"}
  }

  function AtLeastOne(n: int): nat { if n < 1 then 1 else n }

  function ZeroUsageMax(cfg: Settings): nat { AtLeastOne(cfg.zeroUsageMax.GetOr(ZERO_USAGE_DEFAULT)) }

  function TransientMax(cfg: Settings): nat { AtLeastOne(cfg.transientMax.GetOr(TRANSIENT_DEFAULT)) }

  // ---------------------------------------------------------------- why a call is made

  /** The call failed before any content, with an error another try may cure. */
  predicate Recoverable(w: World, c: Call) {
    var r := w.respond(c);
    !r.ending.Aborted? && !HasContent(r.events) && ErrorOf(r).Some? && Eligible(ErrorOf(r).value)
  }

  /** The call ended well but with nothing in it. */
  predicate Blank(w: World, c: Call) {
    var r := w.respond(c);
    !r.ending.Aborted? && !HasContent(r.events) && ErrorOf(r).None? && EmptyResponse(r.events)
  }

  predicate IsFallback(w: World, from: Call, to: Call) {
    && Recoverable(w, from) && from.plan < to.plan < |w.models| && to.iteration == 1
    && forall k | from.plan < k < to.plan :: w.skip(k) && !w.abortedAt(k)
  }

  predicate IsTransientRetry(w: World, cfg: Settings, from: Call, to: Call) {
    && Recoverable(w, from) && cfg.transientEnabled.GetOr(true)
    && from.plan == |w.models| - 1 && to == Call(from.plan, from.iteration + 1)
  }

  predicate IsZeroUsageRetry(w: World, cfg: Settings, from: Call, to: Call) {
    && Blank(w, from) && cfg.zeroUsageEnabled.GetOr(true) && from.iteration < ZeroUsageMax(cfg)
    && to == Call(from.plan, from.iteration + 1)
  }

  predicate Follows(w: World, cfg: Settings, from: Call, to: Call) {
    IsFallback(w, from, to) || IsTransientRetry(w, cfg, from, to) || IsZeroUsageRetry(w, cfg, from, to)
  }

  /** The first and the last plan are tried whatever their health. */
  predicate Tried(w: World, plan: nat) {
    plan < |w.models| && (plan == 0 || plan == |w.models| - 1 || !w.skip(plan))
  }

  /** A plan under which calls are made. */
  predicate Plannable(w: World, plan: nat) {
    Tried(w, plan) && !w.abortedAt(plan) && !w.abortedPreparing(plan) && !w.overBudget(plan)
  }

  predicate Proceeds(w: World, cfg: Settings, from: Call, to: Call) {
    Follows(w, cfg, from, to) && (from.plan == to.plan ==> !w.abortedDelay(from))
  }

  /** Every provider call is the first one, or a retry or fallback its predecessor gives reason for. */
  predicate Explained(w: World, cfg: Settings, log: seq<Call>) {
    && (log != [] ==> log[0] == Call(0, 1))
    && (forall i | 0 <= i < |log| :: Plannable(w, log[i].plan))
    && forall i | 0 < i < |log| :: Proceeds(w, cfg, log[i - 1], log[i])
  }

  /** The transient retries in a log. */
  function Transients(w: World, cfg: Settings, log: seq<Call>): nat {
    if |log| < 2 then 0
    else Transients(w, cfg, log[..|log| - 1])
         + (if IsTransientRetry(w, cfg, log[|log| - 2], log[|log| - 1]) then 1 else 0)
  }

  predicate MayFollow(w: World, cfg: Settings, log: seq<Call>, next: Call) {
    if log == [] then next == Call(0, 1) else Proceeds(w, cfg, log[|log| - 1], next)
  }

  /** The outer loop comes to plan `plan`. */
  predicate Reaches(w: World, log: seq<Call>, plan: nat) {
    if log == [] then plan == 0 else IsFallback(w, log[|log| - 1], Call(plan, 1))
  }

  /** The response is what the caller asked for; nothing is left to retry. */
  predicate Succeeds(w: World, cfg: Settings, last: Call, out: seq<ModelEvent>) {
    var r := w.respond(last);
    && !r.ending.Aborted? && ErrorOf(r).None? && out == r.events
    && !IsZeroUsageRetry(w, cfg, last, Call(last.plan, last.iteration + 1))
  }

  /** No plan is left to fall back to and no transient retry, or content was already shown. */
  predicate Exhausted(w: World, cfg: Settings, last: Call, transients: nat) {
    Recoverable(w, last) ==>
      last.plan == |w.models| - 1 && (cfg.transientEnabled.GetOr(true) ==> transients == TransientMax(cfg))
  }

  predicate Fails(w: World, cfg: Settings, last: Call, transients: nat, out: seq<ModelEvent>, error: ModelError) {
    var r := w.respond(last);
    && last.plan < |w.models| && !r.ending.Aborted? && ErrorOf(r).Some?
    && error == ErrorOf(r).value.(provider := w.models[last.plan].0, model := w.models[last.plan].1)
    && out == r.events + (if HasContent(r.events) then [] else Framing(r.events)) + [ErrorEvent(error)]
    && Exhausted(w, cfg, last, transients)
  }

  predicate AbortsInStream(w: World, last: Call, out: seq<ModelEvent>) {
    var r := w.respond(last);
    r.ending.Aborted? && out == if HasContent(r.events) then r.events else []
  }

  predicate AbortsDelay(w: World, cfg: Settings, last: Call, transients: nat, out: seq<ModelEvent>) {
    && out == [] && w.abortedDelay(last) && Follows(w, cfg, last, Call(last.plan, last.iteration + 1))
    && (Recoverable(w, last) ==> transients < TransientMax(cfg))
  }

  /** The end of a run: why it ended, and what it yielded. */
  predicate Concluded(w: World, cfg: Settings, log: seq<Call>, out: seq<ModelEvent>, result: Result) {
    match result
    case AbortedBefore(plan) =>
      && out == [] && Reaches(w, log, plan)
      && (w.abortedAt(plan) || (Tried(w, plan) && w.abortedPreparing(plan)))
    case OverBudget(plan) =>
      && Reaches(w, log, plan) && Tried(w, plan) && !w.abortedAt(plan) && !w.abortedPreparing(plan) && w.overBudget(plan)
      && out == [BudgetError(w.models[plan])]
    case AbortedDelay => log != [] && AbortsDelay(w, cfg, log[|log| - 1], Transients(w, cfg, log), out)
    case AbortedInStream => log != [] && AbortsInStream(w, log[|log| - 1], out)
    case Succeeded => log != [] && Succeeds(w, cfg, log[|log| - 1], out)
    case Failed(error) => log != [] && Fails(w, cfg, log[|log| - 1], Transients(w, cfg, log), out, error)
  }

  function BudgetError(model: (string, string)): ModelEvent {
    ErrorEvent(ModelError("subagent_budget_exceeded", false, false, false, model.0, ""))
  }

  /** The events that are not errors. */
  function Framing(events: seq<ModelEvent>): seq<ModelEvent> {
    if events == [] then []
    else Framing(events[..|events| - 1])
         + (if events[|events| - 1].ErrorEvent? then [] else [events[|events| - 1]])
  }

  // ---------------------------------------------------------------- streaming one attempt

  /** The outcome `streamAttempt` reports once it has relayed the events. */
  method ObserveAttempt(r: Response) returns (buffered: seq<ModelEvent>, error: Option<ModelError>, retryZeroUsage: bool)
    ensures buffered == r.events
    ensures error == ErrorOf(r)
    ensures retryZeroUsage == EmptyResponse(r.events)
  {
    var observedAnyText, observedFinish, observedError := false, false, false;
    var observedUsage: Option<Usage> := None;
    buffered, error := [], None;
    for i := 0 to |r.events|
      invariant buffered == r.events[..i]
      invariant error == LastError(r.events[..i])
      invariant observedUsage == LastUsage(r.events[..i])
      invariant observedAnyText <==> HasAnswer(r.events[..i])
      invariant observedFinish <==> exists e <- r.events[..i] :: e.MessageEnd?
      invariant observedError <==> exists e <- r.events[..i] :: e.ErrorEvent?
    {
      var event := r.events[i];
      assert r.events[..i + 1] == r.events[..i] + [event];
      assert HasAnswer(r.events[..i + 1]) <==> HasAnswer(r.events[..i]) || IsAnswer(event);
      if event.TextDelta? && |event.text| > 0 {
        observedAnyText := true;
      } else if event.ToolCallDelta? && |event.delta| > 0 {
        observedAnyText := true;
      } else if event.ToolCallEnd? {
        observedAnyText := true;
      } else if event.MessageEnd? {
        observedFinish := true;
      } else if event.UsageReport? {
        observedUsage := Some(event.usage);
      } else if event.ErrorEvent? {
        observedError := true;
      }
      buffered := buffered + [event];
      if event.ErrorEvent? {
        error := Some(event.error);
      }
    }
    assert r.events[..|r.events|] == r.events;
    if r.ending.Rejected? {
      error := Some(r.ending.error);
    }
    retryZeroUsage := !observedError && observedFinish && !observedAnyText
                      && (observedUsage.None? || TotalTokens(observedUsage.value) == 0);
  }

  /** The consumer's loop: framing events are held back until the first content event. */
  method Relay(events: seq<ModelEvent>) returns (out: seq<ModelEvent>, pending: seq<ModelEvent>, hasYieldedContent: bool)
    ensures hasYieldedContent == HasContent(events)
    ensures hasYieldedContent ==> out == events && pending == []
    ensures !hasYieldedContent ==> out == [] && pending == events
  {
    out, pending, hasYieldedContent := [], [], false;
    for i := 0 to |events|
      invariant hasYieldedContent == HasContent(events[..i])
      invariant hasYieldedContent ==> out == events[..i] && pending == []
      invariant !hasYieldedContent ==> out == [] && pending == events[..i]
    {
      var event := events[i];
      assert events[..i + 1] == events[..i] + [event];
      if !hasYieldedContent && IsContent(event) {
        out := out + pending;
        pending := [];
        out := out + [event];
        hasYieldedContent := true;
        continue;
      }
      if hasYieldedContent {
        out := out + [event];
        continue;
      }
      pending := pending + [event];
    }
    assert events[..|events|] == events;
  }

  /** The final loop over the buffered events of a failed attempt. */
  method WithoutErrors(buffered: seq<ModelEvent>) returns (out: seq<ModelEvent>)
    ensures out == Framing(buffered)
  {
    out := [];
    for i := 0 to |buffered|
      invariant out == Framing(buffered[..i])
    {
      assert buffered[..i + 1][..i] == buffered[..i];
      if !buffered[i].ErrorEvent? {
        out := out + [buffered[i]];
      }
    }
    assert buffered[..|buffered|] == buffered;
  }

  // ---------------------------------------------------------------- the whole call

  /** What the inner loop decides after one call. */
  datatype Verdict =
    | RetryTransient
    | RetryZeroUsage
    | FallBack
    | GiveUp(error: ModelError, hasYieldedContent: bool)
    | Finish(result: Result)

  /** The verdict on one call is the right one. */
  predicate Judged(w: World, cfg: Settings, call: Call, transients: nat, out: seq<ModelEvent>,
                   buffered: seq<ModelEvent>, verdict: Verdict)
  {
    match verdict
    case RetryTransient =>
      && IsTransientRetry(w, cfg, call, Call(call.plan, call.iteration + 1))
      && transients < TransientMax(cfg) && !w.abortedDelay(call)
    case RetryZeroUsage => IsZeroUsageRetry(w, cfg, call, Call(call.plan, call.iteration + 1)) && !w.abortedDelay(call)
    case FallBack => out == [] && Recoverable(w, call) && call.plan < |w.models| - 1
    case GiveUp(error, hasYieldedContent) =>
      && var r := w.respond(call);
      && buffered == out == r.events && hasYieldedContent == HasContent(r.events)
      && !r.ending.Aborted? && ErrorOf(r) == Some(error) && Exhausted(w, cfg, call, transients)
    case Finish(Succeeded) => Succeeds(w, cfg, call, out)
    case Finish(AbortedDelay) => AbortsDelay(w, cfg, call, transients, out)
    case Finish(AbortedInStream) => AbortsInStream(w, call, out)
    case Finish(_) => false
  }

  /** One pass through the inner loop of `execute`. */
  method TryOnce(w: World, cfg: Settings, call: Call, transientRetryCount: nat)
    returns (out: seq<ModelEvent>, buffered: seq<ModelEvent>, verdict: Verdict)
    requires call.plan < |w.models| && transientRetryCount <= TransientMax(cfg)
    ensures Judged(w, cfg, call, transientRetryCount, out, buffered, verdict)
  {
    var zeroUsageEnabled := cfg.zeroUsageEnabled.GetOr(true);
    var transientRetryEnabled := cfg.transientEnabled.GetOr(true);
    var response := w.respond(call);
    var pending, hasYieldedContent;
    out, pending, hasYieldedContent := Relay(response.events);
    if response.ending.Aborted? {
      return out, [], Finish(AbortedInStream);
    }
    var error, retryZeroUsage;
    buffered, error, retryZeroUsage := ObserveAttempt(response);
    if error.Some? {
      if !hasYieldedContent && Eligible(error.value) {
        if call.plan < |w.models| - 1 {
          return out, buffered, FallBack;
        }
      }
      if !hasYieldedContent && Eligible(error.value) && transientRetryEnabled && transientRetryCount < TransientMax(cfg) {
        return out, buffered, if w.abortedDelay(call) then Finish(AbortedDelay) else RetryTransient;
      }
      out := out + pending;
      return out, buffered, GiveUp(error.value, hasYieldedContent);
    }
    if !hasYieldedContent && zeroUsageEnabled && retryZeroUsage && call.iteration < ZeroUsageMax(cfg) {
      return out, buffered, if w.abortedDelay(call) then Finish(AbortedDelay) else RetryZeroUsage;
    }
    if !hasYieldedContent {
      out := out + pending;
    }
    return out, buffered, Finish(Succeeded);
  }

  lemma Appended(w: World, cfg: Settings, log: seq<Call>, next: Call)
    requires Explained(w, cfg, log) && MayFollow(w, cfg, log, next) && Plannable(w, next.plan)
    ensures Explained(w, cfg, log + [next])
    ensures Transients(w, cfg, log + [next])
         == Transients(w, cfg, log)
            + (if log != [] && IsTransientRetry(w, cfg, log[|log| - 1], next) then 1 else 0)
  {
    assert (log + [next])[..|log|] == log;
  }

  /** The log is explained so far, `next` is the call to make, and with it there are `transients` transient retries. */
  predicate Ready(w: World, cfg: Settings, log: seq<Call>, next: Call, transients: nat) {
    && Explained(w, cfg, log) && MayFollow(w, cfg, log, next) && Plannable(w, next.plan)
    && Transients(w, cfg, log + [next]) == transients <= TransientMax(cfg)
  }

  lemma FirstCall(w: World, cfg: Settings, made: seq<Call>, plan: nat)
    requires Explained(w, cfg, made) && Transients(w, cfg, made) == 0 && Plannable(w, plan) && Reaches(w, made, plan)
    ensures Ready(w, cfg, made, Call(plan, 1), 0)
  {
    Appended(w, cfg, made, Call(plan, 1));
  }

  /** A call has been made, and a retry is due. */
  lemma Retried(w: World, cfg: Settings, log: seq<Call>, call: Call, transients: nat, transient: bool)
    requires Ready(w, cfg, log, call, transients) && !w.abortedDelay(call)
    requires var next := Call(call.plan, call.iteration + 1);
             if transient then IsTransientRetry(w, cfg, call, next) && transients < TransientMax(cfg)
             else IsZeroUsageRetry(w, cfg, call, next)
    ensures Ready(w, cfg, log + [call], Call(call.plan, call.iteration + 1), if transient then transients + 1 else transients)
  {
    Appended(w, cfg, log, call);
    Appended(w, cfg, log + [call], Call(call.plan, call.iteration + 1));
  }

  lemma Made(w: World, cfg: Settings, log: seq<Call>, call: Call, transients: nat)
    requires Ready(w, cfg, log, call, transients)
    ensures Explained(w, cfg, log + [call]) && Transients(w, cfg, log + [call]) == transients
  {
    Appended(w, cfg, log, call);
  }

  /** The inner loop of `execute`: the calls made under one attempt plan. */
  method TryPlan(w: World, cfg: Settings, plan: nat, made: seq<Call>)
    returns (out: seq<ModelEvent>, log: seq<Call>, buffered: seq<ModelEvent>, verdict: Verdict)
    requires Plannable(w, plan)
    requires Explained(w, cfg, made) && Transients(w, cfg, made) == 0 && Reaches(w, made, plan)
    ensures Explained(w, cfg, log)
    ensures Transients(w, cfg, log) <= if plan == |w.models| - 1 then TransientMax(cfg) else 0
    ensures |made| < |log| <= |made| + ZeroUsageMax(cfg) + Transients(w, cfg, log)
    ensures log[|log| - 1].plan == plan
    ensures verdict.FallBack? || verdict.GiveUp? || verdict.Finish?
    ensures Judged(w, cfg, log[|log| - 1], Transients(w, cfg, log), out, buffered, verdict)
  {
    log := made;
    var zeroUsageAttempt, transientRetryCount := 0, 0;
    FirstCall(w, cfg, log, plan);
    while true
      invariant Ready(w, cfg, log, Call(plan, zeroUsageAttempt + 1), transientRetryCount)
      invariant plan < |w.models| - 1 ==> transientRetryCount == 0
      invariant zeroUsageAttempt <= ZeroUsageMax(cfg) - 1 + transientRetryCount
      invariant |log| == |made| + zeroUsageAttempt
      decreases ZeroUsageMax(cfg) + TransientMax(cfg) - zeroUsageAttempt
    {
      zeroUsageAttempt := zeroUsageAttempt + 1;
      var call := Call(plan, zeroUsageAttempt);
      out, buffered, verdict := TryOnce(w, cfg, call, transientRetryCount);
      if verdict.RetryTransient? || verdict.RetryZeroUsage? {
        Retried(w, cfg, log, call, transientRetryCount, verdict.RetryTransient?);
        transientRetryCount := if verdict.RetryTransient? then transientRetryCount + 1 else transientRetryCount;
        log := log + [call];
      } else {
        Made(w, cfg, log, call, transientRetryCount);
        log := log + [call];
        return;
      }
    }
  }

  /** What is relayed while the router is disabled: everything, and the error unless the stream showed one itself. */
  function PassedThrough(r: Response): seq<ModelEvent> {
    if r.ending.Aborted? || ErrorOf(r).None? || (exists e <- r.events :: e.ErrorEvent?) then r.events
    else r.events + [ErrorEvent(ErrorOf(r).value)]
  }

  /** `execute` while the router is disabled: one call, to the requested model, and no retry. */
  method PassThrough(w: World) returns (out: seq<ModelEvent>)
    ensures out == if w.abortedAt(0) || w.abortedPreparing(0) then [] else PassedThrough(w.respond(Call(0, 1)))
  {
    out := [];
    if w.abortedAt(0) || w.abortedPreparing(0) {
      return;
    }
    var response := w.respond(Call(0, 1));
    var sawErrorEvent := false;
    for i := 0 to |response.events|
      invariant out == response.events[..i]
      invariant sawErrorEvent <==> exists e <- response.events[..i] :: e.ErrorEvent?
    {
      assert response.events[..i + 1] == response.events[..i] + [response.events[i]];
      if response.events[i].ErrorEvent? {
        sawErrorEvent := true;
      }
      out := out + [response.events[i]];
    }
    assert response.events[..|response.events|] == response.events;
    if response.ending.Aborted? {
      return;
    }
    var _, error, _ := ObserveAttempt(response);
    if error.Some? && !sawErrorEvent {
      out := out + [ErrorEvent(error.value)];
    }
  }

  method Execute(w: World, cfg: Settings)
    returns (out: seq<ModelEvent>, log: seq<Call>, stats: nat, result: Result)
    requires |w.models| > 0
    ensures Explained(w, cfg, log) && Concluded(w, cfg, log, out, result)
    ensures Transients(w, cfg, log) <= TransientMax(cfg)
    ensures |log| <= |w.models| * ZeroUsageMax(cfg) + TransientMax(cfg)
    ensures stats == if result.Succeeded? || result.Failed? then 1 else 0
  {
    out, log, stats := [], [], 0;
    for attemptIndex := 0 to |w.models|
      invariant attemptIndex < |w.models|
      invariant out == [] && stats == 0
      invariant Explained(w, cfg, log) && Transients(w, cfg, log) == 0
      invariant |log| <= attemptIndex * ZeroUsageMax(cfg)
      invariant Reaches(w, log, attemptIndex)
    {
      MoreCalls(attemptIndex, |w.models|, ZeroUsageMax(cfg));
      if w.abortedAt(attemptIndex) {
        return out, log, stats, AbortedBefore(attemptIndex);
      }
      if attemptIndex > 0 && w.skip(attemptIndex) && attemptIndex < |w.models| - 1 {
        continue;
      }
      if w.abortedPreparing(attemptIndex) {
        return out, log, stats, AbortedBefore(attemptIndex);
      }
      if w.overBudget(attemptIndex) {
        return [BudgetError(w.models[attemptIndex])], log, stats, OverBudget(attemptIndex);
      }
      var lastBuffered, verdict;
      out, log, lastBuffered, verdict := TryPlan(w, cfg, attemptIndex, log);
      if !verdict.FallBack? {
        out, stats, result := Conclude(w, cfg, log, out, lastBuffered, verdict);
        return;
      }
    }
  }

  /** The tail of `execute`: record the statistics, and end a failed run with its error. */
  method Conclude(w: World, cfg: Settings, log: seq<Call>, yielded: seq<ModelEvent>, lastBuffered: seq<ModelEvent>,
                  verdict: Verdict)
    returns (out: seq<ModelEvent>, stats: nat, result: Result)
    requires log != [] && log[|log| - 1].plan < |w.models| && (verdict.GiveUp? || verdict.Finish?)
    requires Judged(w, cfg, log[|log| - 1], Transients(w, cfg, log), yielded, lastBuffered, verdict)
    ensures Concluded(w, cfg, log, out, result)
    ensures stats == if result.Succeeded? || result.Failed? then 1 else 0
  {
    out := yielded;
    if verdict.Finish? {
      stats := if verdict.result.Succeeded? then 1 else 0;
      result := verdict.result;
      return;
    }
    stats := 1;
    if !verdict.hasYieldedContent {
      var framing := WithoutErrors(lastBuffered);
      out := out + framing;
    }
    var attempt := w.models[log[|log| - 1].plan];
    var error := verdict.error.(provider := attempt.0, model := attempt.1);
    out := out + [ErrorEvent(error)];
    result := Failed(error);
  }

  lemma {:induction false} MoreCalls(k: nat, n: nat, max: nat)
    requires k < n
    ensures (k + 1) * max == k * max + max <= n * max
    decreases n
  {
    if n > k + 1 {
      MoreCalls(k, n - 1, max);
      assert n * max == (n - 1) * max + max;
    } else {
    }
  }
}
