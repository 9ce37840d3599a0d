/**
 The auto-compaction ladder of `DefaultContextRuntime` (`tryAutoCompact` and
 `runEmergencyCompaction`).

 Engines and the token budget are oracles, and the budget need not give the same answer
 twice.  The methods keep a trace of what they measured and ran; `Sound` says that every
 step was taken on the current transcript and for a measured reason.
 */
module Compaction {
  import opened Prelude

  const PRESSURE := 0.90
  const TARGET := 0.60

  /** Messages by identity. */
  type Transcript = seq<nat>

  datatype WarningState = Ok | Warning | Blocking

  datatype Snapshot = Snapshot(ratio: real, state: WarningState)

  /** `result` names the CompactionResult; `succeeded` is `compactionSummarySucceeded`. */
  datatype Summary = Summary(result: nat, succeeded: bool, messages: Transcript)

  datatype Projection = Projection(messages: Transcript, rewritten: nat)

  datatype Snipped = Snipped(messages: Transcript, applied: bool)

  datatype World = World(
    enabled: bool,                                          // a policy and a token budget are configured
    budget: (nat, Transcript) -> Snapshot,
    engine: Option<(bool, Transcript) -> Summary>,          // true: the emergency ("reactive") run
    micro: Option<(bool, Transcript) -> Projection>,        // true: the emergency projection
    snip: Option<Transcript -> Snipped>,
    truncate: Transcript -> Transcript,
    trailing: Transcript -> Transcript)                     // ensureTrailingUserMessage

  datatype Stage = Micro | AutoSummary | Snip | EmergencySummary | EmergencyProjection | Truncation

  datatype Reading = Reading(messages: Transcript, snapshot: Snapshot)

  datatype Step =
    | Measured(reading: Reading)
    | Ran(stage: Stage, before: Transcript, after: Transcript, changed: bool)

  datatype Tier = MicroTier | Full | Emergency

  datatype Outcome =
    | Skipped(snapshot: Snapshot)
    | Compacted(messages: Transcript, tier: Tier, snapshot: Snapshot, result: Option<nat>, overflow: bool)

  // ---------------------------------------------------------------- reading a trace

  function Rank(stage: Stage): nat {
    match stage
    case Micro => 1
    case AutoSummary => 2
    case Snip => 3
    case EmergencySummary => 4
    case EmergencyProjection => 5
    case Truncation => 6
  }

  /** The transcript after the steps of `trace`. */
  function Current(input: Transcript, trace: seq<Step>): Transcript {
    if trace == [] then input
    else if trace[|trace| - 1].Ran? then trace[|trace| - 1].after
    else Current(input, trace[..|trace| - 1])
  }

  /** The most recent measurement. */
  function Latest(trace: seq<Step>): Option<Reading> {
    if trace == [] then None
    else if trace[|trace| - 1].Measured? then Some(trace[|trace| - 1].reading)
    else Latest(trace[..|trace| - 1])
  }

  /** The highest stage reached. */
  function Highest(trace: seq<Step>): nat {
    if trace == [] then 0
    else if trace[|trace| - 1].Ran? then Rank(trace[|trace| - 1].stage)
    else Highest(trace[..|trace| - 1])
  }

  predicate Tried(trace: seq<Step>, stage: Stage) {
    exists i | 0 <= i < |trace| :: trace[i].Ran? && trace[i].stage == stage
  }

  /** Some stage other than the routine projection changed the transcript. */
  predicate Changed(trace: seq<Step>) {
    exists i | 0 <= i < |trace| :: trace[i].Ran? && trace[i].stage != Micro && trace[i].changed
  }

  /** The result of the last summary run that succeeded. */
  function LastSummary(w: World, trace: seq<Step>): Option<nat> {
    if trace == [] then None
    else
      var last := trace[|trace| - 1];
      if last.Ran? && IsSummary(last.stage) && last.changed && w.engine.Some?
      then Some(w.engine.value(last.stage.EmergencySummary?, last.before).result)
      else LastSummary(w, trace[..|trace| - 1])
  }

  predicate IsSummary(stage: Stage) { stage.AutoSummary? || stage.EmergencySummary? }

  /** What running a stage on `before` yields, and whether it counts as a change. */
  function Effect(w: World, stage: Stage, before: Transcript): Option<(Transcript, bool)> {
    match stage
    case Micro | EmergencyProjection =>
      if w.micro.None? then None
      else var p := w.micro.value(stage.EmergencyProjection?, before); Some((p.messages, p.rewritten > 0))
    case AutoSummary | EmergencySummary =>
      if w.engine.None? then None
      else
        var s := w.engine.value(stage.EmergencySummary?, before);
        Some(if s.succeeded then (w.trailing(s.messages), true) else (before, false))
    case Snip =>
      if w.snip.None? then None
      else var s := w.snip.value(before); Some((s.messages, s.applied))
    case Truncation => Some((w.truncate(before), before != w.truncate(before)))
  }

  /** The pressure that justifies a stage. */
  predicate Justified(stage: Stage, snapshot: Snapshot) {
    match stage
    case Micro => !snapshot.state.Ok?
    case Snip => snapshot.ratio > TARGET
    case _ => snapshot.ratio >= PRESSURE
  }

  /** The stages that must have run, and the latest that may have run, before this one. */
  predicate InTurn(w: World, trace: seq<Step>, stage: Stage) {
    var highest := Highest(trace);
    match stage
    case Micro => highest == 0
    case AutoSummary => highest == if w.micro.Some? then Rank(Micro) else 0
    case Snip => highest == Rank(AutoSummary) && LastSummary(w, trace).Some?
    case EmergencySummary =>
      if w.snip.Some? && LastSummary(w, trace).Some? then highest == Rank(Snip) else highest == Rank(AutoSummary)
    case EmergencyProjection => highest == Rank(EmergencySummary)
    case Truncation => highest == Rank(if w.micro.Some? then EmergencyProjection else EmergencySummary)
  }

  predicate StepSound(w: World, input: Transcript, trace: seq<Step>, step: Step) {
    match step
    case Measured(reading) =>
      reading.messages == Current(input, trace) && reading.snapshot == w.budget(|trace|, reading.messages)
    case Ran(stage, before, after, changed) =>
      && before == Current(input, trace)
      && Latest(trace).Some? && Latest(trace).value.messages == before && Justified(stage, Latest(trace).value.snapshot)
      && InTurn(w, trace, stage)
      && Effect(w, stage, before) == Some((after, changed))
  }

  /** Every measurement is of the current transcript; every stage runs once, in order, on measured pressure. */
  predicate Sound(w: World, input: Transcript, trace: seq<Step>) {
    trace == []
    || (Sound(w, input, trace[..|trace| - 1]) && StepSound(w, input, trace[..|trace| - 1], trace[|trace| - 1]))
  }

  // ---------------------------------------------------------------- what a run promises

  /** The trace ends with a measurement of the transcript it leads to. */
  predicate EndsMeasured(input: Transcript, trace: seq<Step>, messages: Transcript, snapshot: Snapshot) {
    trace != [] && trace[|trace| - 1] == Measured(Reading(messages, snapshot)) && messages == Current(input, trace)
  }

  /** Every emergency stage that is configured has been tried. */
  predicate EverythingTried(w: World, trace: seq<Step>) {
    && (w.engine.Some? ==> Tried(trace, EmergencySummary))
    && (w.micro.Some? ==> Tried(trace, EmergencyProjection))
    && Tried(trace, Truncation)
  }

  /** The number of measurements before any summary: one, and another after the routine projection. */
  function Routine(w: World): nat { if w.micro.Some? then 3 else 1 }

  /** Nothing that could lower the pressure further has been left out. */
  predicate Relieved(w: World, trace: seq<Step>, snapshot: Snapshot) {
    snapshot.ratio >= PRESSURE ==> EverythingTried(w, trace)
  }

  predicate OutcomeSound(w: World, input: Transcript, trace: seq<Step>, outcome: Outcome) {
    match outcome
    case Skipped(snapshot) =>
      if !w.enabled then trace == [] && snapshot == Snapshot(0.0, Ok)
      else if |trace| == 1 then
        trace == [Measured(Reading(input, snapshot))]
        && (snapshot.state.Ok? || (w.micro.None? && (snapshot.ratio < PRESSURE || w.engine.None?)))
      else
        && |trace| >= Routine(w) && (w.micro.Some? ==> trace[1].Ran? && trace[1].stage.Micro?)
        && trace[Routine(w) - 1].Measured? && trace[Routine(w) - 1].reading.snapshot == snapshot
        && !Changed(trace)
        && (|trace| == Routine(w) ==>
              if snapshot.ratio >= PRESSURE then w.engine.None? else trace[1].Ran? && !trace[1].changed)
        && (|trace| > Routine(w) ==>
              && snapshot.ratio >= PRESSURE && Tried(trace, AutoSummary) && Latest(trace).Some?
              && Latest(trace).value.snapshot.ratio < 1.0 && Relieved(w, trace, Latest(trace).value.snapshot))
    case Compacted(messages, MicroTier, snapshot, result, overflow) =>
      && |trace| == 3 && trace[1].Ran? && trace[1].stage.Micro? && trace[1].changed
      && trace[2] == Measured(Reading(trace[1].after, snapshot)) && snapshot.ratio < PRESSURE
      && messages == w.trailing(trace[1].after) && result == None && !overflow
    case Compacted(messages, tier, snapshot, result, overflow) =>
      && EndsMeasured(input, trace, messages, snapshot)
      && (tier.Emergency? <==> snapshot.ratio >= PRESSURE)
      && (overflow <==> snapshot.ratio >= 1.0)
      && Relieved(w, trace, snapshot)
      && result == LastSummary(w, trace)
      && (Changed(trace) || overflow)
      && Tried(trace, AutoSummary)
      && (w.snip.Some? && Highest(trace) == Rank(AutoSummary) ==> snapshot.ratio <= TARGET)
  }

  // ---------------------------------------------------------------- consequences for every sound trace

  lemma {:induction false} StagesAscend(w: World, input: Transcript, trace: seq<Step>, i: nat)
    requires Sound(w, input, trace) && i < |trace| && trace[i].Ran?
    ensures Rank(trace[i].stage) <= Highest(trace)
    ensures forall j | 0 <= j < i :: trace[j].Ran? ==> Rank(trace[j].stage) < Rank(trace[i].stage)
    decreases |trace|
  {
    var n := |trace| - 1;
    if i < n {
      StagesAscend(w, input, trace[..n], i);
    } else {
      forall j | 0 <= j < i && trace[j].Ran?
        ensures Rank(trace[j].stage) < Rank(trace[i].stage)
      {
        StagesAscend(w, input, trace[..n], j);
      }
    }
  }

  /** No stage runs twice; in particular the summariser runs at most once a tier, so at most twice. */
  lemma EachStageOnce(w: World, input: Transcript, trace: seq<Step>, i: nat, j: nat)
    requires Sound(w, input, trace) && i < |trace| && j < |trace|
    requires trace[i].Ran? && trace[j].Ran? && trace[i].stage == trace[j].stage
    ensures i == j
  {
    StagesAscend(w, input, trace, i);
    StagesAscend(w, input, trace, j);
  }

  function SummaryRuns(trace: seq<Step>): nat {
    if trace == [] then 0
    else SummaryRuns(trace[..|trace| - 1])
         + (if trace[|trace| - 1].Ran? && IsSummary(trace[|trace| - 1].stage) then 1 else 0)
  }

  lemma {:induction false} AtMostTwoSummaries(w: World, input: Transcript, trace: seq<Step>)
    requires Sound(w, input, trace)
    ensures SummaryRuns(trace) <= 2
    ensures Highest(trace) < Rank(EmergencySummary) ==> SummaryRuns(trace) <= 1
    ensures Highest(trace) < Rank(AutoSummary) ==> SummaryRuns(trace) == 0
    decreases |trace|
  {
    if trace == [] {
    } else {
      AtMostTwoSummaries(w, input, trace[..|trace| - 1]);
    }
  }

  /** Every summary run was preceded by a measurement of the very transcript it got, at 90 % or more. */
  lemma SummariesUnderPressure(w: World, input: Transcript, trace: seq<Step>, i: nat)
    requires Sound(w, input, trace) && i < |trace| && trace[i].Ran? && IsSummary(trace[i].stage)
    ensures Latest(trace[..i]).Some?
    ensures Latest(trace[..i]).value.messages == trace[i].before
    ensures Latest(trace[..i]).value.snapshot.ratio >= 0.90
    decreases |trace|
  {
    var n := |trace| - 1;
    if i < n {
      SummariesUnderPressure(w, input, trace[..n], i);
      assert trace[..n][..i] == trace[..i];
    }
  }

  /** What a stage that ran has made of the transcript, in the engines' own terms. */
  lemma StageEffects(w: World, input: Transcript, trace: seq<Step>, i: nat)
    requires Sound(w, input, trace) && i < |trace| && trace[i].Ran?
    ensures var step := trace[i];
            match step.stage
            case Micro | EmergencyProjection =>
              && w.micro.Some?
              && step.after == w.micro.value(step.stage == EmergencyProjection, step.before).messages
              && (step.changed <==> w.micro.value(step.stage == EmergencyProjection, step.before).rewritten > 0)
            case AutoSummary | EmergencySummary =>
              && w.engine.Some?
              && var summary := w.engine.value(step.stage == EmergencySummary, step.before);
                 && (step.changed <==> summary.succeeded)
                 && step.after == (if summary.succeeded then w.trailing(summary.messages) else step.before)
            case Snip =>
              && w.snip.Some? && step.after == w.snip.value(step.before).messages
              && (step.changed <==> w.snip.value(step.before).applied)
            case Truncation => step.after == w.truncate(step.before) && (step.changed <==> step.before != step.after)
    decreases |trace|
  {
    var n := |trace| - 1;
    if i < n {
      StageEffects(w, input, trace[..n], i);
    }
  }

  /** The snip runs only above 60 %, and the emergency stages, like the summaries, only at 90 % or more, of a measured transcript. */
  lemma StagesUnderPressure(w: World, input: Transcript, trace: seq<Step>, i: nat)
    requires Sound(w, input, trace) && i < |trace| && trace[i].Ran?
    ensures Latest(trace[..i]).Some? && Latest(trace[..i]).value.messages == trace[i].before
    ensures var snapshot := Latest(trace[..i]).value.snapshot;
            match trace[i].stage
            case Micro => snapshot.state != Ok
            case Snip => snapshot.ratio > 0.60
            case _ => snapshot.ratio >= 0.90
    decreases |trace|
  {
    var n := |trace| - 1;
    if i < n {
      StagesUnderPressure(w, input, trace[..n], i);
      assert trace[..n][..i] == trace[..i];
    }
  }

  lemma {:induction false} PrefixSound(w: World, input: Transcript, trace: seq<Step>, n: nat)
    requires Sound(w, input, trace) && n <= |trace|
    ensures Sound(w, input, trace[..n])
    decreases |trace|
  {
    if n == |trace| {
      assert trace[..n] == trace;
    } else {
      PrefixSound(w, input, trace[..|trace| - 1], n);
      assert trace[..|trace| - 1][..n] == trace[..n];
    }
  }

  /** How a trace begins. */
  lemma RoutinePhase(w: World, input: Transcript, trace: seq<Step>)
    requires Sound(w, input, trace) && |trace| >= 3 && trace[1].Ran? && trace[2].Measured?
    ensures trace[2].reading.messages == trace[1].after && trace[1].before == input
    ensures Effect(w, trace[1].stage, input) == Some((trace[1].after, trace[1].changed))
  {
    PrefixSound(w, input, trace, 3);
    PrefixSound(w, input, trace, 2);
    PrefixSound(w, input, trace, 1);
    assert trace[..3][..2] == trace[..2] && trace[..2][..1] == trace[..1] && trace[..1][..0] == [];
    assert trace[..1][0] == trace[0];
  }

  /** The routine projection runs: there is one, and the first measurement is not fine. */
  predicate Prunes(w: World, input: Transcript) { w.micro.Some? && !w.budget(0, input).state.Ok? }

  /**
   A skipped outcome tells the caller to keep its messages, yet its snapshot is the measurement
   of what the routine projection made of them: it measures them only if the projection was
   not reached, is not configured, or left them as they were.
   */
  lemma SkippedMeasuresInput(w: World, input: Transcript, trace: seq<Step>, snapshot: Snapshot)
    requires w.enabled && Sound(w, input, trace) && OutcomeSound(w, input, trace, Skipped(snapshot))
    ensures var k := if Prunes(w, input) then 2 else 0;
            && k < |trace| && trace[k].Measured? && snapshot == trace[k].reading.snapshot
            && snapshot == w.budget(k, trace[k].reading.messages)
            && (trace[k].reading.messages == input <==>
                  w.budget(0, input).state.Ok? || w.micro.None? || w.micro.value(false, input).messages == input)
  {
    PrefixSound(w, input, trace, 1);
    assert trace[..1][..0] == [] && trace[..1][0] == trace[0];
    if |trace| > 1 && w.micro.Some? {
      RoutinePhase(w, input, trace);
      PrunedFirst(w, input, trace);
    }
  }

  /** The projection ran because the first measurement was not fine, and its result was measured next. */
  lemma PrunedFirst(w: World, input: Transcript, trace: seq<Step>)
    requires Sound(w, input, trace) && |trace| >= 3 && trace[1].Ran? && trace[1].stage.Micro? && trace[2].Measured?
    ensures !w.budget(0, input).state.Ok? && trace[2].reading.snapshot == w.budget(2, trace[2].reading.messages)
  {
    PrefixSound(w, input, trace, 3);
    PrefixSound(w, input, trace, 2);
    PrefixSound(w, input, trace, 1);
    assert trace[..3][..2] == trace[..2] && trace[..2][..1] == trace[..1] && trace[..1][..0] == [];
    assert trace[..1][0] == trace[0];
  }

  /** Without an engine, no summary can have run. */
  lemma {:induction false} NoSummary(w: World, input: Transcript, trace: seq<Step>)
    requires Sound(w, input, trace) && w.engine.None?
    ensures !Tried(trace, AutoSummary)
    decreases |trace|
  {
    if trace == [] {
    } else {
      NoSummary(w, input, trace[..|trace| - 1]);
    }
  }

  /**
   So whoever prunes under pressure that does not yield, and has no engine to summarise with,
   reports the pressure of a transcript the caller does not get.
   */
  lemma PrunedButSkipped(w: World, input: Transcript, trace: seq<Step>, outcome: Outcome)
    requires w.enabled && Sound(w, input, trace) && OutcomeSound(w, input, trace, outcome)
    requires Prunes(w, input) && w.engine.None?
    requires w.budget(2, w.micro.value(false, input).messages).ratio >= PRESSURE
    ensures outcome == Skipped(w.budget(2, w.micro.value(false, input).messages))
  {
    NoSummary(w, input, trace);
    PrefixSound(w, input, trace, 1);
    assert |trace| > 0 ==> trace[..1][..0] == [] && trace[..1][0] == trace[0];
    RoutinePhase(w, input, trace);
    PrunedFirst(w, input, trace);
  }

  /** A surrounding in which that happens: everything measures 95 %, and the projection drops all messages. */
  function Pruning(): World {
    World(true, (_, _) => Snapshot(0.95, Warning), None, Some((_, _) => Projection([], 1)), None, m => m, m => m)
  }

  lemma PruningExample()
    ensures var w, snapshot := Pruning(), Snapshot(0.95, Warning);
            var trace := [Measured(Reading([0], snapshot)), Ran(Micro, [0], [], true), Measured(Reading([], snapshot))];
            && Sound(w, [0], trace) && OutcomeSound(w, [0], trace, Skipped(snapshot))
            && w.enabled && !(w.budget(0, [0]).state.Ok? || w.micro.None? || w.micro.value(false, [0]).messages == [0])
  {
    var w, snapshot := Pruning(), Snapshot(0.95, Warning);
    var first, pruned, second := Measured(Reading([0], snapshot)), Ran(Micro, [0], [], true), Measured(Reading([], snapshot));
    FirstMeasured(w, [0], snapshot);
    Extend(w, [0], [first], pruned);
    assert [first] + [pruned] == [first, pruned];
    Extend(w, [0], [first, pruned], second);
    assert [first, pruned] + [second] == [first, pruned, second];
    assert !Changed([first, pruned, second]);
  }

  lemma FirstMeasured(w: World, input: Transcript, snapshot: Snapshot)
    requires w.budget(0, input) == snapshot
    ensures var trace := [Measured(Reading(input, snapshot))];
            && Sound(w, input, trace) && Current(input, trace) == input && Highest(trace) == 0
            && Latest(trace) == Some(Reading(input, snapshot))
  {
    Extend(w, input, [], Measured(Reading(input, snapshot)));
    assert [] + [Measured(Reading(input, snapshot))] == [Measured(Reading(input, snapshot))];
  }

  // ---------------------------------------------------------------- the methods

  lemma Extend(w: World, input: Transcript, trace: seq<Step>, step: Step)
    requires Sound(w, input, trace) && StepSound(w, input, trace, step)
    ensures Sound(w, input, trace + [step])
    ensures step.Measured? ==>
              && Current(input, trace + [step]) == Current(input, trace) && Latest(trace + [step]) == Some(step.reading)
              && Highest(trace + [step]) == Highest(trace) && LastSummary(w, trace + [step]) == LastSummary(w, trace)
    ensures step.Ran? ==>
              && Current(input, trace + [step]) == step.after && Latest(trace + [step]) == Latest(trace)
              && Highest(trace + [step]) == Rank(step.stage)
              && (!(IsSummary(step.stage) && step.changed) ==> LastSummary(w, trace + [step]) == LastSummary(w, trace))
              && (IsSummary(step.stage) && step.changed && w.engine.Some? ==>
                    LastSummary(w, trace + [step]) == Some(w.engine.value(step.stage.EmergencySummary?, step.before).result))
  {
    assert (trace + [step])[..|trace|] == trace;
  }

  lemma ExtendTried(trace: seq<Step>, step: Step, stage: Stage)
    ensures Tried(trace + [step], stage) <==> Tried(trace, stage) || (step.Ran? && step.stage == stage)
  {
    if Tried(trace, stage) {
      var i :| 0 <= i < |trace| && trace[i].Ran? && trace[i].stage == stage;
      assert (trace + [step])[i] == trace[i];
    }
    assert (trace + [step])[|trace|] == step;
  }

  lemma ExtendChanged(trace: seq<Step>, step: Step)
    ensures Changed(trace + [step]) <==> Changed(trace) || (step.Ran? && step.stage != Micro && step.changed)
  {
    if Changed(trace) {
      var i :| 0 <= i < |trace| && trace[i].Ran? && trace[i].stage != Micro && trace[i].changed;
      assert (trace + [step])[i] == trace[i];
    }
    assert (trace + [step])[|trace|] == step;
  }

  /** `evaluateBudget` */
  method Measure(w: World, ghost input: Transcript, trace: seq<Step>, messages: Transcript)
    returns (snapshot: Snapshot, longer: seq<Step>)
    requires Sound(w, input, trace) && messages == Current(input, trace)
    ensures longer == trace + [Measured(Reading(messages, snapshot))]
    ensures Sound(w, input, longer) && Current(input, longer) == messages
    ensures Latest(longer) == Some(Reading(messages, snapshot))
    ensures Highest(longer) == Highest(trace) && LastSummary(w, longer) == LastSummary(w, trace)
    ensures Changed(longer) == Changed(trace) && forall stage :: Tried(longer, stage) == Tried(trace, stage)
  {
    snapshot := w.budget(|trace|, messages);
    var step := Measured(Reading(messages, snapshot));
    Extend(w, input, trace, step);
    ExtendChanged(trace, step);
    forall stage ensures Tried(trace + [step], stage) == Tried(trace, stage) { ExtendTried(trace, step, stage); }
    longer := trace + [step];
  }

  /** Apply a stage to the transcript that was measured last. */
  method Run(w: World, ghost input: Transcript, trace: seq<Step>, stage: Stage, messages: Transcript)
    returns (after: Transcript, changed: bool, longer: seq<Step>)
    requires Sound(w, input, trace) && messages == Current(input, trace) && Effect(w, stage, messages).Some?
    requires Latest(trace).Some? && Latest(trace).value.messages == messages
    requires Justified(stage, Latest(trace).value.snapshot) && InTurn(w, trace, stage)
    ensures longer == trace + [Ran(stage, messages, after, changed)] && Effect(w, stage, messages) == Some((after, changed))
    ensures Sound(w, input, longer) && Current(input, longer) == after
    ensures Latest(longer) == Latest(trace) && Highest(longer) == Rank(stage)
    ensures !(IsSummary(stage) && changed) ==> LastSummary(w, longer) == LastSummary(w, trace)
    ensures IsSummary(stage) && changed ==>
              w.engine.Some? && LastSummary(w, longer) == Some(w.engine.value(stage.EmergencySummary?, messages).result)
    ensures Changed(longer) <==> Changed(trace) || (stage != Micro && changed)
    ensures forall other :: Tried(longer, other) <==> Tried(trace, other) || other == stage
  {
    match stage {
      case Micro | EmergencyProjection =>
        var projected := w.micro.value(stage.EmergencyProjection?, messages);
        after, changed := projected.messages, projected.rewritten > 0;
      case AutoSummary | EmergencySummary =>
        var summary := w.engine.value(stage.EmergencySummary?, messages);
        changed := summary.succeeded;
        after := if changed then w.trailing(summary.messages) else messages;
      case Snip =>
        var snipped := w.snip.value(messages);
        after, changed := snipped.messages, snipped.applied;
      case Truncation =>
        after := w.truncate(messages);
        changed := messages != after;
    }
    var step := Ran(stage, messages, after, changed);
    Extend(w, input, trace, step);
    ExtendChanged(trace, step);
    forall other ensures Tried(trace + [step], other) <==> Tried(trace, other) || other == stage {
      ExtendTried(trace, step, other);
    }
    longer := trace + [step];
  }

  predicate ReadyForEmergency(w: World, trace: seq<Step>) { InTurn(w, trace, EmergencySummary) }

  /** The situation between two stages: the trace ends with a measurement of the current transcript. */
  predicate Settled(w: World, input: Transcript, trace: seq<Step>, messages: Transcript, snapshot: Snapshot) {
    && Sound(w, input, trace) && EndsMeasured(input, trace, messages, snapshot)
    && Latest(trace) == Some(Reading(messages, snapshot))
  }

  /** What one stage does to everything that is read off a trace. */
  predicate Stepped(start: seq<Step>, trace: seq<Step>, stage: Stage, changed: bool) {
    && start <= trace && Highest(trace) == Rank(stage)
    && (Changed(trace) <==> Changed(start) || (stage != Micro && changed))
    && forall other :: Tried(trace, other) <==> Tried(start, other) || other == stage
  }

  /** Run a stage and measure what it leaves. */
  method RunAndMeasure(w: World, ghost input: Transcript, start: seq<Step>, stage: Stage, from: Transcript, ghost was: Snapshot)
    returns (messages: Transcript, changed: bool, snapshot: Snapshot, trace: seq<Step>)
    requires Settled(w, input, start, from, was) && Effect(w, stage, from).Some?
    requires Justified(stage, was) && InTurn(w, start, stage)
    ensures Settled(w, input, trace, messages, snapshot) && Stepped(start, trace, stage, changed)
    ensures Effect(w, stage, from) == Some((messages, changed))
    ensures |trace| == |start| + 2 && trace[|start|] == Ran(stage, from, messages, changed)
    ensures LastSummary(w, trace) == if IsSummary(stage) && changed && w.engine.Some?
                                     then Some(w.engine.value(stage.EmergencySummary?, from).result)
                                     else LastSummary(w, start)
  {
    messages, changed, trace := Run(w, input, start, stage, from);
    snapshot, trace := Measure(w, input, trace, messages);
  }

  /** The summary of the emergency tier; a failed one leaves the transcript, which is not measured again. */
  method EmergencySummarise(w: World, ghost input: Transcript, start: seq<Step>, from: Transcript, was: Snapshot)
    returns (messages: Transcript, changed: bool, result: Option<nat>, snapshot: Snapshot, trace: seq<Step>)
    requires Settled(w, input, start, from, was) && was.ratio >= PRESSURE && w.engine.Some? && ReadyForEmergency(w, start)
    ensures Sound(w, input, trace) && Current(input, trace) == messages && Latest(trace) == Some(Reading(messages, snapshot))
    ensures changed ==> Settled(w, input, trace, messages, snapshot)
    ensures !changed ==> snapshot == was && messages == from
    ensures Stepped(start, trace, EmergencySummary, changed)
    ensures result.Some? == changed && LastSummary(w, trace) == if changed then result else LastSummary(w, start)
  {
    result, snapshot := None, was;
    messages, changed, trace := Run(w, input, start, EmergencySummary, from);
    if changed {
      result := Some(w.engine.value(true, from).result);
      snapshot, trace := Measure(w, input, trace, messages);
    }
  }

  /** The emergency projection, where one is configured. */
  method ProjectTools(w: World, ghost input: Transcript, start: seq<Step>, from: Transcript, was: Snapshot)
    returns (messages: Transcript, changed: bool, snapshot: Snapshot, trace: seq<Step>)
    requires Sound(w, input, start) && Current(input, start) == from && Latest(start) == Some(Reading(from, was))
    requires was.ratio >= PRESSURE && Highest(start) == Rank(EmergencySummary)
    ensures if w.micro.Some? then Settled(w, input, trace, messages, snapshot) && Stepped(start, trace, EmergencyProjection, changed)
            else trace == start && messages == from && !changed && snapshot == was
    ensures LastSummary(w, trace) == LastSummary(w, start)
  {
    messages, changed, snapshot, trace := from, false, was, start;
    if w.micro.Some? {
      messages, changed, trace := Run(w, input, start, EmergencyProjection, from);
      snapshot, trace := Measure(w, input, trace, messages);
    }
  }

  /** The last two stages: the emergency projection, then truncation. */
  method Shorten(w: World, ghost input: Transcript, start: seq<Step>, from: Transcript, was: Snapshot)
    returns (messages: Transcript, changed: bool, snapshot: Snapshot, trace: seq<Step>)
    requires Sound(w, input, start) && Current(input, start) == from && Latest(start) == Some(Reading(from, was))
    requires was.ratio >= PRESSURE && Highest(start) == Rank(EmergencySummary)
    ensures Settled(w, input, trace, messages, snapshot) && start <= trace && Highest(trace) > Rank(EmergencySummary)
    ensures Changed(trace) <==> Changed(start) || changed
    ensures LastSummary(w, trace) == LastSummary(w, start)
    ensures forall stage :: stage != EmergencyProjection && stage != Truncation ==> Tried(trace, stage) == Tried(start, stage)
    ensures snapshot.ratio >= PRESSURE ==> (w.micro.Some? ==> Tried(trace, EmergencyProjection)) && Tried(trace, Truncation)
  {
    messages, changed, snapshot, trace := ProjectTools(w, input, start, from, was);
    if w.micro.Some? && snapshot.ratio < PRESSURE {
      return;
    }
    var truncated;
    messages, truncated, trace := Run(w, input, trace, Truncation, messages);
    changed := changed || truncated;
    snapshot, trace := Measure(w, input, trace, messages);
  }

  /** `runEmergencyCompaction` */
  method RunEmergencyCompaction(w: World, ghost input: Transcript, start: seq<Step>, from: Transcript)
    returns (messages: Transcript, snapshot: Snapshot, changed: bool, result: Option<nat>, trace: seq<Step>)
    requires Sound(w, input, start) && from == Current(input, start) && w.engine.Some? && ReadyForEmergency(w, start)
    ensures Settled(w, input, trace, messages, snapshot) && start <= trace
    ensures Relieved(w, trace, snapshot)
    ensures Changed(trace) <==> Changed(start) || changed
    ensures LastSummary(w, trace) == if result.Some? then result else LastSummary(w, start)
    ensures Tried(trace, AutoSummary) == Tried(start, AutoSummary)
    ensures Highest(trace) == Highest(start) || Highest(trace) >= Rank(EmergencySummary)
    ensures Highest(trace) == Highest(start) ==> !changed && snapshot.ratio < PRESSURE
  {
    messages, changed, result := from, false, None;
    snapshot, trace := Measure(w, input, start, messages);
    if snapshot.ratio < PRESSURE {
      return;
    }
    messages, changed, result, snapshot, trace := EmergencySummarise(w, input, trace, messages, snapshot);
    if changed && snapshot.ratio < PRESSURE {
      return;
    }
    var shortened;
    messages, shortened, snapshot, trace := Shorten(w, input, trace, messages, snapshot);
    changed := changed || shortened;
  }

  /** The normal summary and, after it, the trimming of old turns. */
  method Summarise(w: World, ghost input: Transcript, start: seq<Step>, from: Transcript, ghost was: Snapshot)
    returns (messages: Transcript, changed: bool, result: Option<nat>, snapshot: Snapshot, trace: seq<Step>)
    requires Settled(w, input, start, from, was) && was.ratio >= PRESSURE && w.engine.Some? && InTurn(w, start, AutoSummary)
    requires LastSummary(w, start) == None
    ensures Settled(w, input, trace, messages, snapshot) && start <= trace && |start| < |trace|
    ensures Tried(trace, AutoSummary) && (snapshot.ratio >= PRESSURE ==> ReadyForEmergency(w, trace))
    ensures Highest(trace) == Rank(AutoSummary) && w.snip.Some? && changed ==> snapshot.ratio <= TARGET
    ensures Changed(trace) <==> Changed(start) || changed
    ensures LastSummary(w, trace) == if result.Some? then result else LastSummary(w, start)
  {
    messages, changed, snapshot, trace := RunAndMeasure(w, input, start, AutoSummary, from, was);
    result := if changed then Some(w.engine.value(false, from).result) else None;
    if changed && snapshot.ratio > TARGET && w.snip.Some? {
      var snipApplied;
      messages, snipApplied, snapshot, trace := RunAndMeasure(w, input, trace, Snip, messages, snapshot);
    }
  }

  /** The ladder from the point where the routine phase has left the pressure at 90 % or more. */
  method CompactFully(w: World, input: Transcript, start: seq<Step>, from: Transcript, currentSnapshot: Snapshot)
    returns (outcome: Outcome, trace: seq<Step>)
    requires w.enabled && w.engine.Some? && Settled(w, input, start, from, currentSnapshot)
    requires |start| == Routine(w) && currentSnapshot.ratio >= PRESSURE && InTurn(w, start, AutoSummary)
    requires !Changed(start) && LastSummary(w, start) == None
    requires w.micro.Some? ==> start[1].Ran? && start[1].stage.Micro?
    ensures Sound(w, input, trace) && OutcomeSound(w, input, trace, outcome)
  {
    var postMessages, summarised, finalResult, snapshot;
    postMessages, summarised, finalResult, snapshot, trace := Summarise(w, input, start, from, currentSnapshot);
    var emergencyApplied := false;
    if snapshot.ratio >= PRESSURE {
      var result;
      postMessages, snapshot, emergencyApplied, result, trace := RunEmergencyCompaction(w, input, trace, postMessages);
      if result.Some? {
        finalResult := result;
      }
    }
    assert trace[Routine(w) - 1] == start[|start| - 1] && (w.micro.Some? ==> trace[1] == start[1]);
    if !summarised && !emergencyApplied && snapshot.ratio < 1.0 {
      outcome := Skipped(currentSnapshot);
      return;
    }
    outcome := Compacted(postMessages, if snapshot.ratio >= PRESSURE then Emergency else Full, snapshot, finalResult,
                         snapshot.ratio >= 1.0);
  }

  method TryAutoCompact(w: World, input: Transcript) returns (outcome: Outcome, trace: seq<Step>)
    ensures Sound(w, input, trace) && OutcomeSound(w, input, trace, outcome)
  {
    trace := [];
    if !w.enabled {
      outcome := Skipped(Snapshot(0.0, Ok));
      return;
    }
    var messages := input;
    var currentSnapshot;
    currentSnapshot, trace := Measure(w, input, trace, messages);
    if currentSnapshot.state.Ok? {
      outcome := Skipped(currentSnapshot);
      return;
    }
    if w.micro.Some? {
      var rewritten;
      messages, rewritten, currentSnapshot, trace := RunAndMeasure(w, input, trace, Micro, messages, currentSnapshot);
      if currentSnapshot.ratio < PRESSURE {
        outcome := if !rewritten then Skipped(currentSnapshot)
                   else Compacted(w.trailing(messages), MicroTier, currentSnapshot, None, false);
        return;
      }
    }
    if currentSnapshot.ratio < PRESSURE || w.engine.None? {
      outcome := Skipped(currentSnapshot);
      return;
    }
    outcome, trace := CompactFully(w, input, trace, messages, currentSnapshot);
  }
}
