/**
 The order in which `RouterRuntime.execute` tries its models: the requested model first,
 then the configured fallbacks, each provider/model once, those that accept the media of
 the request before those that need it downgraded.
 */
module RouterPlan {
  import opened Prelude

  const MAX_FALLBACKS := 5

  datatype ModelRef = ModelRef(id: string, provider: string, model: string)

  datatype AttemptPlan = AttemptPlan(attempt: ModelRef, downgrade: bool)

  /** Accepted input modalities of a model; an unknown model accepts none. */
  type Capabilities = (string, string) -> set<string>

  predicate SameModel(a: ModelRef, b: ModelRef) {
    (a.provider, a.model) == (b.provider, b.model)
  }

  /** `supportsMediaRequirements` */
  predicate Supports(caps: Capabilities, ref: ModelRef, required: seq<string>) {
    forall m <- required :: m in caps(ref.provider, ref.model)
  }

  /** The most fallbacks that are tried. */
  function Cap(maxFallbacks: Option<int>): nat {
    var cap := maxFallbacks.GetOr(MAX_FALLBACKS);
    if cap <= 0 then 0 else cap
  }

  /** `planFallback` for the list configured for the scenario. */
  function Fallbacks(configured: seq<ModelRef>, explicit: bool, maxFallbacks: Option<int>): (fallbacks: seq<ModelRef>)
    ensures fallbacks <= configured
    ensures explicit ==> fallbacks == []
    ensures !explicit ==>
              var cap := match maxFallbacks case None => 5 case Some(n) => if n > 0 then n else 0;
              |fallbacks| == if |configured| < cap then |configured| else cap
  {
    var cap := Cap(maxFallbacks);
    if explicit then [] else if cap < |configured| then configured[..cap] else configured
  }

  /** `all.findIndex(...) === index` */
  predicate FirstAt(all: seq<ModelRef>, i: nat) {
    var first := i < |all| && forall j | 0 <= j < i :: !SameModel(all[j], all[i]);
    first
  }

  predicate Chosen(all: seq<ModelRef>, caps: Capabilities, required: seq<string>, native: bool, i: nat) {
    FirstAt(all, i) && Supports(caps, all[i], required) == native
  }

  /** `filter`: the chosen positions below `n`, in order. */
  function Filter(all: seq<ModelRef>, caps: Capabilities, required: seq<string>, native: bool, n: nat): (kept: seq<nat>)
    ensures forall k | 0 <= k < |kept| :: kept[k] < n && Chosen(all, caps, required, native, kept[k])
    ensures forall k, l | 0 <= k < l < |kept| :: kept[k] < kept[l]
    ensures forall i: nat | i < n && Chosen(all, caps, required, native, i) :: i in kept
  {
    if n == 0 then []
    else
      var rest := Filter(all, caps, required, native, n - 1);
      if Chosen(all, caps, required, native, n - 1) then rest + [n - 1] else rest
  }

  function Planned(all: seq<ModelRef>, positions: seq<nat>, downgrade: bool): (plans: seq<AttemptPlan>)
    requires forall k | 0 <= k < |positions| :: positions[k] < |all|
    ensures |plans| == |positions|
    ensures forall k | 0 <= k < |plans| :: plans[k] == AttemptPlan(all[positions[k]], downgrade)
  {
    seq(|positions|, k requires 0 <= k < |positions| => AttemptPlan(all[positions[k]], downgrade))
  }

  function Native(all: seq<ModelRef>, caps: Capabilities, required: seq<string>): seq<nat> {
    Filter(all, caps, required, true, |all|)
  }

  function Downgraded(all: seq<ModelRef>, caps: Capabilities, required: seq<string>): seq<nat> {
    if |required| > 0 then Filter(all, caps, required, false, |all|) else []
  }

  /** The positions in `all` in the order in which they are tried. */
  function Order(all: seq<ModelRef>, caps: Capabilities, required: seq<string>): seq<nat> {
    Native(all, caps, required) + Downgraded(all, caps, required)
  }

  /** `attemptPlans` */
  function AttemptPlans(requested: ModelRef, fallbacks: seq<ModelRef>, caps: Capabilities, required: seq<string>)
    : seq<AttemptPlan>
  {
    var all := [requested] + fallbacks;
    Planned(all, Native(all, caps, required), false) + Planned(all, Downgraded(all, caps, required), true)
  }

  /** The earliest entry naming the same model as entry `i`. */
  lemma {:induction false} FirstOccurrence(all: seq<ModelRef>, i: nat) returns (j: nat)
    requires i < |all|
    ensures j <= i && FirstAt(all, j) && SameModel(all[j], all[i])
  {
    if FirstAt(all, i) {
      j := i;
    } else {
      var k: nat :| k < i && SameModel(all[k], all[i]);
      j := FirstOccurrence(all, k);
    }
  }

  /** A model that needs no media supports everything, so no candidate is lost. */
  lemma InOrder(all: seq<ModelRef>, caps: Capabilities, required: seq<string>, i: nat)
    ensures i in Order(all, caps, required) <==> FirstAt(all, i)
  {
    if FirstAt(all, i) {
      if Supports(caps, all[i], required) {
        assert Chosen(all, caps, required, true, i);
      } else {
        assert Chosen(all, caps, required, false, i);
      }
    }
  }

  lemma PlanAt(requested: ModelRef, fallbacks: seq<ModelRef>, caps: Capabilities, required: seq<string>, k: nat)
    requires k < |Order([requested] + fallbacks, caps, required)|
    ensures var all := [requested] + fallbacks;
            var order := Order(all, caps, required);
            && |AttemptPlans(requested, fallbacks, caps, required)| == |order| && order[k] < |all|
            && AttemptPlans(requested, fallbacks, caps, required)[k].attempt == all[order[k]]
  {
    var all := [requested] + fallbacks;
    var native, downgraded := Native(all, caps, required), Downgraded(all, caps, required);
    assert AttemptPlans(requested, fallbacks, caps, required) == Planned(all, native, false) + Planned(all, downgraded, true);
    if k < |native| {
      assert Order(all, caps, required)[k] == native[k];
    } else {
      assert Order(all, caps, required)[k] == downgraded[k - |native|];
    }
  }

  /** Every named model is planned, exactly once, whatever it supports: the list is never empty. */
  lemma EveryModelOnce(requested: ModelRef, fallbacks: seq<ModelRef>, caps: Capabilities, required: seq<string>,
                       ref: ModelRef)
    requires ref in [requested] + fallbacks
    ensures exists k | 0 <= k < |AttemptPlans(requested, fallbacks, caps, required)| ::
              SameModel(AttemptPlans(requested, fallbacks, caps, required)[k].attempt, ref)
  {
    var all := [requested] + fallbacks;
    var i :| 0 <= i < |all| && all[i] == ref;
    var first := FirstOccurrence(all, i);
    InOrder(all, caps, required, first);
    var k :| 0 <= k < |Order(all, caps, required)| && Order(all, caps, required)[k] == first;
    PlanAt(requested, fallbacks, caps, required, k);
  }

  lemma {:induction false} FiltersShare(all: seq<ModelRef>, caps: Capabilities, required: seq<string>, n: nat)
    ensures |Filter(all, caps, required, true, n)| + |Filter(all, caps, required, false, n)| <= n
  {
    if n == 0 {
    } else {
      FiltersShare(all, caps, required, n - 1);
    }
  }

  lemma NoMoreThanCandidates(requested: ModelRef, fallbacks: seq<ModelRef>, caps: Capabilities, required: seq<string>)
    ensures |AttemptPlans(requested, fallbacks, caps, required)| <= 1 + |fallbacks|
  {
    FiltersShare([requested] + fallbacks, caps, required, 1 + |fallbacks|);
  }

  lemma NeverEmpty(requested: ModelRef, fallbacks: seq<ModelRef>, caps: Capabilities, required: seq<string>)
    ensures |AttemptPlans(requested, fallbacks, caps, required)| >= 1
  {
    EveryModelOnce(requested, fallbacks, caps, required, requested);
  }

  /** The plan list is a stable partition: no model twice, native models first, each part in configured order. */
  lemma StablePartition(requested: ModelRef, fallbacks: seq<ModelRef>, caps: Capabilities, required: seq<string>,
                        k: nat, l: nat) returns (p: nat, q: nat)
    requires k < l < |AttemptPlans(requested, fallbacks, caps, required)|
    ensures p < |[requested] + fallbacks| && q < |[requested] + fallbacks|
    ensures var plans := AttemptPlans(requested, fallbacks, caps, required);
            var all := [requested] + fallbacks;
            && plans[k].attempt == all[p] && FirstAt(all, p)
            && plans[l].attempt == all[q] && FirstAt(all, q)
            && !SameModel(all[p], all[q])
            && plans[k].downgrade == !(forall m <- required :: m in caps(all[p].provider, all[p].model))
            && plans[l].downgrade == !(forall m <- required :: m in caps(all[q].provider, all[q].model))
            && (plans[k].downgrade ==> plans[l].downgrade)
            && (plans[k].downgrade == plans[l].downgrade ==> p < q)
  {
    var all := [requested] + fallbacks;
    p, q := Order(all, caps, required)[k], Order(all, caps, required)[l];
  }

  predicate StartsWith(order: seq<nat>, i: nat) {
    var first := order != [] && order[0] == i;
    first
  }

  lemma NativeFirst(all: seq<ModelRef>, caps: Capabilities, required: seq<string>)
    requires all != [] && Supports(caps, all[0], required)
    ensures StartsWith(Order(all, caps, required), 0)
  {
    assert Chosen(all, caps, required, true, 0);
    assert 0 in Native(all, caps, required);
  }

  lemma NativeIsSupported(all: seq<ModelRef>, caps: Capabilities, required: seq<string>)
    ensures Native(all, caps, required) == [] || exists ref <- all :: Supports(caps, ref, required)
  {
    var native := Native(all, caps, required);
    if native != [] {
      assert Chosen(all, caps, required, true, native[0]) && all[native[0]] in all;
    }
  }

  lemma DowngradedFirst(all: seq<ModelRef>, caps: Capabilities, required: seq<string>)
    requires all != [] && forall ref <- all :: !Supports(caps, ref, required)
    ensures StartsWith(Order(all, caps, required), 0)
  {
    assert !Supports(caps, all[0], required) && required != [];
    NativeIsSupported(all, caps, required);
    assert Chosen(all, caps, required, false, 0);
    assert 0 in Downgraded(all, caps, required);
  }

  lemma FallbackFirst(all: seq<ModelRef>, caps: Capabilities, required: seq<string>, i: nat)
    requires i < |all| && Supports(caps, all[i], required) && !Supports(caps, all[0], required)
    ensures Order(all, caps, required) != [] && 0 < Order(all, caps, required)[0] < |all|
    ensures FirstAt(all, Order(all, caps, required)[0])
  {
    var first := FirstOccurrence(all, i);
    assert Chosen(all, caps, required, true, first);
    var native := Native(all, caps, required);
    assert first in native;
    assert Chosen(all, caps, required, true, native[0]);
  }

  lemma RequestedFirst(requested: ModelRef, fallbacks: seq<ModelRef>, caps: Capabilities, required: seq<string>)
    requires Supports(caps, requested, required) || (forall ref <- fallbacks :: !Supports(caps, ref, required))
    ensures SameModelFirst(requested, fallbacks, caps, required)
  {
    var all := [requested] + fallbacks;
    if Supports(caps, requested, required) {
      NativeFirst(all, caps, required);
    } else {
      DowngradedFirst(all, caps, required);
    }
    PlanAt(requested, fallbacks, caps, required, 0);
  }

  lemma OtherFirst(requested: ModelRef, fallbacks: seq<ModelRef>, caps: Capabilities, required: seq<string>, i: nat)
    requires i < |fallbacks| && Supports(caps, fallbacks[i], required) && !Supports(caps, requested, required)
    ensures |AttemptPlans(requested, fallbacks, caps, required)| >= 1 && !SameModelFirst(requested, fallbacks, caps, required)
  {
    var all := [requested] + fallbacks;
    assert all[0] == requested && all[i + 1] == fallbacks[i];
    FallbackFirst(all, caps, required, i + 1);
    PlanAt(requested, fallbacks, caps, required, 0);
    assert !SameModel(all[0], all[Order(all, caps, required)[0]]);
  }

  predicate SameModelFirst(requested: ModelRef, fallbacks: seq<ModelRef>, caps: Capabilities, required: seq<string>) {
    var plans := AttemptPlans(requested, fallbacks, caps, required);
    var leads := plans != [] && SameModel(plans[0].attempt, requested);
    leads
  }

  /** The first call goes to the requested model exactly when nothing else is better at the media asked for. */
  lemma RequestedLeads(requested: ModelRef, fallbacks: seq<ModelRef>, caps: Capabilities, required: seq<string>)
    ensures SameModelFirst(requested, fallbacks, caps, required)
       <==> Supports(caps, requested, required) || (forall ref <- fallbacks :: !Supports(caps, ref, required))
  {
    if Supports(caps, requested, required) || (forall ref <- fallbacks :: !Supports(caps, ref, required)) {
      RequestedFirst(requested, fallbacks, caps, required);
    } else {
      var ref :| ref in fallbacks && Supports(caps, ref, required);
      var i :| 0 <= i < |fallbacks| && fallbacks[i] == ref;
      OtherFirst(requested, fallbacks, caps, required, i);
    }
  }
}
