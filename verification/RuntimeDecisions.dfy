/**
 What each operation of the runtime registry comes to, read off leases, turns, tasks and
 loops: which runtimes are shared, retired and torn down, and that no request is lost.
 */
module RuntimeDecisions {
  import opened Prelude
  import opened RuntimeLeases
  import opened RuntimeSafety

  // ---------------------------------------------------------------- who holds a runtime

  /** A lease that has not been released, a turn that has not ended, an active task or a memory loop holds the runtime. */
  predicate Needed(s: State, r: nat) {
    || (exists l | 0 <= l < |s.leases| :: s.leases[l] == Lease(r, false))
    || (exists t | 0 <= t < |s.turns| :: s.turns[t] == Turn(r, false))
    || (exists t | 0 <= t < |s.tasks| :: s.tasks[t].runtime == r && s.tasks[t].phase == Active)
    || (r < |s.objects| && s.objects[r].maintenance != Idle)
  }

  lemma {:induction false} LeaseCounted(leases: seq<Lease>, r: nat)
    ensures OpenLeases(leases, r) > 0 <==> exists l | 0 <= l < |leases| :: leases[l] == Lease(r, false)
    decreases |leases|
  {
    if leases == [] {
    } else {
      var init, last := leases[..|leases| - 1], leases[|leases| - 1];
      LeaseCounted(init, r);
      if OpenLeases(init, r) > 0 {
        var l :| 0 <= l < |init| && init[l] == Lease(r, false);
        assert leases[l] == Lease(r, false);
      }
      if l :| 0 <= l < |leases| && leases[l] == Lease(r, false) && l < |init| { assert init[l] == Lease(r, false); }
    }
  }

  lemma {:induction false} TurnCounted(turns: seq<Turn>, r: nat)
    ensures OpenTurns(turns, r) > 0 <==> exists t | 0 <= t < |turns| :: turns[t] == Turn(r, false)
    decreases |turns|
  {
    if turns == [] {
    } else {
      var init, last := turns[..|turns| - 1], turns[|turns| - 1];
      TurnCounted(init, r);
      if OpenTurns(init, r) > 0 {
        var t :| 0 <= t < |init| && init[t] == Turn(r, false);
        assert turns[t] == Turn(r, false);
      }
      if t :| 0 <= t < |turns| && turns[t] == Turn(r, false) && t < |init| { assert init[t] == Turn(r, false); }
    }
  }

  lemma ActiveIsBusy(s: State, r: nat)
    ensures Busy(s, r) <==> exists t | 0 <= t < |s.tasks| :: s.tasks[t].runtime == r && s.tasks[t].phase == Active
  {
    if Busy(s, r) {
      var t :| 0 <= t < |s.tasks| && s.tasks[t] == Task(r, Active);
      assert s.tasks[t].runtime == r && s.tasks[t].phase == Active;
    }
    if t :| 0 <= t < |s.tasks| && s.tasks[t].runtime == r && s.tasks[t].phase == Active {
      assert s.tasks[t] == Task(r, Active);
    }
  }

  /** The registry's counters and loops see exactly the runtimes that are needed. */
  lemma HoldersAreNeeded(s: State, r: nat)
    requires Inv(s)
    ensures Holder(s, r) <==> Needed(s, r)
  {
    assert Counted(s, r);
    LeaseCounted(s.leases, r);
    TurnCounted(s.turns, r);
    ActiveIsBusy(s, r);
  }

  /** In every run a step other than shutdown tears down only runtimes nobody needs any more. */
  lemma TornIsNotNeeded(events: seq<Event>, e: Event, r: nat)
    requires var s := Run(INIT, events); !e.Shutdown? && r !in s.torn && r in Step(s, e).torn
    ensures !Needed(Step(Run(INIT, events), e), r)
  {
    InitHolds();
    RunKeeps(INIT, events);
    var s := Run(INIT, events);
    TornWereUnheld(s, e, r);
    StepKeeps(s, e);
    HoldersAreNeeded(Step(s, e), r);
  }

  /** In every run the steps that collect leave only runtimes retired that somebody needs. */
  lemma RetiredIsNeeded(events: seq<Event>, e: Event, r: nat)
    requires var s := Run(INIT, events); Enabled(s, e) && Collects(s, e) && r in Step(s, e).retired
    ensures Needed(Step(Run(INIT, events), e), r)
  {
    InitHolds();
    RunKeeps(INIT, events);
    var s := Run(INIT, events);
    CollectingStepHolds(s, e);
    StepKeeps(s, e);
    HoldersAreNeeded(Step(s, e), r);
  }

  // ---------------------------------------------------------------- retiring

  lemma CollectPlaces(s: State, r: nat)
    requires r in s.retired
    ensures r in Collect(s).retired || r in Collect(s).torn
    ensures Collect(s).roots == s.roots
  {
  }

  lemma MoveTakes(s: State, keys: set<string>, key: string)
    requires key in s.roots
    ensures key in Move(s, keys).roots <==> key !in keys
    ensures key in Move(s, keys).roots ==> Move(s, keys).roots[key] == s.roots[key]
    ensures key in keys ==> s.roots[key] in Move(s, keys).retired
  {
  }

  lemma RetirePlaces(s: State, root: Option<string>, key: string)
    requires key in s.roots
    ensures var t := Retire(s, root);
            && (key in t.roots <==> root.Some? && root.value != key)
            && (key in t.roots ==> t.roots[key] == s.roots[key])
            && (key !in t.roots ==> s.roots[key] in t.retired || s.roots[key] in t.torn)
  {
    MoveTakes(s, Selected(s, root), key);
    if key in Selected(s, root) { CollectPlaces(Move(s, Selected(s, root)), s.roots[key]); }
  }

  lemma PrunePlaces(s: State, r: nat)
    ensures PruneTasks(s).roots == s.roots
    ensures r in s.retired ==> r in PruneTasks(s).retired || r in PruneTasks(s).torn
    ensures r in s.torn ==> r in PruneTasks(s).torn
  {
  }

  lemma RetireAddsNoRoot(s: State, root: Option<string>)
    ensures Retire(s, root).roots.Keys <= s.roots.Keys
  {
  }

  /** Invalidating a project retires the runtime of that project, or tears it down, and leaves every other one cached. */
  lemma InvalidationTakesRoot(s: State, root: string, key: string)
    ensures var t := Step(s, Invalidate(Some(root)));
            && root !in t.roots
            && (key != root ==> (key in t.roots <==> key in s.roots))
            && (key in t.roots ==> t.roots[key] == s.roots[key])
            && (root in s.roots ==> s.roots[root] in t.retired || s.roots[root] in t.torn)
  {
    var u := Retire(s, Some(root));
    RetireAddsNoRoot(s, Some(root));
    if key in s.roots { RetirePlaces(s, Some(root), key); }
    if root in s.roots {
      RetirePlaces(s, Some(root), root);
      PrunePlaces(u, s.roots[root]);
    }
    PrunePlaces(u, 0);
  }

  /** Invalidating everything, or another interpreter, leaves nothing cached. */
  lemma InvalidationTakesAll(s: State, key: string)
    ensures Step(s, Invalidate(None)).roots == map[] && Step(s, RefreshPython).roots == map[]
    ensures key in s.roots ==>
              var r, t, u := s.roots[key], Step(s, Invalidate(None)), Step(s, RefreshPython);
              (r in t.retired || r in t.torn) && (r in u.retired || r in u.torn)
  {
    var u := Retire(s, None);
    RetireAddsNoRoot(s, None);
    forall k | k in s.roots ensures k !in u.roots { RetirePlaces(s, None, k); }
    assert u.roots == map[];
    PrunePlaces(u, 0);
    if key in s.roots {
      RetirePlaces(s, None, key);
      PrunePlaces(u, s.roots[key]);
    }
  }

  /** Shutdown tears down everything that is cached or retired, at once. */
  lemma ShutdownTearsDown(s: State, r: nat)
    ensures var t := Step(s, Shutdown);
            && t.roots == map[] && t.retired == {}
            && (r in s.retired || (exists k <- s.roots :: s.roots[k] == r) ==> r in t.torn && r in t.forced)
  {
    var u := Stop(s);
    assert Unheld(u.(taskRuntimes := Tracked(u))) == {};
    if r in s.retired || (exists k <- s.roots :: s.roots[k] == r) { assert r in All(s); }
  }

  // ---------------------------------------------------------------- leasing

  /** Sessions of one project share its cached runtime; a new one is created only if there is none. */
  lemma LeaseIsShared(s: State, root: string, hasMemory: bool)
    requires Inv(s)
    ensures var t := Step(s, Acquire(root, hasMemory));
            var r := if root in s.roots then s.roots[root] else |s.objects|;
            && t.leases == s.leases + [Lease(r, false)]
            && root in t.roots && t.roots[root] == r
            && |t.objects| == (if root in s.roots then |s.objects| else |s.objects| + 1) && r < |t.objects|
            && (root !in s.roots ==> t.objects[r].root == root && t.objects[r].hasMemory == hasMemory)
  {
    if root in s.roots { assert Current(s, s.roots[root]) && Placed(s, s.roots[root]); }
  }

  /** A release counts once, and for its own lease. */
  lemma ReleaseIsOnce(s: State, l: nat)
    requires l < |s.leases|
    ensures var t := Step(s, Release(l));
            && t.leases == s.leases[l := Lease(s.leases[l].runtime, true)]
            && (s.leases[l].released ==> t == s)
  {
    if s.leases[l].released { assert s.leases[l := Lease(s.leases[l].runtime, true)] == s.leases; }
  }

  // ---------------------------------------------------------------- memory maintenance

  /** The runtime of the root is being maintained, or will be once more. */
  predicate Maintained(s: State, root: string) {
    root in s.roots && s.roots[root] < |s.objects|
    && (s.objects[s.roots[root]].maintenance == Running || s.objects[s.roots[root]].requested)
  }

  lemma ResolvedObject(s: State, root: string, hasMemory: bool)
    requires Inv(s)
    ensures var t := Resolve(s, root, hasMemory);
            root in t.roots && t.roots[root] == At(t, root) < |t.objects|
  {
    ResolveKeeps(s, root, hasMemory);
  }

  /** A request for maintenance starts the loop of an idle runtime with memory, or waits for the running one to look again. */
  lemma RequestIsHeard(s: State, root: string, hasMemory: bool)
    requires Inv(s)
    ensures var t := Step(s, ScheduleMaintenance(root, hasMemory));
            && root in t.roots && t.roots[root] < |t.objects|
            && (t.objects[t.roots[root]].hasMemory ==> Maintained(t, root))
            && (root in s.roots ==> t.roots == s.roots)
  {
    ResolvedObject(s, root, hasMemory);
  }

  /** The loop runs again if there was a request, and otherwise leaves; the request is taken. */
  lemma PassTakesRequest(s: State, r: nat)
    requires Enabled(s, MaintenancePass(r))
    ensures var t := Step(s, MaintenancePass(r));
            t.objects == s.objects[r := s.objects[r].(
              requested := false, maintenance := if s.objects[r].requested then Running else Leaving)]
  {
  }

  /** A request that came while the loop was leaving is not lost: the runtime that now has the root is maintained. */
  lemma LateRequestIsHeard(s: State, r: nat, hasMemory: bool)
    requires Inv(s) && Enabled(s, MaintenanceEnds(r, hasMemory))
    ensures var t := Step(s, MaintenanceEnds(r, hasMemory));
            var root := s.objects[r].root;
            s.objects[r].requested ==>
              root in t.roots && t.roots[root] < |t.objects| && (t.objects[t.roots[root]].hasMemory ==> Maintained(t, root))
    ensures var t := Step(s, MaintenanceEnds(r, hasMemory));
            !s.objects[r].requested ==> t.roots == s.roots && t.objects == s.objects[r := s.objects[r].(maintenance := Idle)]
  {
    QuitKeeps(s, r);
    var q := Quit(s, r);
    assert q.objects == s.objects[r := s.objects[r].(maintenance := Idle)];
    ResolvedObject(q, s.objects[r].root, hasMemory);
  }

  // ---------------------------------------------------------------- counting tasks

  /** Counting forgets a runtime's tasks exactly if it has no active one and can get no more. */
  lemma CountForgets(s: State, r: nat)
    ensures r in Step(s, CountTasks).taskRuntimes <==>
              && r in s.taskRuntimes
              && ((exists t | 0 <= t < |s.tasks| :: s.tasks[t].runtime == r && s.tasks[t].phase == Active)
                  || (exists k <- s.roots :: s.roots[k] == r) || r in s.taskUsers)
  {
    ActiveIsBusy(s, r);
  }
}
