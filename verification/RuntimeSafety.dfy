/** What every run of the runtime registry keeps, and when a retired runtime is left behind. */
module RuntimeSafety {
  import opened Prelude
  import opened RuntimeLeases

  // ---------------------------------------------------------------- each helper keeps the invariant

  lemma InitHolds()
    ensures Inv(INIT) && Held(INIT)
  {
  }

  lemma ResolveKeeps(s: State, root: string, hasMemory: bool)
    requires Inv(s)
    ensures Inv(Resolve(s, root, hasMemory))
    ensures Current(Resolve(s, root, hasMemory), At(Resolve(s, root, hasMemory), root))
    ensures At(Resolve(s, root, hasMemory), root) < |Resolve(s, root, hasMemory).objects|
  {
    var t := Resolve(s, root, hasMemory);
    var n := |s.objects|;
    assert t.roots[root] == At(t, root);
    if root !in s.roots {
      forall k | k in s.roots ensures s.roots[k] < n { assert Current(s, s.roots[k]) && Placed(s, s.roots[k]); }
      forall r: nat ensures Placed(t, r) {
        assert Placed(s, r) && Placed(s, n);
        assert Current(t, r) <==> Current(s, r) || r == n by {
          assert forall k <- s.roots :: t.roots[k] == s.roots[k];
        }
      }
      NoLeases(s, n);
      forall r: nat ensures Counted(t, r) { assert Counted(s, r) && (Busy(t, r) <==> Busy(s, r)); }
      forall r: nat ensures LeaseKept(t, r) { assert LeaseKept(s, r); }
    } else {
      assert Placed(s, At(t, root));
    }
  }

  /** Nothing refers to a runtime that does not exist yet. */
  lemma NoLeases(s: State, r: nat)
    requires Inv(s) && r >= |s.objects|
    ensures OpenLeases(s.leases, r) == 0 && OpenTurns(s.turns, r) == 0
  {
    assert Counted(s, r);
    NoTurns(s.turns, r, |s.objects|);
  }

  lemma {:induction false} NoTurns(turns: seq<Turn>, r: nat, n: nat)
    requires r >= n && forall t | 0 <= t < |turns| :: turns[t].runtime < n
    ensures OpenTurns(turns, r) == 0
    decreases |turns|
  {
    if turns == [] {
    } else {
      NoTurns(turns[..|turns| - 1], r, n);
    }
  }

  lemma AddLeaseKeeps(s: State, r: nat)
    requires Inv(s) && Current(s, r) && r < |s.objects|
    ensures Inv(AddLease(s, r))
  {
    var t := AddLease(s, r);
    assert t.leases[..|s.leases|] == s.leases;
    forall q: nat ensures Placed(t, q) { assert Placed(s, q) && (Current(t, q) <==> Current(s, q)); }
    forall q: nat ensures Counted(t, q) { assert Counted(s, q) && (Busy(t, q) <==> Busy(s, q)); }
    forall q: nat ensures LeaseKept(t, q) { assert LeaseKept(s, q) && Placed(s, q); }
  }

  lemma DropLeaseKeeps(s: State, l: nat)
    requires Inv(s) && l < |s.leases| && !s.leases[l].released
    ensures Inv(DropLease(s, l))
  {
    var t := DropLease(s, l);
    forall q: nat ensures OpenLeases(t.leases, q) == OpenLeases(s.leases, q) - (if s.leases[l].runtime == q then 1 else 0) {
      LeaseReleased(s.leases, l, q);
    }
    forall q: nat ensures Placed(t, q) { assert Placed(s, q) && (Current(t, q) <==> Current(s, q)); }
    forall q: nat ensures Counted(t, q) { assert Counted(s, q) && (Busy(t, q) <==> Busy(s, q)); }
    forall q: nat ensures LeaseKept(t, q) { assert LeaseKept(s, q); }
  }

  lemma AddTurnKeeps(s: State, r: nat)
    requires Inv(s) && r < |s.objects|
    ensures Inv(AddTurn(s, r))
  {
    var t := AddTurn(s, r);
    assert t.turns[..|s.turns|] == s.turns;
    forall q: nat ensures Placed(t, q) { assert Placed(s, q) && (Current(t, q) <==> Current(s, q)); }
    forall q: nat ensures Counted(t, q) { assert Counted(s, q) && (Busy(t, q) <==> Busy(s, q)); }
    forall q: nat ensures LeaseKept(t, q) { assert LeaseKept(s, q); }
  }

  lemma DropTurnKeeps(s: State, i: nat)
    requires Inv(s) && i < |s.turns| && !s.turns[i].ended
    ensures Inv(DropTurn(s, i))
  {
    var t := DropTurn(s, i);
    OpenTurnCounts(s.turns, i);
    assert Counted(s, s.turns[i].runtime);
    forall q: nat ensures OpenTurns(t.turns, q) == OpenTurns(s.turns, q) - (if s.turns[i].runtime == q then 1 else 0) {
      TurnEnded(s.turns, i, q);
    }
    forall q: nat ensures Placed(t, q) { assert Placed(s, q) && (Current(t, q) <==> Current(s, q)); }
    forall q: nat ensures Counted(t, q) { assert Counted(s, q) && (Busy(t, q) <==> Busy(s, q)); }
    forall q: nat ensures LeaseKept(t, q) { assert LeaseKept(s, q); }
  }

  lemma StartTaskKeeps(s: State, i: nat)
    requires Inv(s) && i < |s.turns| && !s.turns[i].ended
    ensures Inv(s.(tasks := s.tasks + [Task(s.turns[i].runtime, Active)]))
  {
    var r := s.turns[i].runtime;
    var t := s.(tasks := s.tasks + [Task(r, Active)]);
    OpenTurnCounts(s.turns, i);
    forall q: nat ensures Placed(t, q) { assert Placed(s, q) && (Current(t, q) <==> Current(s, q)); }
    forall q: nat ensures Counted(t, q) {
      assert Counted(s, q);
      assert Busy(t, q) ==> Busy(s, q) || q == r;
    }
    forall q: nat ensures LeaseKept(t, q) { assert LeaseKept(s, q); }
  }

  lemma SetTaskKeeps(s: State, i: nat, phase: Phase)
    requires Inv(s) && i < |s.tasks| && !phase.Active?
    ensures Inv(SetTask(s, i, phase))
  {
    var t := SetTask(s, i, phase);
    forall q: nat ensures Placed(t, q) { assert Placed(s, q) && (Current(t, q) <==> Current(s, q)); }
    forall q: nat ensures Counted(t, q) { assert Counted(s, q) && (Busy(t, q) ==> Busy(s, q)); }
    forall q: nat ensures LeaseKept(t, q) { assert LeaseKept(s, q); }
  }

  lemma SetObjKeeps(s: State, r: nat, o: Runtime)
    requires Inv(s) && o.users == Obj(s, r).users
    ensures Inv(SetObj(s, r, o))
  {
    var t := SetObj(s, r, o);
    forall q: nat ensures Placed(t, q) { assert Placed(s, q) && (Current(t, q) <==> Current(s, q)); }
    forall q: nat ensures Counted(t, q) { assert Counted(s, q) && (Busy(t, q) <==> Busy(s, q)); }
    forall q: nat ensures LeaseKept(t, q) { assert LeaseKept(s, q); }
  }

  lemma UnheldAreFree(s: State, r: nat)
    requires Inv(s) && r in Unheld(s)
    ensures OpenLeases(s.leases, r) == 0
  {
    assert Counted(s, r);
  }

  lemma CollectKeeps(s: State)
    requires Inv(s)
    ensures Inv(Collect(s)) && Held(Collect(s))
  {
    var t := Collect(s);
    forall q: nat ensures Placed(t, q) { assert Placed(s, q) && (Current(t, q) <==> Current(s, q)); }
    forall q: nat ensures Counted(t, q) { assert Counted(s, q) && (Busy(t, q) <==> Busy(s, q)); }
    forall q: nat ensures LeaseKept(t, q) {
      assert LeaseKept(s, q);
      if q in Unheld(s) { UnheldAreFree(s, q); }
    }
    forall q | q in t.retired ensures Holder(t, q) { assert Busy(t, q) <==> Busy(s, q); }
  }

  lemma TrackKeeps(s: State)
    requires Inv(s)
    ensures Inv(s.(taskRuntimes := Tracked(s)))
  {
    var t := s.(taskRuntimes := Tracked(s));
    forall q: nat ensures Placed(t, q) { assert Placed(s, q) && (Current(t, q) <==> Current(s, q)); }
    forall q: nat ensures Counted(t, q) { assert Counted(s, q) && (Busy(t, q) <==> Busy(s, q)); }
    forall q: nat ensures LeaseKept(t, q) { assert LeaseKept(s, q); }
  }

  lemma PruneKeeps(s: State)
    requires Inv(s)
    ensures Inv(PruneTasks(s)) && Held(PruneTasks(s))
  {
    TrackKeeps(s);
    CollectKeeps(s.(taskRuntimes := Tracked(s)));
  }

  lemma ScheduleKeeps(s: State, r: nat)
    requires Inv(s)
    ensures Inv(Schedule(s, r))
  {
    var o := Obj(s, r);
    SetObjKeeps(s, r, o.(maintenance := Running, requested := false));
    SetObjKeeps(s, r, o.(requested := true));
  }

  lemma ScheduleAtKeeps(s: State, root: string, hasMemory: bool)
    requires Inv(s)
    ensures Inv(ScheduleAt(s, root, hasMemory))
  {
    ResolveKeeps(s, root, hasMemory);
    ScheduleKeeps(Resolve(s, root, hasMemory), At(Resolve(s, root, hasMemory), root));
  }

  lemma QuitKeeps(s: State, r: nat)
    requires Inv(s)
    ensures Inv(Quit(s, r)) && Held(Quit(s, r))
  {
    SetObjKeeps(s, r, Obj(s, r).(maintenance := Idle));
    CollectKeeps(SetObj(s, r, Obj(s, r).(maintenance := Idle)));
  }

  lemma MoveKeeps(s: State, keys: set<string>)
    requires Inv(s) && keys <= s.roots.Keys
    ensures Inv(Move(s, keys))
  {
    var t := Move(s, keys);
    forall q: nat ensures Placed(t, q) {
      assert Placed(s, q);
      MovedIsNotCurrent(s, keys, q);
    }
    forall q: nat ensures Counted(t, q) { assert Counted(s, q) && (Busy(t, q) <==> Busy(s, q)); }
    forall q: nat ensures LeaseKept(t, q) { assert LeaseKept(s, q); }
  }

  lemma MovedIsNotCurrent(s: State, keys: set<string>, q: nat)
    requires keys <= s.roots.Keys && OneRootEach(s)
    ensures Current(Move(s, keys), q) <==> Current(s, q) && q !in (set k | k in keys && k in s.roots :: s.roots[k])
    ensures Current(s, q) ==> Current(Move(s, keys), q) || q in Move(s, keys).retired
  {
    var t := Move(s, keys);
    if Current(s, q) {
      var k :| k in s.roots && s.roots[k] == q;
      if k !in keys { assert k in t.roots && t.roots[k] == q; }
    }
    if Current(t, q) {
      var k :| k in t.roots && t.roots[k] == q;
      assert s.roots[k] == q;
    }
  }

  lemma StopKeeps(s: State)
    requires Inv(s)
    ensures Inv(Stop(s))
  {
    var t := Stop(s);
    forall q: nat ensures q in All(s) <==> q in s.retired || Current(s, q) {
      if Current(s, q) {
        var k :| k in s.roots && s.roots[k] == q;
        assert s.roots[k] in All(s);
      }
    }
    forall q: nat ensures Placed(t, q) { assert Placed(s, q) && !Current(t, q); }
    forall q: nat ensures Counted(t, q) { assert Counted(s, q) && (Busy(t, q) <==> Busy(s, q)); }
    forall q: nat ensures LeaseKept(t, q) { assert LeaseKept(s, q); }
  }

  // ---------------------------------------------------------------- steps and runs

  lemma LeaseStepKeeps(s: State, e: Event)
    requires Inv(s) && Enabled(s, e) && (e.Acquire? || e.Release?)
    ensures Inv(Step(s, e))
  {
    match e {
      case Acquire(root, hasMemory) =>
        ResolveKeeps(s, root, hasMemory);
        AddLeaseKeeps(Resolve(s, root, hasMemory), At(Resolve(s, root, hasMemory), root));
      case Release(l) =>
        if !s.leases[l].released {
          DropLeaseKeeps(s, l);
          CollectKeeps(DropLease(s, l));
        }
    }
  }

  lemma TurnStepKeeps(s: State, e: Event)
    requires Inv(s) && Enabled(s, e) && (e.BeginTurn? || e.EndTurn? || e.StartTask?)
    ensures Inv(Step(s, e))
  {
    match e {
      case BeginTurn(l) => AddTurnKeeps(s, s.leases[l].runtime);
      case EndTurn(t) =>
        DropTurnKeeps(s, t);
        PruneKeeps(DropTurn(s, t));
      case StartTask(t) => StartTaskKeeps(s, t);
    }
  }

  lemma TaskStepKeeps(s: State, e: Event)
    requires Inv(s) && Enabled(s, e) && (e.TaskExits? || e.TaskReports? || e.ReportLost?)
    ensures Inv(Step(s, e))
  {
    SetTaskKeeps(s, e.task, Exited);
    SetTaskKeeps(s, e.task, Reported);
    if e.TaskReports? { PruneKeeps(SetTask(s, e.task, Reported)); }
  }

  lemma MaintenanceStepKeeps(s: State, e: Event)
    requires Inv(s) && Enabled(s, e) && (e.ScheduleMaintenance? || e.MaintenancePass? || e.MaintenanceEnds?)
    ensures Inv(Step(s, e))
  {
    match e {
      case ScheduleMaintenance(root, hasMemory) => ScheduleAtKeeps(s, root, hasMemory);
      case MaintenancePass(r) => SetObjKeeps(s, r, Obj(Pass(s, r), r));
      case MaintenanceEnds(r, hasMemory) =>
        QuitKeeps(s, r);
        ScheduleAtKeeps(Quit(s, r), Obj(Quit(s, r), r).root, hasMemory);
    }
  }

  lemma RetireKeeps(s: State, root: Option<string>)
    requires Inv(s)
    ensures Inv(Retire(s, root)) && Held(Retire(s, root))
  {
    MoveKeeps(s, Selected(s, root));
    CollectKeeps(Move(s, Selected(s, root)));
  }

  lemma RegistryStepKeeps(s: State, e: Event)
    requires Inv(s) && (e.Invalidate? || e.RefreshPython? || e.CountTasks? || e.Shutdown?)
    ensures Inv(Step(s, e))
  {
    match e {
      case Invalidate(selected) =>
        RetireKeeps(s, selected);
        PruneKeeps(Retire(s, selected));
      case RefreshPython => RetireKeeps(s, None);
      case CountTasks => PruneKeeps(s);
      case Shutdown =>
        StopKeeps(s);
        PruneKeeps(Stop(s));
    }
  }

  lemma StepKeeps(s: State, e: Event)
    requires Inv(s)
    ensures Inv(Step(s, e))
  {
    if Enabled(s, e) {
      if e.Acquire? || e.Release? {
        LeaseStepKeeps(s, e);
      } else if e.BeginTurn? || e.EndTurn? || e.StartTask? {
        TurnStepKeeps(s, e);
      } else if e.TaskExits? || e.TaskReports? || e.ReportLost? {
        TaskStepKeeps(s, e);
      } else if e.ScheduleMaintenance? || e.MaintenancePass? || e.MaintenanceEnds? {
        MaintenanceStepKeeps(s, e);
      } else {
        RegistryStepKeeps(s, e);
      }
    }
  }

  lemma {:induction false} RunKeeps(s: State, events: seq<Event>)
    requires Inv(s)
    ensures Inv(Run(s, events))
    decreases |events|
  {
    if events == [] {
    } else {
      StepKeeps(s, events[0]);
      RunKeeps(Step(s, events[0]), events[1..]);
    }
  }

  // ---------------------------------------------------------------- leased runtimes stay up

  lemma OnlyShutdownForces(s: State, e: Event)
    ensures Step(s, e).forced == s.forced || e.Shutdown?
  {
  }

  lemma {:induction false} NeverForced(s: State, events: seq<Event>)
    requires s.forced == {} && Shutdown !in events
    ensures Run(s, events).forced == {}
    decreases |events|
  {
    if events == [] {
    } else {
      OnlyShutdownForces(s, events[0]);
      NeverForced(Step(s, events[0]), events[1..]);
    }
  }

  /**
   Whatever happens to other leases, turns, tasks, maintenance and configuration, a runtime
   that is leased is torn down by gateway shutdown only; without one it stays cached or
   retired until the lease is released.
   */
  lemma LeasedRuntimeIsAlive(events: seq<Event>, l: nat)
    requires l < |Run(INIT, events).leases| && !Run(INIT, events).leases[l].released
    ensures var s := Run(INIT, events);
            var r := s.leases[l].runtime;
            && Obj(s, r).users > 0
            && (r in s.torn ==> r in s.forced)
            && (Shutdown !in events ==> r !in s.torn && (r in s.retired || Current(s, r)))
  {
    var s := Run(INIT, events);
    InitHolds();
    RunKeeps(INIT, events);
    if Shutdown !in events { NeverForced(INIT, events); }
    OpenLeaseCounts(s.leases, l);
    assert Placed(s, s.leases[l].runtime) && LeaseKept(s, s.leases[l].runtime) && Counted(s, s.leases[l].runtime);
  }

  /** In any run, shutdown included, every runtime is in one place and is torn down once at most. */
  lemma TornDownOnce(events: seq<Event>, r: nat)
    requires r < |Run(INIT, events).objects|
    ensures var s := Run(INIT, events);
            && s.torn[r] <= 1
            && (r in s.torn <==> !(r in s.retired || Current(s, r)))
            && !(r in s.retired && Current(s, r))
  {
    InitHolds();
    RunKeeps(INIT, events);
    assert Placed(Run(INIT, events), r);
  }

  /** Collecting and forgetting idle task runtimes change nothing a holder is made of. */
  lemma SameHolders(s: State, r: nat)
    ensures Holder(Collect(s), r) == Holder(s, r) && Holder(PruneTasks(s), r) == Holder(s, r)
  {
    assert Busy(Collect(s), r) == Busy(s, r) && Busy(PruneTasks(s), r) == Busy(s, r);
  }

  lemma CollectTears(s: State, r: nat)
    requires r !in s.torn && r in Collect(s).torn
    ensures !Holder(Collect(s), r)
  {
    SameHolders(s, r);
  }

  lemma PruneTears(s: State, r: nat)
    requires r !in s.torn && r in PruneTasks(s).torn
    ensures !Holder(PruneTasks(s), r)
  {
    var t := s.(taskRuntimes := Tracked(s));
    CollectTears(t, r);
  }

  lemma InvalidateTears(s: State, root: Option<string>, r: nat)
    requires r !in s.torn && r in PruneTasks(Retire(s, root)).torn
    ensures !Holder(PruneTasks(Retire(s, root)), r)
  {
    var t := Retire(s, root);
    if r in t.torn {
      CollectTears(Move(s, Selected(s, root)), r);
      SameHolders(t, r);
    } else {
      PruneTears(t, r);
    }
  }

  lemma MaintenanceTears(s: State, r: nat, hasMemory: bool, q: nat)
    requires Inv(s) && q !in s.torn && q in Reschedule(Quit(s, r), r, hasMemory).torn
    ensures !Holder(Reschedule(Quit(s, r), r, hasMemory), q)
  {
    var t := Quit(s, r);
    QuitKeeps(s, r);
    CollectTears(SetObj(s, r, Obj(s, r).(maintenance := Idle)), q);
    var root := Obj(t, r).root;
    ResolveKeeps(t, root, hasMemory);
    var u := Resolve(t, root, hasMemory);
    assert Placed(u, q) && Placed(u, At(u, root)) && Placed(t, q);
    assert Busy(Reschedule(t, r, hasMemory), q) == Busy(t, q);
  }

  /**
   Apart from shutdown, a step tears down only runtimes that nothing holds when it ends: no
   lease, but no turn, no active task and no memory maintenance either.
   */
  lemma TornWereUnheld(s: State, e: Event, r: nat)
    requires Inv(s) && !e.Shutdown? && r !in s.torn && r in Step(s, e).torn
    ensures !Holder(Step(s, e), r)
  {
    match e {
      case Release(l) => CollectTears(DropLease(s, l), r);
      case EndTurn(t) => PruneTears(DropTurn(s, t), r);
      case TaskReports(t) => PruneTears(SetTask(s, t, Reported), r);
      case MaintenanceEnds(q, hasMemory) => MaintenanceTears(s, q, hasMemory, r);
      case Invalidate(selected) => InvalidateTears(s, selected, r);
      case RefreshPython => CollectTears(Move(s, Selected(s, None)), r);
      case CountTasks => PruneTears(s, r);
      case _ =>
    }
  }

  // ---------------------------------------------------------------- retired runtimes are held

  /** The task's runtime is retired, without a lease, a turn or maintenance, and has no other active task. */
  predicate LastHolder(s: State, t: nat)
    requires t < |s.tasks|
  {
    var r := s.tasks[t].runtime;
    && r in s.retired && Obj(s, r).users == 0 && r !in s.taskUsers && Obj(s, r).maintenance.Idle?
    && forall u | 0 <= u < |s.tasks| && u != t :: s.tasks[u] != Task(r, Active)
  }

  /** Steps that end with a collection leave no retired runtime behind, whatever was there before. */
  predicate Collects(s: State, e: Event)
    requires Enabled(s, e)
  {
    || (e.Release? && !s.leases[e.lease].released)
    || e.EndTurn? || e.TaskReports? || e.Invalidate? || e.RefreshPython? || e.CountTasks? || e.Shutdown?
  }

  lemma CollectingStepHolds(s: State, e: Event)
    requires Inv(s) && Enabled(s, e) && Collects(s, e)
    ensures Held(Step(s, e))
  {
    match e {
      case Release(l) =>
        DropLeaseKeeps(s, l);
        CollectKeeps(DropLease(s, l));
      case EndTurn(t) =>
        DropTurnKeeps(s, t);
        PruneKeeps(DropTurn(s, t));
      case TaskReports(t) =>
        SetTaskKeeps(s, t, Reported);
        PruneKeeps(SetTask(s, t, Reported));
      case Invalidate(selected) =>
        RetireKeeps(s, selected);
        PruneKeeps(Retire(s, selected));
      case RefreshPython => RetireKeeps(s, None);
      case CountTasks => PruneKeeps(s);
      case Shutdown =>
        StopKeeps(s);
        PruneKeeps(Stop(s));
    }
  }

  lemma ResolveHolds(s: State, root: string, hasMemory: bool)
    requires Inv(s) && Held(s)
    ensures Held(Resolve(s, root, hasMemory)) && Resolve(s, root, hasMemory).retired == s.retired
  {
    var t := Resolve(s, root, hasMemory);
    forall r | r in t.retired ensures Holder(t, r) {
      assert Placed(s, r) && Holder(s, r) && (Busy(t, r) <==> Busy(s, r));
    }
  }

  lemma ScheduleHolds(s: State, r: nat)
    requires Held(s)
    ensures Held(Schedule(s, r))
  {
    var t := Schedule(s, r);
    forall q | q in t.retired ensures Holder(t, q) { assert Holder(s, q) && (Busy(t, q) <==> Busy(s, q)); }
  }

  lemma AddLeaseHolds(s: State, r: nat)
    requires Held(s) && Inv(s) && Current(s, r)
    ensures Held(AddLease(s, r))
  {
    var t := AddLease(s, r);
    forall q | q in t.retired ensures Holder(t, q) {
      assert Placed(s, q) && Holder(s, q) && (Busy(t, q) <==> Busy(s, q));
    }
  }

  lemma QuietStepHolds(s: State, e: Event)
    requires Inv(s) && Held(s) && Enabled(s, e) && !Collects(s, e) && !e.TaskExits?
    ensures Held(Step(s, e))
  {
    match e {
      case Acquire(root, hasMemory) =>
        ResolveKeeps(s, root, hasMemory);
        ResolveHolds(s, root, hasMemory);
        AddLeaseHolds(Resolve(s, root, hasMemory), At(Resolve(s, root, hasMemory), root));
      case ScheduleMaintenance(root, hasMemory) =>
        ResolveHolds(s, root, hasMemory);
        ScheduleHolds(Resolve(s, root, hasMemory), At(Resolve(s, root, hasMemory), root));
      case MaintenanceEnds(r, hasMemory) =>
        QuitKeeps(s, r);
        var q := Quit(s, r);
        ResolveHolds(q, Obj(q, r).root, hasMemory);
        ScheduleHolds(Resolve(q, Obj(q, r).root, hasMemory), At(Resolve(q, Obj(q, r).root, hasMemory), Obj(q, r).root));
      case _ => PlainStepHolds(s, e);
    }
  }

  lemma PlainStepHolds(s: State, e: Event)
    requires Inv(s) && Held(s) && Enabled(s, e)
    requires (e.Release? && s.leases[e.lease].released) || e.BeginTurn? || e.StartTask? || e.ReportLost? || e.MaintenancePass?
    ensures Held(Step(s, e))
  {
    var t := Step(s, e);
    forall q | q in t.retired ensures Holder(t, q) {
      assert Holder(s, q);
      assert Busy(s, q) ==> Busy(t, q) by {
        if Busy(s, q) {
          var i :| 0 <= i < |s.tasks| && s.tasks[i] == Task(q, Active);
          assert t.tasks[i] == Task(q, Active);
        }
      }
    }
  }

  /**
   After any step every retired runtime still has a holder, with one exception: the exit of
   the background task that was its last holder, because the exit is reported later.
   */
  lemma HeldAfterStep(s: State, e: Event)
    requires Inv(s) && Held(s)
    ensures Held(Step(s, e)) <==> !(Enabled(s, e) && e.TaskExits? && LastHolder(s, e.task))
  {
    if Enabled(s, e) {
      if Collects(s, e) {
        CollectingStepHolds(s, e);
      } else if e.TaskExits? {
        ExitHolds(s, e.task);
      } else {
        QuietStepHolds(s, e);
      }
    }
  }

  lemma ExitHolds(s: State, t: nat)
    requires Held(s) && t < |s.tasks| && s.tasks[t].phase.Active?
    ensures Held(SetTask(s, t, Exited)) <==> !LastHolder(s, t)
  {
    var u := SetTask(s, t, Exited);
    forall q | q in u.retired && q != s.tasks[t].runtime ensures Holder(u, q) {
      assert Holder(s, q);
      if Busy(s, q) {
        var i :| 0 <= i < |s.tasks| && s.tasks[i] == Task(q, Active);
        assert u.tasks[i] == Task(q, Active);
      }
    }
    ExitReleases(s, t);
  }

  /** The runtime of a task that exits is busy afterwards if and only if it has another active task. */
  lemma ExitReleases(s: State, t: nat)
    requires t < |s.tasks| && s.tasks[t].phase.Active?
    ensures var r := s.tasks[t].runtime;
            Busy(SetTask(s, t, Exited), r) <==> exists u | 0 <= u < |s.tasks| && u != t :: s.tasks[u] == Task(r, Active)
  {
    var r, after := s.tasks[t].runtime, SetTask(s, t, Exited);
    if Busy(after, r) {
      var u :| 0 <= u < |s.tasks| && after.tasks[u] == Task(r, Active);
      assert u != t && s.tasks[u] == Task(r, Active);
    }
    if u :| 0 <= u < |s.tasks| && u != t && s.tasks[u] == Task(r, Active) {
      assert after.tasks[u] == Task(r, Active);
    }
  }

  /** A registry with one runtime, created for `root`. */
  function Single(root: string, users: int, cached: bool, leases: seq<Lease>, turns: seq<Turn>, tasks: seq<Task>): State {
    State([Runtime(root, false, users, Idle, false)], if cached then map[root := 0] else map[], if cached then {} else {0},
          leases, turns, if turns == [Turn(0, false)] then map[0 := 1] else map[], {0}, tasks, multiset{}, {})
  }

  /** A session starts a background task in a turn, and ends before the task does. */
  lemma TaskOutlivesSession(root: string)
    ensures Run(INIT, [Acquire(root, false), BeginTurn(0), StartTask(0), EndTurn(0), Release(0)])
         == Single(root, 0, true, [Lease(0, true)], [Turn(0, true)], [Task(0, Active)])
  {
    var s1 := Step(INIT, Acquire(root, false));
    assert s1 == Single(root, 1, true, [Lease(0, false)], [], []).(taskUsers := map[]);
    var s2 := Step(s1, BeginTurn(0));
    assert s2 == Single(root, 1, true, [Lease(0, false)], [Turn(0, false)], []);
    var s3 := Step(s2, StartTask(0));
    assert s3 == Single(root, 1, true, [Lease(0, false)], [Turn(0, false)], [Task(0, Active)]);
    TurnOver(root, s3);
    var s4 := Step(s3, EndTurn(0));
    var s5 := Step(s4, Release(0));
    assert Unheld(DropLease(s4, 0)) == {};
    assert s5 == Single(root, 0, true, [Lease(0, true)], [Turn(0, true)], [Task(0, Active)]);
    assert Run(s4, [Release(0)]) == s5 by { assert [Release(0)][1..] == []; }
    assert Run(s3, [EndTurn(0), Release(0)]) == s5 by { assert [EndTurn(0), Release(0)][1..] == [Release(0)]; }
    var rest := [StartTask(0), EndTurn(0), Release(0)];
    assert Run(s2, rest) == s5 by { assert rest[1..] == [EndTurn(0), Release(0)]; }
    assert Run(s1, [BeginTurn(0)] + rest) == s5 by { assert ([BeginTurn(0)] + rest)[1..] == rest; }
    var all := [Acquire(root, false)] + ([BeginTurn(0)] + rest);
    assert Run(INIT, all) == s5 by { assert all[1..] == [BeginTurn(0)] + rest; }
    assert all == [Acquire(root, false), BeginTurn(0), StartTask(0), EndTurn(0), Release(0)];
  }

  lemma TurnOver(root: string, s: State)
    requires s == Single(root, 1, true, [Lease(0, false)], [Turn(0, false)], [Task(0, Active)])
    ensures Step(s, EndTurn(0)) == Single(root, 1, true, [Lease(0, false)], [Turn(0, true)], [Task(0, Active)])
  {
    var t := DropTurn(s, 0);
    assert t.tasks[0] == Task(0, Active) && Busy(t, 0);
    assert Tracked(t) == {0};
    assert Unheld(t.(taskRuntimes := Tracked(t))) == {};
  }

  lemma {:induction false} RunConcat(s: State, a: seq<Event>, b: seq<Event>)
    ensures Run(s, a + b) == Run(Run(s, a), b)
    decreases |a|
  {
    if a == [] {
      assert a + b == b;
    } else {
      assert (a + b)[1..] == a[1..] + b;
      RunConcat(Step(s, a[0]), a[1..], b);
    }
  }

  lemma InvalidatedUnderTask(root: string, s: State)
    requires s == Single(root, 0, true, [Lease(0, true)], [Turn(0, true)], [Task(0, Active)])
    ensures Step(s, Invalidate(None)) == Single(root, 0, false, [Lease(0, true)], [Turn(0, true)], [Task(0, Active)])
  {
    assert Selected(s, None) == {root};
    var t := Move(s, {root});
    assert s.roots[root] == 0 && t.retired == {0} && t.roots == map[];
    assert t.tasks[0] == Task(0, Active) && Busy(t, 0);
    assert Unheld(t) == {} && Retire(s, None) == t;
    assert Tracked(t) == {0};
    assert Unheld(t.(taskRuntimes := Tracked(t))) == {};
  }

  /**
   If the report of that exit is lost, because the task's `onSettled` hook rejects, the retired
   runtime stays behind without any holder until the next step that collects.
   */
  lemma LostReportLeavesRuntime(root: string)
    ensures var s := Run(INIT, [Acquire(root, false), BeginTurn(0), StartTask(0), EndTurn(0), Release(0)]
                               + [Invalidate(None), TaskExits(0), ReportLost(0)]);
            s == Single(root, 0, false, [Lease(0, true)], [Turn(0, true)], [Task(0, Reported)])
            && 0 in s.retired && !Holder(s, 0) && 0 !in s.torn
  {
    TaskOutlivesSession(root);
    var s5 := Single(root, 0, true, [Lease(0, true)], [Turn(0, true)], [Task(0, Active)]);
    InvalidatedUnderTask(root, s5);
    var s6 := Step(s5, Invalidate(None));
    var s7 := Step(s6, TaskExits(0));
    var s8 := Step(s7, ReportLost(0));
    assert s8 == Single(root, 0, false, [Lease(0, true)], [Turn(0, true)], [Task(0, Reported)]);
    assert Run(s7, [ReportLost(0)]) == s8 by { assert [ReportLost(0)][1..] == []; }
    assert Run(s6, [TaskExits(0), ReportLost(0)]) == s8 by { assert [TaskExits(0), ReportLost(0)][1..] == [ReportLost(0)]; }
    var late := [Invalidate(None), TaskExits(0), ReportLost(0)];
    assert Run(s5, late) == s8 by { assert late[1..] == [TaskExits(0), ReportLost(0)]; }
    RunConcat(INIT, [Acquire(root, false), BeginTurn(0), StartTask(0), EndTurn(0), Release(0)], late);
  }

  // ---------------------------------------------------------------- counting background tasks

  function ActiveTasks(s: State): set<nat> {
    set t | 0 <= t < |s.tasks| && s.tasks[t].phase.Active?
  }

  /** The tasks the registry can see. */
  function VisibleTasks(s: State): set<nat> {
    set t | 0 <= t < |s.tasks| && s.tasks[t].phase.Active? && s.tasks[t].runtime in s.taskRuntimes
  }

  /** No active task is out of the registry's sight, also on runtimes that are retired or torn down. */
  lemma TaskCountIsExact(events: seq<Event>)
    ensures VisibleTasks(Run(INIT, events)) == ActiveTasks(Run(INIT, events))
  {
    InitHolds();
    RunKeeps(INIT, events);
    var s := Run(INIT, events);
    forall t | t in ActiveTasks(s) ensures t in VisibleTasks(s) {
      assert s.tasks[t] == Task(s.tasks[t].runtime, Active);
      assert Counted(s, s.tasks[t].runtime);
    }
  }
}
