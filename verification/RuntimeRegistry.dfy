/** `ProjectRuntimeRegistry` as a class whose methods update its maps and sets in place. */
module RuntimeRegistry {
  import opened Prelude
  import L = RuntimeLeases

  class ProjectRuntimeRegistry {
    var objects: seq<L.Runtime>
    var roots: map<string, nat>
    var retired: set<nat>
    var leases: seq<L.Lease>
    var turns: seq<L.Turn>
    var taskUsers: map<nat, nat>
    var taskRuntimes: set<nat>
    var tasks: seq<L.Task>
    var torn: multiset<nat>
    var forced: set<nat>

    function View(): L.State
      reads this
    {
      L.State(objects, roots, retired, leases, turns, taskUsers, taskRuntimes, tasks, torn, forced)
    }

    constructor ()
      ensures View() == L.INIT
    {
      objects, roots, retired, leases, turns := [], map[], {}, [], [];
      taskUsers, taskRuntimes, tasks, torn, forced := map[], {}, [], multiset{}, {};
    }

    /** Stop a runtime's MCP servers, memory service and router. */
    method TearDown(r: nat)
      modifies this`torn
      ensures torn == old(torn) + multiset{r}
    {
      torn := torn + multiset{r};
    }

    method CollectRetired()
      modifies this`retired, this`torn
      ensures View() == L.Collect(old(View()))
    {
      CollectEach(View());
    }

    method CollectEach(ghost s: L.State)
      requires retired == s.retired && torn == s.torn
      requires objects == s.objects && taskUsers == s.taskUsers && tasks == s.tasks
      modifies this`retired, this`torn
      ensures retired == s.retired - L.Unheld(s) && torn == s.torn + multiset(L.Unheld(s))
    {
      var todo := retired;
      ghost var gone: set<nat> := {};
      while todo != {}
        invariant todo <= s.retired && gone <= L.Unheld(s) && gone !! todo
        invariant forall r | r in s.retired - todo :: r in L.Unheld(s) ==> r in gone
        invariant retired == s.retired - gone && torn == s.torn + multiset(gone)
        decreases todo
      {
        var r :| r in todo;
        todo := todo - {r};
        SameHolder(s, View(), r);
        if !L.Holder(View(), r) {
          OneMore(gone, r);
          retired := retired - {r};
          TearDown(r);
          gone := gone + {r};
        }
      }
      assert gone == L.Unheld(s);
    }

    /** `retire` */
    method Retire(selected: Option<string>)
      modifies this`roots, this`retired, this`torn
      ensures View() == L.Retire(old(View()), selected)
    {
      MoveSelected(selected);
      CollectRetired();
    }

    method MoveSelected(selected: Option<string>)
      modifies this`roots, this`retired
      ensures View() == L.Move(old(View()), L.Selected(old(View()), selected))
    {
      ghost var s := View();
      var todo := roots.Keys;
      ghost var seen: set<string> := {};
      while todo != {}
        invariant seen + todo == s.roots.Keys && seen !! todo
        invariant retired == L.Move(s, seen * L.Selected(s, selected)).retired
        invariant roots == L.Move(s, seen * L.Selected(s, selected)).roots
        decreases todo
      {
        var root :| root in todo;
        todo := todo - {root};
        if selected.None? || root == selected.value {
          assert (seen + {root}) * L.Selected(s, selected) == seen * L.Selected(s, selected) + {root};
          MoveOne(s, seen * L.Selected(s, selected), root);
          retired := retired + {roots[root]};
          roots := roots - {root};
        } else {
          assert (seen + {root}) * L.Selected(s, selected) == seen * L.Selected(s, selected);
        }
        seen := seen + {root};
      }
      assert seen * L.Selected(s, selected) == L.Selected(s, selected);
    }

    /** `activeBackgroundTaskCount` */
    method ActiveBackgroundTaskCount() returns (count: nat)
      modifies this`taskRuntimes, this`retired, this`torn
      ensures View() == L.PruneTasks(old(View()))
      ensures count == |Visible(old(View()), old(taskRuntimes))|
    {
      count := CountAndPrune(View());
      CollectRetired();
    }

    method CountAndPrune(ghost s: L.State) returns (count: nat)
      requires roots == s.roots && taskUsers == s.taskUsers && tasks == s.tasks && taskRuntimes == s.taskRuntimes
      modifies this`taskRuntimes
      ensures taskRuntimes == L.Tracked(s) && count == |Visible(s, s.taskRuntimes)|
    {
      var todo := taskRuntimes;
      ghost var seen: set<nat> := {};
      ghost var dropped: set<nat> := {};
      count := 0;
      assert Visible(s, {}) == {};
      while todo != {}
        invariant todo <= s.taskRuntimes && seen == s.taskRuntimes - todo
        invariant forall r | r in seen :: r in dropped <==> r !in L.Tracked(s)
        invariant dropped <= seen && taskRuntimes == s.taskRuntimes - dropped
        invariant count == |Visible(s, seen)|
        decreases todo
      {
        var r :| r in todo;
        todo := todo - {r};
        var active := CountOne(r);
        OneMoreRuntime(s, seen, r);
        KeptIff(s, r);
        dropped := if Forgettable(s.roots, s.taskUsers, s.tasks, r) then dropped + {r} else dropped;
        count := count + active;
        seen := seen + {r};
      }
      assert seen == s.taskRuntimes;
    }

    /** One pass of the loop: count a runtime's active tasks, and forget a runtime that can get no more. */
    method CountOne(r: nat) returns (active: nat)
      modifies this`taskRuntimes
      ensures active == |ActiveOn(tasks, r)|
      ensures taskRuntimes == if Forgettable(roots, taskUsers, tasks, r) then old(taskRuntimes) - {r} else old(taskRuntimes)
    {
      active := |ActiveOn(tasks, r)|;
      if active == 0 && !Cached(roots, r) && r !in taskUsers {
        taskRuntimes := taskRuntimes - {r};
      }
    }

    /** `resolve` */
    method Resolve(root: string, hasMemory: bool) returns (r: nat)
      modifies this`objects, this`roots, this`taskRuntimes
      ensures View() == L.Resolve(old(View()), root, hasMemory) && r == L.At(View(), root)
    {
      if root in roots {
        return roots[root];
      }
      r := |objects|;
      objects := objects + [L.Runtime(root, hasMemory, 0, L.Idle, false)];
      taskRuntimes := taskRuntimes + {r};
      roots := roots[root := r];
    }

    method SetObj(r: nat, o: L.Runtime)
      modifies this`objects
      ensures View() == L.SetObj(old(View()), r, o)
    {
      if r < |objects| {
        objects := objects[r := o];
      }
    }

    /** `prepareSessionRuntime` up to its first `await`. */
    method PrepareSessionRuntime(root: string, hasMemory: bool) returns (lease: nat)
      modifies this
      ensures View() == L.Step(old(View()), L.Acquire(root, hasMemory)) && lease == |old(leases)|
    {
      var r := Resolve(root, hasMemory);
      var o := L.Obj(View(), r);
      SetObj(r, o.(users := o.users + 1));
      lease := |leases|;
      leases := leases + [L.Lease(r, false)];
    }

    /** `releaseSessionResources`: only the first call counts. */
    method ReleaseSessionResources(lease: nat)
      requires lease < |leases|
      modifies this
      ensures View() == L.Step(old(View()), L.Release(lease))
    {
      if leases[lease].released { return; }
      DropLease(lease);
      CollectRetired();
    }

    method DropLease(lease: nat)
      requires lease < |leases|
      modifies this`leases, this`objects
      ensures View() == L.DropLease(old(View()), lease)
    {
      var r := leases[lease].runtime;
      leases := leases[lease := L.Lease(r, true)];
      var o := L.Obj(View(), r);
      SetObj(r, o.(users := o.users - 1));
    }

    /** `acquireTurnResources` */
    method AcquireTurnResources(lease: nat) returns (turn: nat)
      requires lease < |leases|
      modifies this`taskRuntimes, this`taskUsers, this`turns
      ensures View() == L.Step(old(View()), L.BeginTurn(lease)) && turn == |old(turns)|
    {
      var r := leases[lease].runtime;
      taskRuntimes := taskRuntimes + {r};
      taskUsers := taskUsers[r := Count(taskUsers, r) + 1];
      turn := |turns|;
      turns := turns + [L.Turn(r, false)];
    }

    method DropTurn(turn: nat)
      requires turn < |turns|
      modifies this`taskUsers, this`turns
      ensures View() == L.DropTurn(old(View()), turn)
    {
      var r := turns[turn].runtime;
      var held := if r in taskUsers then taskUsers[r] else 1;
      if held > 1 {
        taskUsers := taskUsers[r := held - 1];
      } else {
        taskUsers := taskUsers - {r};
      }
      turns := turns[turn := L.Turn(r, true)];
    }

    /** The release function a turn was given. */
    method ReleaseTurnResources(turn: nat)
      requires L.Enabled(View(), L.EndTurn(turn))
      modifies this
      ensures View() == L.Step(old(View()), L.EndTurn(turn))
    {
      DropTurn(turn);
      var _ := ActiveBackgroundTaskCount();
    }

    /** The runtime's `onCompletion` callback. */
    method OnTaskCompletion(task: nat)
      requires L.Enabled(View(), L.TaskReports(task))
      modifies this
      ensures View() == L.Step(old(View()), L.TaskReports(task))
    {
      tasks := tasks[task := tasks[task].(phase := L.Reported)];
      var _ := ActiveBackgroundTaskCount();
    }

    method Schedule(r: nat)
      modifies this`objects
      ensures View() == L.Schedule(old(View()), r)
    {
      var o := L.Obj(View(), r);
      if !o.hasMemory { return; }
      SetObj(r, if o.maintenance.Idle? then o.(maintenance := L.Running, requested := false) else o.(requested := true));
    }

    method ScheduleMemoryMaintenance(root: string, hasMemory: bool)
      modifies this
      ensures View() == L.ScheduleAt(old(View()), root, hasMemory)
    {
      var r := Resolve(root, hasMemory);
      Schedule(r);
    }

    /** The end of one pass of the maintenance loop. */
    method MaintenancePass(r: nat)
      requires L.Enabled(View(), L.MaintenancePass(r))
      modifies this`objects
      ensures View() == L.Step(old(View()), L.MaintenancePass(r))
    {
      var o := objects[r];
      SetObj(r, if o.requested then o.(requested := false) else o.(maintenance := L.Leaving));
    }

    /** The `finally` handler of the maintenance loop. */
    method MaintenanceEnds(r: nat, hasMemory: bool)
      requires L.Enabled(View(), L.MaintenanceEnds(r, hasMemory))
      modifies this
      ensures View() == L.Step(old(View()), L.MaintenanceEnds(r, hasMemory))
    {
      SetObj(r, objects[r].(maintenance := L.Idle));
      CollectRetired();
      if objects[r].requested {
        ScheduleMemoryMaintenance(objects[r].root, hasMemory);
      }
    }

    method Invalidate(selected: Option<string>)
      modifies this
      ensures View() == L.Step(old(View()), L.Invalidate(selected))
    {
      RetireAndPrune(selected);
    }

    method RetireAndPrune(selected: Option<string>)
      modifies this
      ensures View() == L.PruneTasks(L.Retire(old(View()), selected))
    {
      Retire(selected);
      var _ := ActiveBackgroundTaskCount();
    }

    /** `refreshPython`, when the interpreter has changed. */
    method RefreshPython()
      modifies this
      ensures View() == L.Step(old(View()), L.RefreshPython)
    {
      Retire(None);
    }

    method TearDownEach(runtimes: set<nat>)
      modifies this`torn
      ensures torn == old(torn) + multiset(runtimes)
    {
      var todo := runtimes;
      ghost var gone: set<nat> := {};
      while todo != {}
        invariant gone + todo == runtimes && gone !! todo && torn == old(torn) + multiset(gone)
        decreases todo
      {
        var r :| r in todo;
        todo := todo - {r};
        OneMore(gone, r);
        TearDown(r);
        gone := gone + {r};
      }
      assert gone == runtimes;
    }

    method StopAll()
      modifies this
      ensures View() == L.Stop(old(View()))
    {
      var runtimes := L.All(View());
      TearDownEach(runtimes);
      forced := forced + runtimes;
      retired, roots := {}, map[];
    }

    method Shutdown()
      modifies this
      ensures View() == L.Step(old(View()), L.Shutdown)
    {
      StopAll();
      var _ := ActiveBackgroundTaskCount();
    }
  }

  /** Who holds a runtime depends only on the runtimes, the turns and the tasks. */
  lemma SameHolder(s: L.State, t: L.State, r: nat)
    requires s.objects == t.objects && s.taskUsers == t.taskUsers && s.tasks == t.tasks
    ensures L.Holder(s, r) == L.Holder(t, r)
  {
  }

  /** `runtime.list({ status: ['pending', 'running'] })` */
  function ActiveOn(tasks: seq<L.Task>, r: nat): set<nat> {
    set t | 0 <= t < |tasks| && tasks[t] == L.Task(r, L.Active)
  }

  predicate Cached(roots: map<string, nat>, r: nat) {
    exists k <- roots :: roots[k] == r
  }

  predicate Forgettable(roots: map<string, nat>, taskUsers: map<nat, nat>, tasks: seq<L.Task>, r: nat) {
    |ActiveOn(tasks, r)| == 0 && !Cached(roots, r) && r !in taskUsers
  }

  lemma KeptIff(s: L.State, r: nat)
    requires r in s.taskRuntimes
    ensures r in L.Tracked(s) <==> !Forgettable(s.roots, s.taskUsers, s.tasks, r)
  {
    OneMoreRuntime(s, {}, r);
    assert L.Current(s, r) <==> Cached(s.roots, r);
  }

  lemma OneMore(gone: set<nat>, r: nat)
    requires r !in gone
    ensures multiset(gone + {r}) == multiset(gone) + multiset{r}
  {
  }

  lemma OneMoreRuntime(s: L.State, seen: set<nat>, r: nat)
    requires r !in seen
    ensures |Visible(s, seen + {r})| == |Visible(s, seen)| + |ActiveOn(s.tasks, r)|
    ensures L.Busy(s, r) <==> |ActiveOn(s.tasks, r)| != 0
  {
    var active := ActiveOn(s.tasks, r);
    assert Visible(s, seen + {r}) == Visible(s, seen) + active;
    if L.Busy(s, r) {
      var t :| 0 <= t < |s.tasks| && s.tasks[t] == L.Task(r, L.Active);
      assert t in active;
    }
    assert |active| != 0 ==> exists t :: t in active;
  }

  /** The active tasks on the given runtimes. */
  ghost function Visible(s: L.State, runtimes: set<nat>): set<nat> {
    set t | 0 <= t < |s.tasks| && s.tasks[t].phase.Active? && s.tasks[t].runtime in runtimes
  }

  lemma MoveOne(s: L.State, keys: set<string>, root: string)
    requires root in s.roots && root !in keys
    ensures L.Move(s, keys + {root}).retired == L.Move(s, keys).retired + {s.roots[root]}
    ensures L.Move(s, keys + {root}).roots == L.Move(s, keys).roots - {root}
    ensures root in L.Move(s, keys).roots && L.Move(s, keys).roots[root] == s.roots[root]
  {
  }
}
