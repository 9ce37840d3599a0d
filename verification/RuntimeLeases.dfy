/**
 `ProjectRuntimeRegistry` of `src/cli/createLocalGateway.ts`: runtimes are shared by root
 path, leased to sessions, and retired when their configuration changes.  A retired runtime
 is torn down once nothing holds it any more: no lease, no turn, no active background task
 and no memory maintenance.  Runtimes are numbered in the order of their creation.
 */
module RuntimeLeases {
  import opened Prelude

  /** The maintenance loop; `Leaving`: the loop has ended, its `finally` has not run yet. */
  datatype Maintenance = Idle | Running | Leaving

  datatype Runtime = Runtime(root: string, hasMemory: bool, users: int, maintenance: Maintenance, requested: bool)

  datatype Lease = Lease(runtime: nat, released: bool)

  datatype Turn = Turn(runtime: nat, ended: bool)

  /** `Exited`: the status has changed, but the completion has not been reported. */
  datatype Phase = Active | Exited | Reported

  datatype Task = Task(runtime: nat, phase: Phase)

  datatype State = State(
    objects: seq<Runtime>,
    roots: map<string, nat>,          // runtimes
    retired: set<nat>,
    leases: seq<Lease>,
    turns: seq<Turn>,
    taskUsers: map<nat, nat>,         // taskRuntimeUsers
    taskRuntimes: set<nat>,
    tasks: seq<Task>,
    torn: multiset<nat>,              // every teardown so far
    forced: set<nat>)                 // torn down by shutdown

  datatype Event =
    | Acquire(root: string, hasMemory: bool)      // prepareSessionRuntime
    | Release(lease: nat)
    | BeginTurn(lease: nat)
    | EndTurn(turn: nat)
    | StartTask(turn: nat)
    | TaskExits(task: nat)
    | TaskReports(task: nat)
    | ReportLost(task: nat)                       // the task's onSettled hook rejects
    | ScheduleMaintenance(root: string, hasMemory: bool)
    | MaintenancePass(runtime: nat)
    | MaintenanceEnds(runtime: nat, hasMemory: bool)
    | Invalidate(selected: Option<string>)
    | RefreshPython
    | CountTasks
    | Shutdown

  const INIT := State([], map[], {}, [], [], map[], {}, [], multiset{}, {})

  function Obj(s: State, r: nat): Runtime {
    if r < |s.objects| then s.objects[r] else Runtime("", false, 0, Idle, false)
  }

  // ---------------------------------------------------------------- who holds a runtime

  predicate Busy(s: State, r: nat) {
    exists t | 0 <= t < |s.tasks| :: s.tasks[t] == Task(r, Active)
  }

  predicate Current(s: State, r: nat) {
    exists k <- s.roots :: s.roots[k] == r
  }

  predicate Holder(s: State, r: nat) {
    Obj(s, r).users != 0 || r in s.taskUsers || Busy(s, r) || !Obj(s, r).maintenance.Idle?
  }

  // ---------------------------------------------------------------- the steps

  function SetObj(s: State, r: nat, runtime: Runtime): State {
    s.(objects := if r < |s.objects| then s.objects[r := runtime] else s.objects)
  }

  /** `collectRetired` */
  function Unheld(s: State): set<nat> { set r | r in s.retired && !Holder(s, r) }

  function Collect(s: State): State {
    s.(retired := s.retired - Unheld(s), torn := s.torn + multiset(Unheld(s)))
  }

  /** `activeBackgroundTaskCount`, for its effect. */
  function Tracked(s: State): set<nat> {
    set r | r in s.taskRuntimes && (Busy(s, r) || Current(s, r) || r in s.taskUsers)
  }

  function PruneTasks(s: State): State { Collect(s.(taskRuntimes := Tracked(s))) }

  /** `resolve`; `hasMemory` says whether a new runtime gets a memory service. */
  function Resolve(s: State, root: string, hasMemory: bool): State {
    if root in s.roots then s
    else s.(objects := s.objects + [Runtime(root, hasMemory, 0, Idle, false)],
            roots := s.roots[root := |s.objects|], taskRuntimes := s.taskRuntimes + {|s.objects|})
  }

  function At(s: State, root: string): nat { if root in s.roots then s.roots[root] else 0 }

  function AddLease(s: State, r: nat): State {
    SetObj(s, r, Obj(s, r).(users := Obj(s, r).users + 1)).(leases := s.leases + [Lease(r, false)])
  }

  function DropLease(s: State, l: nat): State
    requires l < |s.leases|
  {
    var r := s.leases[l].runtime;
    SetObj(s, r, Obj(s, r).(users := Obj(s, r).users - 1)).(leases := s.leases[l := Lease(r, true)])
  }

  function AddTurn(s: State, r: nat): State {
    s.(taskRuntimes := s.taskRuntimes + {r}, taskUsers := s.taskUsers[r := Count(s.taskUsers, r) + 1],
       turns := s.turns + [Turn(r, false)])
  }

  function UsersAfterTurn(s: State, r: nat): map<nat, nat> {
    if r in s.taskUsers && s.taskUsers[r] > 1 then s.taskUsers[r := s.taskUsers[r] - 1] else s.taskUsers - {r}
  }

  function DropTurn(s: State, t: nat): State
    requires t < |s.turns|
  {
    var r := s.turns[t].runtime;
    s.(taskUsers := UsersAfterTurn(s, r), turns := s.turns[t := Turn(r, true)])
  }

  function SetTask(s: State, t: nat, phase: Phase): State
    requires t < |s.tasks|
  {
    s.(tasks := s.tasks[t := s.tasks[t].(phase := phase)])
  }

  /** `scheduleMemoryMaintenance`: the loop's first pass takes the request at once. */
  function Schedule(s: State, r: nat): State {
    var o := Obj(s, r);
    if !o.hasMemory then s
    else SetObj(s, r, if o.maintenance.Idle? then o.(maintenance := Running, requested := false) else o.(requested := true))
  }

  function Pass(s: State, r: nat): State {
    var o := Obj(s, r);
    SetObj(s, r, if o.requested then o.(requested := false) else o.(maintenance := Leaving))
  }

  function Quit(s: State, r: nat): State { Collect(SetObj(s, r, Obj(s, r).(maintenance := Idle))) }

  function ScheduleAt(s: State, root: string, hasMemory: bool): State {
    Schedule(Resolve(s, root, hasMemory), At(Resolve(s, root, hasMemory), root))
  }

  function Reschedule(s: State, r: nat, hasMemory: bool): State {
    if Obj(s, r).requested then ScheduleAt(s, Obj(s, r).root, hasMemory) else s
  }

  function Selected(s: State, root: Option<string>): set<string> {
    set k | k in s.roots && (root.None? || k == root.value)
  }

  function Move(s: State, keys: set<string>): State {
    s.(retired := s.retired + (set k | k in keys && k in s.roots :: s.roots[k]), roots := s.roots - keys)
  }

  /** `retire` */
  function Retire(s: State, root: Option<string>): State { Collect(Move(s, Selected(s, root))) }

  function All(s: State): set<nat> { s.retired + (set k | k in s.roots :: s.roots[k]) }

  function Stop(s: State): State {
    s.(retired := {}, roots := map[], torn := s.torn + multiset(All(s)), forced := s.forced + All(s))
  }

  predicate Enabled(s: State, e: Event) {
    match e
    case Release(l) => l < |s.leases|
    case BeginTurn(l) => l < |s.leases|
    case EndTurn(t) => t < |s.turns| && !s.turns[t].ended
    case StartTask(t) => t < |s.turns| && !s.turns[t].ended
    case TaskExits(t) => t < |s.tasks| && s.tasks[t].phase.Active?
    case TaskReports(t) => t < |s.tasks| && s.tasks[t].phase.Exited?
    case ReportLost(t) => t < |s.tasks| && s.tasks[t].phase.Exited?
    case MaintenancePass(r) => r < |s.objects| && s.objects[r].maintenance.Running?
    case MaintenanceEnds(r, _) => r < |s.objects| && s.objects[r].maintenance.Leaving?
    case _ => true
  }

  /** One synchronous stretch of the registry; an event that is not enabled changes nothing. */
  function Step(s: State, e: Event): State {
    if !Enabled(s, e) then s else
    match e
    case Acquire(root, hasMemory) => AddLease(Resolve(s, root, hasMemory), At(Resolve(s, root, hasMemory), root))
    case Release(l) => if s.leases[l].released then s else Collect(DropLease(s, l))
    case BeginTurn(l) => AddTurn(s, s.leases[l].runtime)
    case EndTurn(t) => PruneTasks(DropTurn(s, t))
    case StartTask(t) => s.(tasks := s.tasks + [Task(s.turns[t].runtime, Active)])
    case TaskExits(t) => SetTask(s, t, Exited)
    case TaskReports(t) => PruneTasks(SetTask(s, t, Reported))
    case ReportLost(t) => SetTask(s, t, Reported)
    case ScheduleMaintenance(root, hasMemory) => ScheduleAt(s, root, hasMemory)
    case MaintenancePass(r) => Pass(s, r)
    case MaintenanceEnds(r, hasMemory) => Reschedule(Quit(s, r), r, hasMemory)
    case Invalidate(selected) => PruneTasks(Retire(s, selected))
    case RefreshPython => Retire(s, None)
    case CountTasks => PruneTasks(s)
    case Shutdown => PruneTasks(Stop(s))
  }

  function Run(s: State, events: seq<Event>): State
    decreases |events|
  {
    if events == [] then s else Run(Step(s, events[0]), events[1..])
  }

  // ---------------------------------------------------------------- counting

  function OpenLeases(leases: seq<Lease>, r: nat): nat {
    if leases == [] then 0
    else OpenLeases(leases[..|leases| - 1], r) + (if leases[|leases| - 1] == Lease(r, false) then 1 else 0)
  }

  function OpenTurns(turns: seq<Turn>, r: nat): nat {
    if turns == [] then 0
    else OpenTurns(turns[..|turns| - 1], r) + (if turns[|turns| - 1] == Turn(r, false) then 1 else 0)
  }

  lemma {:induction false} LeaseReleased(leases: seq<Lease>, l: nat, r: nat)
    requires l < |leases| && !leases[l].released
    ensures OpenLeases(leases[l := Lease(leases[l].runtime, true)], r)
         == OpenLeases(leases, r) - (if leases[l].runtime == r then 1 else 0)
    decreases |leases|
  {
    var n := |leases| - 1;
    var after := leases[l := Lease(leases[l].runtime, true)];
    if l < n {
      LeaseReleased(leases[..n], l, r);
      assert after[..n] == leases[..n][l := Lease(leases[l].runtime, true)];
    } else {
      assert after[..n] == leases[..n];
    }
  }

  lemma {:induction false} TurnEnded(turns: seq<Turn>, t: nat, r: nat)
    requires t < |turns| && !turns[t].ended
    ensures OpenTurns(turns[t := Turn(turns[t].runtime, true)], r)
         == OpenTurns(turns, r) - (if turns[t].runtime == r then 1 else 0)
    decreases |turns|
  {
    var n := |turns| - 1;
    var after := turns[t := Turn(turns[t].runtime, true)];
    if t < n {
      TurnEnded(turns[..n], t, r);
      assert after[..n] == turns[..n][t := Turn(turns[t].runtime, true)];
    } else {
      assert after[..n] == turns[..n];
    }
  }

  lemma {:induction false} OpenLeaseCounts(leases: seq<Lease>, l: nat)
    requires l < |leases| && !leases[l].released
    ensures OpenLeases(leases, leases[l].runtime) > 0
    decreases |leases|
  {
    if l < |leases| - 1 {
      OpenLeaseCounts(leases[..|leases| - 1], l);
    } else {
    }
  }

  lemma {:induction false} OpenTurnCounts(turns: seq<Turn>, t: nat)
    requires t < |turns| && !turns[t].ended
    ensures OpenTurns(turns, turns[t].runtime) > 0
    decreases |turns|
  {
    if t < |turns| - 1 {
      OpenTurnCounts(turns[..|turns| - 1], t);
    } else {
    }
  }

  // ---------------------------------------------------------------- the invariant

  /** A runtime is in one place: cached, retired or torn down, and torn down once at most. */
  predicate Placed(s: State, r: nat) {
    && s.torn[r] <= 1
    && (r in s.torn ==> r !in s.retired && !Current(s, r))
    && (r in s.retired ==> !Current(s, r))
    && (r < |s.objects| <==> r in s.retired || Current(s, r) || r in s.torn)
  }

  /** The counters agree with the leases and turns that are open. */
  predicate Counted(s: State, r: nat) {
    && Obj(s, r).users == OpenLeases(s.leases, r)
    && Count(s.taskUsers, r) == OpenTurns(s.turns, r)
    && (r in s.taskUsers ==> s.taskUsers[r] > 0 && r in s.taskRuntimes)
    && (Busy(s, r) ==> r in s.taskRuntimes)
  }

  /** Only shutdown tears down a runtime that is leased. */
  predicate LeaseKept(s: State, r: nat) {
    (r in s.torn && r !in s.forced ==> OpenLeases(s.leases, r) == 0) && (r in s.forced ==> r in s.torn)
  }

  predicate InRange(s: State) {
    && (forall l | 0 <= l < |s.leases| :: s.leases[l].runtime < |s.objects|)
    && (forall t | 0 <= t < |s.turns| :: s.turns[t].runtime < |s.objects|)
  }

  /** No runtime is cached under two roots. */
  predicate OneRootEach(s: State) {
    forall k, l | k in s.roots && l in s.roots :: s.roots[k] == s.roots[l] ==> k == l
  }

  ghost predicate Inv(s: State) {
    var sound :=
      && InRange(s) && OneRootEach(s)
      && (forall r: nat :: Placed(s, r))
      && (forall r: nat :: Counted(s, r))
      && (forall r: nat :: LeaseKept(s, r));
    sound
  }

  /** Every retired runtime still has a holder. */
  predicate Held(s: State) {
    forall r <- s.retired :: Holder(s, r)
  }
}
