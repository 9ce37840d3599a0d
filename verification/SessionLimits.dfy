/** Concrete runs that show where the promises about paused projects stop. */
module SessionLimits {
  import opened Prelude
  import opened SessionProtocol
  import opened SessionInvariants
  import opened SessionSteps
  import opened SessionTheorems
  import opened SessionProjects

  lemma {:induction false} RunAppends(s: State, first: seq<Event>, second: seq<Event>)
    ensures Run(s, first + second) == Run(Run(s, first), second)
    decreases |first|
  {
    if first == [] {
      assert first + second == second;
    } else {
      RunAppends(Step(s, first[0]), first[1..], second);
      assert (first + second)[1..] == first[1..] + second;
    }
  }

  lemma RunTwo(s: State, e: Event, f: Event)
    ensures Run(s, [e, f]) == Step(Step(s, e), f)
  {
    assert [e, f][1..] == [f];
    assert Run(Step(s, e), [f]) == Run(Step(Step(s, e), f), [f][1..]);
  }

  /** A call on a key that is neither cached nor being closed starts a factory. */
  lemma FreshCall(config: Config, ctx: Context)
    ensures var t := Step(Init(config), GetOrCreate(ctx, None, 0));
            && t.calls == [Call(ctx, None, 0, 0, ctx.project.GetOr(""), 0, 0, Creating(None, 0))]
            && t.births == [Birth(0, 0, map[])] && t.creating == map[0 := ctx]
            && t.generations == map[ctx.key := 0] && t.nextSymbol == 1 && t.epoch == 1
            && t == Init(config).(calls := t.calls, births := t.births, creating := t.creating,
                                  generations := t.generations, nextSymbol := 1, epoch := 1)
  {
    var s := Sweep(Init(config), 0);
    assert s == Init(config).(epoch := 1);
    var s1 := Join(s, ctx, None);
    assert s1.calls == [Call(ctx, None, 0, 0, ctx.project.GetOr(""), 0, 0, Starting)];
  }

  /** One session cached under `ctx`, nothing in flight. */
  ghost function OneCached(config: Config, ctx: Context, dirty: bool, revision: nat): State {
    Init(config).(
      sessions := map[ctx.key := 0], records := [Record(0, 0, ctx, dirty)],
      calls := [Call(ctx, None, 0, 0, ctx.project.GetOr(""), 0, 0, Returned(0))],
      births := [Birth(0, 0, map[])], generations := map[ctx.key := 0], nextSymbol := 1, epoch := 1,
      fulfilled := {0}, runtimeRevision := revision)
  }

  lemma FreshCallCached(config: Config, ctx: Context)
    ensures Run(Init(config), [GetOrCreate(ctx, None, 0), FactoryDone(0, true), ResumeCreated(0, 0)])
            == OneCached(config, ctx, false, 0)
  {
    FreshCall(config, ctx);
    var s1 := Step(Init(config), GetOrCreate(ctx, None, 0));
    var s2 := Step(s1, FactoryDone(0, true));
    assert s2 == s1.(creating := map[], fulfilled := {0}, calls := [s1.calls[0].(pc := Created(None, 0))]);
    assert Step(s2, ResumeCreated(0, 0)) == OneCached(config, ctx, false, 0);
    RunTwo(s1, FactoryDone(0, true), ResumeCreated(0, 0));
  }

  /** The dirty session is being disposed of for a second call while a third one waits for that. */
  ghost function BeingRefreshed(config: Config, key: string, project: string): State {
    var ctx := Context(key, None);
    var s := OneCached(config, ctx, true, 1);
    s.(calls := s.calls + [Call(ctx, None, 0, 1, "", 0, 0, WaitEvict(0, Token(2, key))),
                           Call(Context(key, Some(project)), None, 0, 1, project, 0, 0, WaitClosing(Token(2, key)))],
       closing := map[key := Token(2, key)], disposed := {0}, nextSymbol := 3, epoch := 4)
  }

  lemma SecondCallRefreshes(config: Config, key: string)
    requires config.canRecreate && config.idleTimeout >= 0
    ensures Step(OneCached(config, Context(key, None), true, 1), GetOrCreate(Context(key, None), None, 0))
            == SecondRefreshing(config, key)
  {
    var ctx := Context(key, None);
    var s := OneCached(config, ctx, true, 1);
    assert Idle(s, 0) == {};
    assert Sweep(s, 0) == s.(epoch := 2);
    var s1 := Join(Sweep(s, 0), ctx, None);
    assert s1 == s.(epoch := 2, nextSymbol := 2, calls := s.calls + [Call(ctx, None, 0, 1, "", 0, 0, Starting)]);
    assert MergeContext(s1, 1, 0) == s1;
    assert Evict(s1, {key}, false) == s1.(closing := map[key := Token(2, key)], disposed := {0}, epoch := 3);
  }

  ghost function SecondRefreshing(config: Config, key: string): State {
    var s := OneCached(config, Context(key, None), true, 1);
    s.(calls := s.calls + [Call(Context(key, None), None, 0, 1, "", 0, 0, WaitEvict(0, Token(2, key)))],
       closing := map[key := Token(2, key)], disposed := {0}, nextSymbol := 2, epoch := 3)
  }

  lemma ThirdCallJoins(config: Config, key: string, project: string)
    requires config.idleTimeout >= 0
    ensures var s := SecondRefreshing(config, key);
            Join(Sweep(s, 0), Context(key, Some(project)), None)
            == s.(epoch := 4, nextSymbol := 3,
                  calls := s.calls + [Call(Context(key, Some(project)), None, 0, 1, project, 0, 0, Starting)])
  {
    var s := SecondRefreshing(config, key);
    assert Idle(s, 0) == {};
    assert Sweep(s, 0) == s.(epoch := 4);
  }

  lemma ThirdCallWaits(config: Config, key: string, project: string)
    requires config.idleTimeout >= 0 && project != ""
    ensures Step(SecondRefreshing(config, key), GetOrCreate(Context(key, Some(project)), None, 0))
            == BeingRefreshed(config, key, project)
  {
    ThirdCallJoins(config, key, project);
  }

  /** ... and then the project is closed and the disposal completes. */
  ghost function ClosedMeanwhile(config: Config, key: string, project: string, settled: bool): State {
    BeingRefreshed(config, key, project).(
      paused := {project}, projectGenerations := map[project := 1], epoch := 5,
      settled := if settled then map[Token(2, key) := true] else map[],
      closing := if settled then map[] else map[key := Token(2, key)])
  }

  lemma CloseNothing(s: State)
    ensures CloseKeys(s, {}) == s.(epoch := s.epoch + 1)
  {
    assert s.generations - {} == s.generations && s.sessions - {} == s.sessions;
    var none := {} * s.sessions.Keys;
    assert none == {};
    assert ClosingAfter(s, none) == s.closing && DisposedAfter(s, none) == s.disposed;
  }

  lemma PauseMeanwhile(config: Config, key: string, project: string)
    ensures var s := BeingRefreshed(config, key, project);
            && CachedOf(s, project) == {}
            && Pause(s, project) == s.(paused := {project}, projectGenerations := map[project := 1])
  {
  }

  lemma CloseMeanwhile(config: Config, key: string, project: string)
    ensures Step(BeingRefreshed(config, key, project), CloseProject(project))
            == ClosedMeanwhile(config, key, project, false)
  {
    var s := BeingRefreshed(config, key, project);
    PauseMeanwhile(config, key, project);
    CloseNothing(Pause(s, project));
  }

  lemma SettleMeanwhile(config: Config, key: string, project: string)
    ensures Step(ClosedMeanwhile(config, key, project, false), Settle(Token(2, key), true))
            == ClosedMeanwhile(config, key, project, true)
  {
  }

  lemma ThirdCallAdopts(config: Config, key: string, project: string)
    requires config.canRecreate && project != ""
    ensures Adopts(ClosedMeanwhile(config, key, project, true), ResumeClosing(2, 0))
  {
  }

  lemma RunOne(s: State, e: Event)
    ensures Run(s, [e]) == Step(s, e)
  {
    assert Run(Step(s, e), [e][1..]) == Step(s, e);
  }

  lemma ReloadDirties(config: Config, ctx: Context)
    ensures Step(OneCached(config, ctx, false, 0), MarkAllDirty) == OneCached(config, ctx, true, 1)
  {
    var s := OneCached(config, ctx, false, 0).(runtimeRevision := 1);
    assert ctx.key in s.sessions;
    assert Dirty(s, s.sessions.Keys).records == [Record(0, 0, ctx, true)];
  }

  lemma DirtyThenCalls(config: Config, key: string, project: string)
    requires config.canRecreate && config.idleTimeout >= 0 && project != ""
    ensures var s := OneCached(config, Context(key, None), false, 0);
            Run(s, [MarkAllDirty, GetOrCreate(Context(key, None), None, 0)]
                   + [GetOrCreate(Context(key, Some(project)), None, 0)]) == BeingRefreshed(config, key, project)
  {
    var s := OneCached(config, Context(key, None), false, 0);
    var second := GetOrCreate(Context(key, None), None, 0);
    var third := GetOrCreate(Context(key, Some(project)), None, 0);
    ReloadDirties(config, Context(key, None));
    RunTwo(s, MarkAllDirty, second);
    RunAppends(s, [MarkAllDirty, second], [third]);
    RunOne(Run(s, [MarkAllDirty, second]), third);
    SecondCallRefreshes(config, key);
    ThirdCallWaits(config, key, project);
  }

  lemma CloseThenSettle(config: Config, key: string, project: string)
    ensures Run(BeingRefreshed(config, key, project), [CloseProject(project), Settle(Token(2, key), true)])
            == ClosedMeanwhile(config, key, project, true)
  {
    RunTwo(BeingRefreshed(config, key, project), CloseProject(project), Settle(Token(2, key), true));
    CloseMeanwhile(config, key, project);
    SettleMeanwhile(config, key, project);
  }

  /** The first run of the counterexample, up to the step that adopts. */
  ghost function BeforeAdoption(key: string, project: string): seq<Event> {
    var plain := Context(key, None);
    [GetOrCreate(plain, None, 0), FactoryDone(0, true), ResumeCreated(0, 0)]
    + (([MarkAllDirty, GetOrCreate(plain, None, 0)] + [GetOrCreate(Context(key, Some(project)), None, 0)])
       + [CloseProject(project), Settle(Token(2, key), true)])
  }

  lemma BeforeAdoptionRuns(config: Config, key: string, project: string)
    requires config.canRecreate && config.idleTimeout >= 0 && project != ""
    ensures Run(Init(config), BeforeAdoption(key, project)) == ClosedMeanwhile(config, key, project, true)
  {
    var plain := Context(key, None);
    var first := [GetOrCreate(plain, None, 0), FactoryDone(0, true), ResumeCreated(0, 0)];
    var second := [MarkAllDirty, GetOrCreate(plain, None, 0)] + [GetOrCreate(Context(key, Some(project)), None, 0)];
    var third := [CloseProject(project), Settle(Token(2, key), true)];
    FreshCallCached(config, plain);
    RunAppends(Init(config), first, second + third);
    RunAppends(OneCached(config, plain, false, 0), second, third);
    DirtyThenCalls(config, key, project);
    CloseThenSettle(config, key, project);
  }

  /**
   With two projects on one key the promise fails.  A session is cached without a project
   and marked dirty; while its disposal is awaited a second call arrives for the same key
   with a project, the project is closed, and the waiting call then gives its project to
   the cached record.
   */
  lemma PausedProjectCanBeAdopted(config: Config, key: string, project: string)
    requires config.canRecreate && config.idleTimeout >= 0 && project != ""
    ensures !NonePaused(Run(Init(config), BeforeAdoption(key, project) + [ResumeClosing(2, 0)]))
  {
    var s := ClosedMeanwhile(config, key, project, true);
    BeforeAdoptionRuns(config, key, project);
    RunAppends(Init(config), BeforeAdoption(key, project), [ResumeClosing(2, 0)]);
    RunOne(s, ResumeClosing(2, 0));
    InitHolds(config);
    RunKeeps(Init(config), BeforeAdoption(key, project));
    AdoptionCachesPaused(config, key, project);
  }

  lemma AdoptionCachesPaused(config: Config, key: string, project: string)
    requires config.canRecreate && project != "" && Inv(ClosedMeanwhile(config, key, project, true))
    ensures !NonePaused(Step(ClosedMeanwhile(config, key, project, true), ResumeClosing(2, 0)))
  {
    var s := ClosedMeanwhile(config, key, project, true);
    ThirdCallAdopts(config, key, project);
    assert NonePaused(s);
    StepNonePaused(s, ResumeClosing(2, 0));
  }

  /** A state in which the empty project key is "paused" and a call for it has got as far as `pc`. */
  ghost predicate EmptyProjectAt(s: State, ctx: Context, pc: Pc) {
    && s.calls == [Call(ctx, None, 0, 0, "", 0, 1, pc)] && s.generations == map[ctx.key := 0]
    && s.paused == {""} && s.projectGenerations == map["" := 1] && !s.isShutdown && s.records == []
    && (pc == Creating(None, 0) ==> s.creating == map[0 := ctx])
  }

  ghost function EmptyPaused(config: Config): State {
    Init(config).(paused := {""}, projectGenerations := map["" := 1], epoch := 1)
  }

  lemma EmptyProjectPauses(config: Config)
    ensures Step(Init(config), CloseProject("")) == EmptyPaused(config)
  {
    var s := Pause(Init(config), "");
    assert CachedOf(Init(config), "") == {};
    assert CloseKeys(s, {}) == s.(epoch := 1);
  }

  lemma EmptyProjectCalls(config: Config, ctx: Context)
    requires ctx.project == Some("")
    ensures EmptyProjectAt(Step(EmptyPaused(config), GetOrCreate(ctx, None, 0)), ctx, Creating(None, 0))
  {
    var s := EmptyPaused(config);
    assert Sweep(s, 0) == s.(epoch := 2);
    assert Join(Sweep(s, 0), ctx, None).calls == [Call(ctx, None, 0, 0, "", 0, 1, Starting)];
  }

  lemma EmptyProjectDelivers(s: State, ctx: Context)
    requires ctx.project == Some("") && EmptyProjectAt(s, ctx, Creating(None, 0))
    ensures EmptyProjectAt(Step(s, FactoryDone(0, true)), ctx, Created(None, 0))
  {
    assert Step(s, FactoryDone(0, true)) == Deliver(s, 0);
  }

  lemma EmptyProjectInstalls(s: State, ctx: Context)
    requires ctx.project == Some("") && EmptyProjectAt(s, ctx, Created(None, 0))
    ensures var t := Step(s, ResumeCreated(0, 0));
            "" in t.paused && ctx.key in t.sessions && Cached(t, ctx.key).ctx.project == Some("")
  {
    assert Step(s, ResumeCreated(0, 0)) == InstallNew(s, 0, 0, 0);
  }

  /** An empty project key is falsy in every guard, so closing it keeps nothing out. */
  lemma EmptyProjectIsNotPaused(config: Config, key: string)
    ensures var t := Run(Init(config), [CloseProject(""), GetOrCreate(Context(key, Some("")), None, 0)]
                                       + [FactoryDone(0, true), ResumeCreated(0, 0)]);
            "" in t.paused && key in t.sessions && Cached(t, key).ctx.project == Some("")
  {
    var ctx := Context(key, Some(""));
    EmptyProjectPauses(config);
    EmptyProjectCalls(config, ctx);
    RunTwo(Init(config), CloseProject(""), GetOrCreate(ctx, None, 0));
    var s := Run(Init(config), [CloseProject(""), GetOrCreate(ctx, None, 0)]);
    RunAppends(Init(config), [CloseProject(""), GetOrCreate(ctx, None, 0)], [FactoryDone(0, true), ResumeCreated(0, 0)]);
    RunTwo(s, FactoryDone(0, true), ResumeCreated(0, 0));
    EmptyProjectDelivers(s, ctx);
    EmptyProjectInstalls(Step(s, FactoryDone(0, true)), ctx);
  }
}
