/** When a paused project stays out of the cache, and when a cached session is up to date with its project. */
module SessionProjects {
  import opened Prelude
  import opened SessionProtocol
  import opened SessionInvariants
  import opened SessionSteps
  import opened SessionTheorems

  // ---------------------------------------------------------------- no cached record of a paused project

  /** Everything cached in `t` was cached in `s` with the same project, and no more projects are paused. */
  ghost predicate Inherits(s: State, t: State) {
    t.paused <= s.paused
    && forall k <- t.sessions :: k in s.sessions && Cached(t, k).ctx.project == Cached(s, k).ctx.project
  }

  lemma InheritsNonePaused(s: State, t: State)
    requires Inherits(s, t) && NonePaused(s)
    ensures NonePaused(t)
  {
  }

  lemma EvictInherits(s: State, keys: set<string>, remove: bool)
    ensures Inherits(s, Evict(s, keys, remove))
  {
  }

  lemma SweepInherits(s: State, now: int)
    ensures Inherits(s, Sweep(s, now))
  {
    EvictInherits(s, Idle(s, now), true);
  }

  lemma FinishInherits(s: State, id: nat, pc: Pc)
    requires id < |s.calls|
    ensures Inherits(s, Finish(s, id, pc))
  {
  }

  lemma CreateTrackedInherits(s: State, id: nat, target: Option<nat>, ctx: Context)
    requires id < |s.calls|
    ensures Inherits(s, CreateTracked(s, id, target, ctx))
  {
    SetPcInherits(s, id, CreateFailed);
    StartFactoryInherits(s, id, target, ctx);
  }

  lemma SetPcInherits(s: State, id: nat, pc: Pc)
    requires id < |s.calls|
    ensures Inherits(s, SetPc(s, id, pc))
  {
  }

  lemma StartFactoryInherits(s: State, id: nat, target: Option<nat>, ctx: Context)
    requires id < |s.calls|
    ensures Inherits(s, StartFactory(s, id, target, ctx))
  {
  }

  lemma UseRecordInherits(s: State, key: string, now: int)
    requires Inv(s)
    ensures Inherits(s, UseRecord(s, key, now))
  {
    if key in s.sessions { assert CacheInv(s, key); }
  }

  lemma DirtyInherits(s: State, keys: set<string>)
    ensures Inherits(s, Dirty(s, keys))
  {
  }

  /** Merging a context leaves a paused project's record behind exactly if it hands the project over. */
  lemma MergeNonePaused(s: State, id: nat, r: nat, t: State)
    requires Inv(s) && NonePaused(s) && id < |s.calls| && CachedAt(s, s.calls[id].ctx.key, r)
    requires t.sessions == s.sessions && t.paused == s.paused && |t.records| == |s.records|
    requires forall q | 0 <= q < |s.records| && q != r :: t.records[q] == s.records[q]
    requires Rec(t, r).ctx == Merged(s, r, s.calls[id]).ctx
    ensures NonePaused(t) <==> !(Rec(s, r).ctx.project.None? && IsPaused(s, s.calls[id].ctx.project))
  {
    var key := s.calls[id].ctx.key;
    assert CacheInv(s, key);
    forall k <- s.sessions | k != key
      ensures !IsPaused(t, Cached(t, k).ctx.project)
    {
      assert CacheInv(s, k);
    }
    assert key in t.sessions && Cached(t, key) == Rec(t, r) && Cached(s, key) == Rec(s, r);
  }

  lemma ReturnCachedNonePaused(s: State, id: nat, r: nat, now: int)
    requires Inv(s) && NonePaused(s) && id < |s.calls| && CachedAt(s, s.calls[id].ctx.key, r)
    ensures NonePaused(ReturnCached(s, id, r, now))
            <==> !(Rec(s, r).ctx.project.None? && IsPaused(s, s.calls[id].ctx.project))
  {
    assert CacheInv(s, s.calls[id].ctx.key);
    MergeNonePaused(s, id, r, ReturnCached(s, id, r, now));
  }

  lemma RefreshNonePaused(s: State, id: nat, r: nat)
    requires Inv(s) && NonePaused(s) && id < |s.calls| && CachedAt(s, s.calls[id].ctx.key, r)
    ensures NonePaused(Refresh(s, id, r))
            <==> !(Rec(s, r).ctx.project.None? && IsPaused(s, s.calls[id].ctx.project))
  {
    assert CacheInv(s, s.calls[id].ctx.key);
    MergeNonePaused(s, id, r, Refresh(s, id, r));
  }

  lemma ReuseNonePaused(s: State, id: nat, r: nat, now: int)
    requires Inv(s) && NonePaused(s) && id < |s.calls| && CachedAt(s, s.calls[id].ctx.key, r)
    ensures NonePaused(Reuse(s, id, r, now))
            <==> !(Rec(s, r).ctx.project.None? && IsPaused(s, s.calls[id].ctx.project))
  {
    RefreshNonePaused(s, id, r);
    ReturnCachedNonePaused(s, id, r, now);
  }

  lemma LookupNonePaused(s: State, id: nat, now: int)
    requires Inv(s) && NonePaused(s) && id < |s.calls|
    ensures var c := s.calls[id];
            NonePaused(Lookup(s, id, now))
            <==> !(!Closed(s, c) && c.ctx.key in s.sessions && Cached(s, c.ctx.key).ctx.project.None?
                   && IsPaused(s, c.ctx.project))
  {
    var c := s.calls[id];
    if Closed(s, c) { FinishInherits(s, id, Threw); }
    else if c.ctx.key in s.sessions { ReuseNonePaused(s, id, s.sessions[c.ctx.key], now); }
    else { CreateTrackedInherits(s, id, None, c.ctx); }
  }

  lemma AdmitNonePaused(s: State, id: nat, now: int)
    requires Inv(s) && NonePaused(s) && id < |s.calls|
    ensures NonePaused(Admit(s, id, now))
  {
    var key := s.calls[id].ctx.key;
    if IsPaused(s, s.calls[id].ctx.project) {
      FinishInherits(s, id, Threw);
      InheritsNonePaused(s, Finish(s, id, Threw));
    } else if key in s.closing {
      SetPcInherits(s, id, WaitClosing(s.closing[key]));
      InheritsNonePaused(s, SetPc(s, id, WaitClosing(s.closing[key])));
    } else {
      LookupNonePaused(s, id, now);
    }
  }

  lemma BeginNonePaused(s: State, ctx: Context, turn: Option<string>, now: int)
    requires Inv(s) && NonePaused(s)
    ensures NonePaused(Begin(s, ctx, turn, now))
  {
    if !s.isShutdown {
      SweepInherits(s, now);
      InheritsNonePaused(s, Sweep(s, now));
      InheritsNonePaused(Sweep(s, now), Join(Sweep(s, now), ctx, turn));
      SweepKeeps(s, now);
      JoinKeeps(Sweep(s, now), ctx, turn);
      AdmitNonePaused(Join(Sweep(s, now), ctx, turn), |s.calls|, now);
    }
  }

  lemma InstallNonePaused(s: State, id: nat, now: int)
    requires Inv(s) && NonePaused(s) && id < |s.calls| && s.calls[id].pc.Created?
    ensures NonePaused(Install(s, id, s.calls[id].pc.target, s.calls[id].pc.session, now))
  {
    assert CallInv(s, id);
    var pc := s.calls[id].pc;
    DisposeLateInherits(s, id, pc.session);
    if pc.target.Some? { IntoInherits(s, id, pc.target.value, pc.session, now); }
    else if !ProjectClosed(s, s.calls[id]) { NewRecordNonePaused(s, id, pc.session, now); }
  }

  lemma DisposeLateInherits(s: State, id: nat, p: nat)
    requires id < |s.calls|
    ensures Inherits(s, DisposeLate(s, id, p))
  {
  }

  lemma IntoInherits(s: State, id: nat, r: nat, p: nat, now: int)
    requires id < |s.calls| && r < |s.records|
    ensures Inherits(s, InstallInto(s, id, r, p, now))
  {
  }

  lemma NewRecordNonePaused(s: State, id: nat, p: nat, now: int)
    requires Inv(s) && NonePaused(s) && id < |s.calls| && !IsPaused(s, s.calls[id].ctx.project)
    ensures NonePaused(InstallNew(s, id, p, now))
  {
    forall k <- s.sessions ensures s.sessions[k] < |s.records| { assert CacheInv(s, k); }
  }

  lemma CloseProjectNonePaused(s: State, project: string)
    requires NonePaused(s)
    ensures NonePaused(CloseKeys(Pause(s, project), CachedOf(s, project)))
  {
  }

  lemma FactoryInherits(s: State, id: nat, ok: bool)
    requires id < |s.calls| && s.calls[id].pc.Creating?
    ensures Inherits(s, FactoryStep(s, id, ok))
  {
    assert Inherits(s, Reject(s, id));
    assert Inherits(s, DeliverPaused(s, id));
    assert Inherits(s, Deliver(s, id));
  }

  lemma ResumeClosingNonePaused(s: State, id: nat, now: int)
    requires Inv(s) && NonePaused(s) && Enabled(s, ResumeClosing(id, now))
    ensures NonePaused(Step(s, ResumeClosing(id, now))) <==> !Adopts(s, ResumeClosing(id, now))
  {
    FinishInherits(s, id, Threw);
    LookupNonePaused(s, id, now);
  }

  lemma ResumptionNonePaused(s: State, e: Event)
    requires Inv(s) && NonePaused(s) && Enabled(s, e) && Mover(s, e) < |s.calls| && !e.ResumeClosing?
    ensures NonePaused(Step(s, e))
  {
    var id := Mover(s, e);
    FinishInherits(s, id, Threw);
    match e
    case ResumeEvict(_) => CreateTrackedInherits(s, id, Some(s.calls[id].pc.rec), Rec(s, s.calls[id].pc.rec).ctx);
    case FactoryDone(_, ok) => FactoryInherits(s, id, ok);
    case ResumePausedDispose(_) =>
      SetPcInherits(DropTracked(s, s.calls[id].pc.session), id, CreateFailed);
    case ResumeCreated(_, now) => InstallNonePaused(s, id, now);
    case _ =>
  }

  lemma EnvironmentNonePaused(s: State, e: Event)
    requires Inv(s) && NonePaused(s) && Enabled(s, e) && Mover(s, e) == |s.calls| && !e.GetOrCreate?
    ensures NonePaused(Step(s, e))
  {
    if e.Close? || e.CloseProject? || e.SweepIdle? || e.Shutdown? { ClosingNonePaused(s, e); }
    else { UsingNonePaused(s, e); }
  }

  lemma ClosingNonePaused(s: State, e: Event)
    requires Inv(s) && NonePaused(s) && (e.Close? || e.CloseProject? || e.SweepIdle? || e.Shutdown?)
    ensures NonePaused(Step(s, e))
  {
    match e
    case Close(key) => CloseInherits(s, key);
    case CloseProject(project) => CloseProjectNonePaused(s, project);
    case SweepIdle(now) => SweepInherits(s, now);
    case Shutdown => ShutdownInherits(s);
  }

  lemma CloseInherits(s: State, key: string)
    ensures Inherits(s, Step(s, Close(key)))
  {
    EvictInherits(s.(generations := s.generations - {key}), {key} * s.sessions.Keys, true);
  }

  lemma ShutdownInherits(s: State)
    ensures Inherits(s, Step(s, Shutdown))
  {
    EvictInherits(s, s.sessions.Keys, true);
  }

  lemma UsingNonePaused(s: State, e: Event)
    requires Inv(s) && NonePaused(s) && Enabled(s, e) && Mover(s, e) == |s.calls| && !e.GetOrCreate?
    requires !(e.Close? || e.CloseProject? || e.SweepIdle? || e.Shutdown?)
    ensures NonePaused(Step(s, e))
  {
    match e
    case BeginTurn(key, run, now) => SweepInherits(s, now);
    case EndTurn(key, run, now) => TurnNonePaused(s, key, run, now);
    case Touch(key, now) => UseRecordInherits(s, key, now);
    case MarkAllDirty => DirtyInherits(s.(runtimeRevision := s.runtimeRevision + 1), s.sessions.Keys);
    case MarkProjectDirty(project) => ProjectDirtyNonePaused(s, project);
    case _ =>
  }

  lemma TurnNonePaused(s: State, key: string, run: Option<string>, now: int)
    requires Inv(s) && NonePaused(s)
    ensures NonePaused(UseRecord(FreeSlot(s, key, run), key, now))
  {
    FrameKeeps(s, FreeSlot(s, key, run));
    UseRecordInherits(FreeSlot(s, key, run), key, now);
  }

  lemma ProjectDirtyNonePaused(s: State, project: string)
    requires NonePaused(s)
    ensures NonePaused(Step(s, MarkProjectDirty(project)))
  {
    DirtyInherits(s.(projectRevisions := s.projectRevisions[project := Count(s.projectRevisions, project) + 1]),
                  CachedOf(s, project));
  }

  /** One step, exactly: a paused project gets into the cache if and only if a record adopts it. */
  lemma StepNonePaused(s: State, e: Event)
    requires Inv(s) && NonePaused(s)
    ensures NonePaused(Step(s, e)) <==> !Adopts(s, e)
  {
    if Enabled(s, e) {
      if e.GetOrCreate? { BeginNonePaused(s, e.ctx, e.turn, e.now); }
      else if e.ResumeClosing? { ResumeClosingNonePaused(s, e.id, e.now); }
      else if Mover(s, e) < |s.calls| { ResumptionNonePaused(s, e); }
      else { EnvironmentNonePaused(s, e); }
    }
  }

  /** No step of the run adopts a paused project. */
  ghost predicate NeverAdopts(s: State, events: seq<Event>)
    decreases |events|
  {
    events == [] || (!Adopts(s, events[0]) && NeverAdopts(Step(s, events[0]), events[1..]))
  }

  lemma {:induction false} PausedStaysOut(s: State, events: seq<Event>)
    requires Inv(s) && NonePaused(s) && NeverAdopts(s, events)
    ensures NonePaused(Run(s, events))
    decreases |events|
  {
    if events != [] {
      StepNonePaused(s, events[0]);
      StepKeeps(s, events[0]);
      PausedStaysOut(Step(s, events[0]), events[1..]);
    }
  }
}
