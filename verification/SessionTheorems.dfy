/** The promises of the session cache, over every interleaving. */
module SessionTheorems {
  import opened Prelude
  import opened SessionProtocol
  import opened SessionInvariants
  import opened SessionSteps

  // ---------------------------------------------------------------- what a step does to a call

  /** The call is past its lookup and has not returned. */
  ghost predicate Committed(pc: Pc) {
    !pc.Starting? && !pc.WaitClosing? && !pc.Returned?
  }

  /**
   From `s` to `t` only call `id` may have moved.  Call `i` keeps the locals it captured, a
   rejection that is due stays due, a key that leaves the cache rejects, and a call that is
   due for rejection does not return a session: none at all once its key was closed, none of
   its own once its project was.
   */
  ghost predicate Follows(s: State, t: State, id: nat, i: nat)
    requires i < |s.calls|
  {
    && i < |t.calls|
    && t.calls[i] == s.calls[i].(pc := t.calls[i].pc)
    && (Closed(s, s.calls[i]) ==> Closed(t, t.calls[i]))
    && (ProjectClosed(s, s.calls[i]) ==> ProjectClosed(t, t.calls[i]))
    && (i != id ==> t.calls[i].pc == s.calls[i].pc)
    && (s.calls[i].ctx.key in s.sessions && s.calls[i].ctx.key !in t.sessions ==>
          Closed(t, t.calls[i]) && i != id)
    && |s.births| <= |t.births|
    && (forall p | 0 <= p < |s.births| :: t.births[p] == s.births[p])
    && (s.calls[i].pc.Returned? ==> t.calls[i].pc == s.calls[i].pc)
    && (!s.calls[i].pc.Returned? && Closed(s, s.calls[i]) ==> !t.calls[i].pc.Returned?)
    && (Committed(s.calls[i].pc) && ProjectClosed(s, s.calls[i]) ==> Committed(t.calls[i].pc))
    && (!s.calls[i].pc.Returned? && ProjectClosed(s, s.calls[i]) && t.calls[i].pc.Returned? ==>
          !Owns(t, i, t.calls[i].pc.session))
  }

  lemma FinishFollows(s: State, id: nat, pc: Pc, i: nat)
    requires id < |s.calls| && i < |s.calls| && pc.Threw? && !s.calls[id].pc.Returned?
    ensures Follows(s, Finish(s, id, pc), id, i)
  {
  }

  lemma ReturnCachedFollows(s: State, id: nat, r: nat, now: int, i: nat)
    requires Inv(s) && id < |s.calls| && i < |s.calls| && r < |s.records|
    requires !Closed(s, s.calls[id]) && !Committed(s.calls[id].pc) && !s.calls[id].pc.Returned?
    ensures Follows(s, ReturnCached(s, id, r, now), id, i)
  {
    assert RecordInv(s, r);
  }

  lemma RefreshFollows(s: State, id: nat, r: nat, i: nat)
    requires id < |s.calls| && i < |s.calls| && !s.calls[id].pc.Returned?
    ensures Follows(s, Refresh(s, id, r), id, i)
  {
  }

  lemma CreateTrackedFollows(s: State, id: nat, target: Option<nat>, ctx: Context, i: nat)
    requires id < |s.calls| && i < |s.calls| && !s.calls[id].pc.Returned?
    ensures Follows(s, CreateTracked(s, id, target, ctx), id, i)
  {
    CreateFailedFollows(s, id, i);
    StartFactoryFollows(s, id, target, ctx, i);
  }

  lemma CreateFailedFollows(s: State, id: nat, i: nat)
    requires id < |s.calls| && i < |s.calls| && !s.calls[id].pc.Returned?
    ensures Follows(s, SetPc(s, id, CreateFailed), id, i)
  {
  }

  lemma StartFactoryFollows(s: State, id: nat, target: Option<nat>, ctx: Context, i: nat)
    requires id < |s.calls| && i < |s.calls| && !s.calls[id].pc.Returned?
    ensures Follows(s, StartFactory(s, id, target, ctx), id, i)
  {
  }

  lemma LookupFollows(s: State, id: nat, now: int, i: nat)
    requires Inv(s) && id < |s.calls| && i < |s.calls|
    requires s.calls[id].pc.Starting? || s.calls[id].pc.WaitClosing?
    ensures Follows(s, Lookup(s, id, now), id, i)
  {
    FinishFollows(s, id, Threw, i);
    CreateTrackedFollows(s, id, None, s.calls[id].ctx, i);
    if s.calls[id].ctx.key in s.sessions && !Closed(s, s.calls[id]) {
      assert CacheInv(s, s.calls[id].ctx.key);
      RefreshFollows(s, id, s.sessions[s.calls[id].ctx.key], i);
      ReturnCachedFollows(s, id, s.sessions[s.calls[id].ctx.key], now, i);
    }
  }

  lemma WaitFollows(s: State, id: nat, pc: Pc, i: nat)
    requires id < |s.calls| && i < |s.calls| && pc.WaitClosing? && s.calls[id].pc.Starting?
    ensures Follows(s, SetPc(s, id, pc), id, i)
  {
  }

  lemma JoinFollows(s: State, now: int, ctx: Context, turn: Option<string>, i: nat)
    requires i < |s.calls| && CallInv(s, i)
    ensures Follows(s, Join(Sweep(s, now), ctx, turn), |s.calls|, i)
  {
  }

  lemma BeginFollows(s: State, ctx: Context, turn: Option<string>, now: int, i: nat)
    requires Inv(s) && i < |s.calls|
    ensures Follows(s, Begin(s, ctx, turn, now), |s.calls|, i)
  {
    assert CallInv(s, i);
    if !s.isShutdown {
      JoinFollows(s, now, ctx, turn, i);
      SweepKeeps(s, now);
      JoinKeeps(Sweep(s, now), ctx, turn);
      AdmitFollows(Join(Sweep(s, now), ctx, turn), |s.calls|, now, i);
    }
  }

  lemma AdmitFollows(s: State, id: nat, now: int, i: nat)
    requires Inv(s) && id < |s.calls| && i < |s.calls| && s.calls[id].pc.Starting?
    ensures Follows(s, Admit(s, id, now), id, i)
  {
    FinishFollows(s, id, Threw, i);
    LookupFollows(s, id, now, i);
    if s.calls[id].ctx.key in s.closing { WaitFollows(s, id, WaitClosing(s.closing[s.calls[id].ctx.key]), i); }
  }

  lemma InstallFollows(s: State, id: nat, now: int, i: nat)
    requires Inv(s) && id < |s.calls| && i < |s.calls| && s.calls[id].pc.Created?
    ensures Follows(s, Install(s, id, s.calls[id].pc.target, s.calls[id].pc.session, now), id, i)
  {
    DisposeLateFollows(s, id, s.calls[id].pc.session, i);
    if !Closed(s, s.calls[id]) && !ProjectClosed(s, s.calls[id]) { InTimeFollows(s, id, now, i); }
  }

  lemma DisposeLateFollows(s: State, id: nat, p: nat, i: nat)
    requires id < |s.calls| && i < |s.calls| && !s.calls[id].pc.Returned?
    ensures Follows(s, DisposeLate(s, id, p), id, i)
  {
  }

  lemma InTimeFollows(s: State, id: nat, now: int, i: nat)
    requires id < |s.calls| && i < |s.calls| && s.calls[id].pc.Created?
    requires !Closed(s, s.calls[id]) && !ProjectClosed(s, s.calls[id])
    ensures Follows(s, Install(s, id, s.calls[id].pc.target, s.calls[id].pc.session, now), id, i)
  {
    var pc := s.calls[id].pc;
    if pc.target.Some? { IntoFollows(s, id, pc.target.value, pc.session, now, i); }
    else { NewFollows(s, id, pc.session, now, i); }
  }

  lemma IntoFollows(s: State, id: nat, r: nat, p: nat, now: int, i: nat)
    requires id < |s.calls| && i < |s.calls| && !Closed(s, s.calls[id]) && !ProjectClosed(s, s.calls[id])
    requires !s.calls[id].pc.Returned?
    ensures Follows(s, InstallInto(s, id, r, p, now), id, i)
  {
  }

  lemma NewFollows(s: State, id: nat, p: nat, now: int, i: nat)
    requires id < |s.calls| && i < |s.calls| && !Closed(s, s.calls[id]) && !ProjectClosed(s, s.calls[id])
    requires !s.calls[id].pc.Returned?
    ensures Follows(s, InstallNew(s, id, p, now), id, i)
  {
  }

  lemma RejectFollows(s: State, id: nat, i: nat)
    requires id < |s.calls| && i < |s.calls| && s.calls[id].pc.Creating?
    ensures Follows(s, Reject(s, id), id, i)
  {
  }

  lemma DeliverPausedFollows(s: State, id: nat, i: nat)
    requires id < |s.calls| && i < |s.calls| && s.calls[id].pc.Creating?
    ensures Follows(s, DeliverPaused(s, id), id, i)
  {
  }

  lemma DeliverFollows(s: State, id: nat, i: nat)
    requires id < |s.calls| && i < |s.calls| && s.calls[id].pc.Creating?
    ensures Follows(s, Deliver(s, id), id, i)
  {
  }

  /** Which call an event advances; an event of the environment advances none. */
  ghost function Mover(s: State, e: Event): nat {
    match e
    case ResumeClosing(id, _) => id
    case ResumeEvict(id) => id
    case FactoryDone(id, _) => id
    case ResumePausedDispose(id) => id
    case ResumeFailed(id) => id
    case ResumeCreated(id, _) => id
    case ResumeLateDispose(id) => id
    case _ => |s.calls|
  }

  lemma ResumptionFollows(s: State, e: Event, i: nat)
    requires Inv(s) && Enabled(s, e) && i < |s.calls| && Mover(s, e) < |s.calls|
    ensures Follows(s, Step(s, e), Mover(s, e), i)
  {
    if e.ResumeClosing? || e.ResumeEvict? || e.FactoryDone? {
      AwaitOver(s, e, i);
    } else {
      CreationOver(s, e, i);
    }
  }

  /** A wait for a disposal or a factory is over. */
  lemma AwaitOver(s: State, e: Event, i: nat)
    requires Inv(s) && Enabled(s, e) && i < |s.calls| && (e.ResumeClosing? || e.ResumeEvict? || e.FactoryDone?)
    ensures Follows(s, Step(s, e), Mover(s, e), i)
  {
    var id := Mover(s, e);
    match e
    case ResumeClosing(_, now) => LookupFollows(s, id, now, i); FinishFollows(s, id, Threw, i);
    case ResumeEvict(_) =>
      FinishFollows(s, id, Threw, i);
      CreateTrackedFollows(s, id, Some(s.calls[id].pc.rec), Rec(s, s.calls[id].pc.rec).ctx, i);
    case FactoryDone(_, ok) => RejectFollows(s, id, i); DeliverPausedFollows(s, id, i); DeliverFollows(s, id, i);
    case _ =>
  }

  /** `createTrackedSession` has returned, or the disposal of what it created is over. */
  lemma CreationOver(s: State, e: Event, i: nat)
    requires Inv(s) && Enabled(s, e) && i < |s.calls| && Mover(s, e) < |s.calls|
    requires !(e.ResumeClosing? || e.ResumeEvict? || e.FactoryDone?)
    ensures Follows(s, Step(s, e), Mover(s, e), i)
  {
    var id := Mover(s, e);
    match e
    case ResumePausedDispose(_) =>
    case ResumeFailed(_) => FinishFollows(s, id, Threw, i);
    case ResumeCreated(_, now) => InstallFollows(s, id, now, i);
    case ResumeLateDispose(_) => FinishFollows(s, id, Threw, i);
    case _ =>
  }

  lemma StepFollows(s: State, e: Event, i: nat)
    requires Inv(s) && i < |s.calls|
    ensures Follows(s, Step(s, e), Mover(s, e), i)
  {
    assert CallInv(s, i);
    if Enabled(s, e) {
      if e.GetOrCreate? { BeginFollows(s, e.ctx, e.turn, e.now, i); }
      else if Mover(s, e) < |s.calls| { ResumptionFollows(s, e, i); }
      else { EnvironmentFollows(s, e, i); }
    }
  }

  /** No call moves; symbols only go, and project generations only grow. */
  ghost predicate Quiet(s: State, t: State) {
    && t.calls == s.calls && t.births == s.births
    && (s.isShutdown ==> t.isShutdown)
    && (forall k <- t.generations :: k in s.generations && t.generations[k] == s.generations[k])
    && (forall p :: Count(s.projectGenerations, p) <= Count(t.projectGenerations, p))
    && (forall k <- s.sessions :: k in t.sessions || k !in t.generations)
  }

  lemma QuietFollows(s: State, t: State, id: nat, i: nat)
    requires i < |s.calls| && CallInv(s, i) && Quiet(s, t) && i != id
    ensures Follows(s, t, id, i)
  {
  }

  lemma EvictQuiet(s: State, keys: set<string>)
    ensures Quiet(s, Evict(s, keys, true))
  {
  }

  lemma CloseQuiet(s: State, keys: set<string>)
    ensures Quiet(s, CloseKeys(s, keys))
  {
  }

  lemma CloseProjectQuiet(s: State, project: string)
    ensures Quiet(s, CloseKeys(Pause(s, project), CachedOf(s, project)))
  {
    CloseQuiet(Pause(s, project), CachedOf(s, project));
  }

  lemma UseRecordQuiet(s: State, key: string, now: int)
    ensures Quiet(s, UseRecord(s, key, now))
  {
  }

  lemma FreeSlotQuiet(s: State, key: string, run: Option<string>)
    ensures Quiet(s, FreeSlot(s, key, run))
  {
  }

  lemma TakeSlotQuiet(s: State, key: string, run: string)
    ensures Quiet(s, TakeSlot(s, key, run))
  {
  }

  lemma QuietChains(s: State, t: State, u: State)
    requires Quiet(s, t) && Quiet(t, u)
    ensures Quiet(s, u)
  {
  }

  lemma DirtyQuiet(s: State, keys: set<string>)
    ensures Quiet(s, Dirty(s, keys))
  {
  }

  lemma MarkAllQuiet(s: State, revision: nat)
    ensures Quiet(s, Dirty(s.(runtimeRevision := revision), s.sessions.Keys))
  {
    DirtyQuiet(s.(runtimeRevision := revision), s.sessions.Keys);
  }

  lemma MarkProjectQuiet(s: State, revisions: map<string, nat>, keys: set<string>)
    ensures Quiet(s, Dirty(s.(projectRevisions := revisions), keys))
  {
    DirtyQuiet(s.(projectRevisions := revisions), keys);
  }

  lemma ShutdownQuiet(s: State)
    ensures Quiet(s, ShutDown(s))
  {
  }

  lemma FieldsQuiet(s: State, e: Event)
    requires e.ResumeProject? || e.DrainDispose? || e.Settle?
    ensures Quiet(s, Step(s, e))
  {
    match e
    case ResumeProject(project) => ResumeQuiet(s, project);
    case DrainDispose(p) => DrainQuiet(s, p);
    case Settle(token, ok) => SettleQuiet(s, token, ok);
    case _ =>
  }

  lemma ResumeQuiet(s: State, project: string)
    ensures Quiet(s, Step(s, ResumeProject(project)))
  {
  }

  lemma DrainQuiet(s: State, p: nat)
    ensures Quiet(s, Step(s, DrainDispose(p)))
  {
  }

  lemma SettleQuiet(s: State, token: Token, ok: bool)
    ensures Quiet(s, Step(s, Settle(token, ok)))
  {
  }

  lemma EnvironmentQuiet(s: State, e: Event)
    requires Mover(s, e) == |s.calls| && !e.GetOrCreate? && Enabled(s, e)
    ensures Quiet(s, Step(s, e))
  {
    match e
    case Close(key) => CloseQuiet(s, {key});
    case CloseProject(project) => CloseProjectQuiet(s, project);
    case SweepIdle(now) => EvictQuiet(s, Idle(s, now));
    case Shutdown => ShutdownQuiet(s);
    case BeginTurn(key, run, now) =>
      EvictQuiet(s, Idle(s, now));
      TakeSlotQuiet(Sweep(s, now), key, run);
      QuietChains(s, Sweep(s, now), TakeSlot(Sweep(s, now), key, run));
    case EndTurn(key, run, now) =>
      FreeSlotQuiet(s, key, run);
      UseRecordQuiet(FreeSlot(s, key, run), key, now);
      QuietChains(s, FreeSlot(s, key, run), UseRecord(FreeSlot(s, key, run), key, now));
    case Touch(key, now) => UseRecordQuiet(s, key, now);
    case MarkAllDirty => MarkAllQuiet(s, s.runtimeRevision + 1);
    case MarkProjectDirty(project) =>
      MarkProjectQuiet(s, s.projectRevisions[project := Count(s.projectRevisions, project) + 1], CachedOf(s, project));
    case _ => FieldsQuiet(s, e);
  }

  lemma EnvironmentFollows(s: State, e: Event, i: nat)
    requires i < |s.calls| && CallInv(s, i) && Enabled(s, e) && Mover(s, e) == |s.calls| && !e.GetOrCreate?
    ensures Follows(s, Step(s, e), Mover(s, e), i)
  {
    EnvironmentQuiet(s, e);
    QuietFollows(s, Step(s, e), Mover(s, e), i);
  }

  // ---------------------------------------------------------------- closing a key

  ghost predicate Running(s: State, id: nat) { id < |s.calls| && !Finished(s.calls[id].pc) }

  /** The session cached under the key has been idle for too long. */
  ghost predicate Sweeps(s: State, now: int, key: string) { !s.isShutdown && key in Idle(s, now) }

  /** The event closes the key: explicitly, with its project, by a sweep of idle sessions, or by shutdown. */
  ghost predicate ClosesKey(s: State, e: Event, key: string) {
    match e
    case Close(k) => k == key
    case CloseProject(project) => key in CachedOf(s, project)
    case SweepIdle(now) => Sweeps(s, now, key)
    case GetOrCreate(_, _, now) => Sweeps(s, now, key)
    case BeginTurn(_, _, now) => Sweeps(s, now, key)
    case Shutdown => true
    case _ => false
  }

  /** The call has been cut off: its key was closed before it returned. */
  ghost predicate CutOff(s: State, id: nat) {
    id < |s.calls| && Closed(s, s.calls[id]) && !s.calls[id].pc.Returned?
  }

  /** A record leaves the cache together with the symbol of its key. */
  lemma ClosingCutsOff(s: State, e: Event, id: nat)
    requires Inv(s) && Running(s, id) && ClosesKey(s, e, s.calls[id].ctx.key)
    ensures CutOff(Step(s, e), id)
  {
    if e.Close? { ClosedByClose(s, id); }
    else if e.Shutdown? { ClosedByShutdown(s, id); }
    else if e.CloseProject? {
      ProjectLeaves(s, e.project, s.calls[id].ctx.key);
      ClosedByLeaving(s, e, id);
    } else {
      SweptLeaves(s, e, s.calls[id].ctx.key);
      ClosedByLeaving(s, e, id);
    }
  }

  lemma ProjectLeaves(s: State, project: string, key: string)
    requires key in CachedOf(s, project)
    ensures key in s.sessions && key !in Step(s, CloseProject(project)).sessions
  {
  }

  lemma PcKeepsCache(s: State, id: nat, pc: Pc)
    requires id < |s.calls|
    ensures SetPc(s, id, pc).sessions == s.sessions
  {
  }

  lemma FinishKeepsCache(s: State, id: nat, pc: Pc)
    requires id < |s.calls|
    ensures Finish(s, id, pc).sessions == s.sessions
  {
  }

  lemma RefreshKeepsCache(s: State, id: nat, r: nat)
    requires id < |s.calls|
    ensures Refresh(s, id, r).sessions == s.sessions
  {
    var merged := MergeContext(s, id, r);
    assert Evict(merged, {s.calls[id].ctx.key}, false).sessions == merged.sessions;
  }

  lemma ReturnKeepsCache(s: State, id: nat, r: nat, now: int)
    requires id < |s.calls|
    ensures ReturnCached(s, id, r, now).sessions == s.sessions
  {
    var rewritten := Rewrite(s, r, Merged(s, r, s.calls[id]).(lastUsedAt := now));
    FinishKeepsCache(rewritten, id, Returned(Rec(s, r).session));
  }

  lemma ReuseKeepsCache(s: State, id: nat, r: nat, now: int)
    requires id < |s.calls|
    ensures Reuse(s, id, r, now).sessions == s.sessions
  {
    RefreshKeepsCache(s, id, r);
    ReturnKeepsCache(s, id, r, now);
  }

  lemma CreateKeepsCache(s: State, id: nat, target: Option<nat>, ctx: Context)
    requires id < |s.calls|
    ensures CreateTracked(s, id, target, ctx).sessions == s.sessions
  {
    if IsPaused(s, ctx.project) {
      PcKeepsCache(s, id, CreateFailed);
    } else {
      var p := |s.births|;
      var begun := s.(births := s.births + [Birth(id, s.runtimeRevision, s.projectRevisions)],
                      creating := s.creating[p := ctx]);
      PcKeepsCache(begun, id, Creating(target, p));
    }
  }

  /** Looking a key up may refresh or return its record, but it neither adds nor removes one. */
  lemma LookupKeepsCache(s: State, id: nat, now: int)
    requires id < |s.calls|
    ensures Lookup(s, id, now).sessions == s.sessions
  {
    var c := s.calls[id];
    FinishKeepsCache(s, id, Threw);
    CreateKeepsCache(s, id, None, c.ctx);
    if c.ctx.key in s.sessions { ReuseKeepsCache(s, id, s.sessions[c.ctx.key], now); }
  }

  lemma AdmitKeepsCache(s: State, id: nat, now: int)
    requires id < |s.calls|
    ensures Admit(s, id, now).sessions == s.sessions
  {
    LookupKeepsCache(s, id, now);
  }

  lemma SweptLeaves(s: State, e: Event, key: string)
    requires (e.SweepIdle? || e.GetOrCreate? || e.BeginTurn?) && Sweeps(s, e.now, key)
    ensures key in s.sessions && key !in Step(s, e).sessions
  {
    if e.GetOrCreate? { AdmitKeepsCache(Join(Sweep(s, e.now), e.ctx, e.turn), |s.calls|, e.now); }
  }

  lemma ClosedByLeaving(s: State, e: Event, id: nat)
    requires Inv(s) && Running(s, id)
    requires s.calls[id].ctx.key in s.sessions && s.calls[id].ctx.key !in Step(s, e).sessions
    ensures CutOff(Step(s, e), id)
  {
    StepFollows(s, e, id);
    LeavingCutsOff(s, Step(s, e), Mover(s, e), id);
  }

  lemma LeavingCutsOff(s: State, t: State, mover: nat, id: nat)
    requires Running(s, id) && Follows(s, t, mover, id)
    requires s.calls[id].ctx.key in s.sessions && s.calls[id].ctx.key !in t.sessions
    ensures CutOff(t, id)
  {
  }

  lemma ClosedByShutdown(s: State, id: nat)
    requires Running(s, id)
    ensures CutOff(Step(s, Shutdown), id)
  {
  }

  lemma ClosedByClose(s: State, id: nat)
    requires Running(s, id)
    ensures CutOff(Step(s, Close(s.calls[id].ctx.key)), id)
  {
    KeyClosed(s, s.calls[id].ctx.key);
  }

  lemma KeyClosed(s: State, key: string)
    ensures CloseKeys(s, {key}).calls == s.calls && key !in CloseKeys(s, {key}).generations
  {
  }

  lemma {:induction false} CutOffLasts(s: State, id: nat, events: seq<Event>)
    requires Inv(s) && CutOff(s, id)
    ensures CutOff(Run(s, events), id)
    decreases |events|
  {
    if events != [] {
      StepFollows(s, events[0], id);
      StepKeeps(s, events[0]);
      CutOffLasts(Step(s, events[0]), id, events[1..]);
    }
  }

  /** Neither cached nor referenced by any record, and disposed of if its factory produced it. */
  ghost predicate Discarded(s: State, p: nat) {
    && (forall r | 0 <= r < |s.records| :: s.records[r].session != p)
    && (p in s.fulfilled ==> p in s.disposed)
  }

  /**
   If a key is closed, swept as idle or shut down while a getOrCreate on it is running,
   then, whatever happens next and in whatever order, that call never returns a session;
   none of its sessions is ever installed; and once it has ended, every session its
   factory produced has been disposed of.
   */
  lemma ClosedWhileRunning(config: Config, before: seq<Event>, e: Event, after: seq<Event>, id: nat)
    requires var s := Run(Init(config), before);
             Running(s, id) && ClosesKey(s, e, s.calls[id].ctx.key)
    ensures var t := Run(Step(Run(Init(config), before), e), after);
            && id < |t.calls| && !t.calls[id].pc.Returned?
            && (forall p, r | Owns(t, id, p) && 0 <= r < |t.records| :: t.records[r].session != p)
            && (Finished(t.calls[id].pc) ==> forall p | Owns(t, id, p) :: Discarded(t, p))
  {
    InitHolds(config);
    RunKeeps(Init(config), before);
    var s := Run(Init(config), before);
    ClosingCutsOff(s, e, id);
    StepKeeps(s, e);
    CutOffLasts(Step(s, e), id, after);
    RunKeeps(Step(s, e), after);
    NothingCreated(Run(Step(s, e), after), id);
  }

  /** No session of a call that was cut off is in a record, and once it has ended all are disposed of. */
  lemma NothingCreated(t: State, id: nat)
    requires Inv(t) && CutOff(t, id)
    ensures forall p, r | Owns(t, id, p) && 0 <= r < |t.records| :: t.records[r].session != p
    ensures Finished(t.calls[id].pc) ==> forall p | Owns(t, id, p) :: Discarded(t, p)
  {
    forall p, r | Owns(t, id, p) && 0 <= r < |t.records| ensures t.records[r].session != p { assert RecordInv(t, r); }
    if Finished(t.calls[id].pc) {
      forall p | Owns(t, id, p) ensures Discarded(t, p) { assert SessionInv(t, p); }
    }
  }

  // ---------------------------------------------------------------- pausing a project

  ghost predicate Rejected(s: State, id: nat) {
    var rejected :=
      && id < |s.calls| && ProjectClosed(s, s.calls[id])
      && (s.calls[id].pc.Returned? ==> !Owns(s, id, s.calls[id].pc.session));
    rejected
  }

  lemma {:induction false} RejectedLasts(s: State, id: nat, events: seq<Event>)
    requires Inv(s) && Rejected(s, id)
    ensures Rejected(Run(s, events), id)
    ensures Committed(s.calls[id].pc) ==> Committed(Run(s, events).calls[id].pc)
    decreases |events|
  {
    if events != [] {
      StepRejects(s, events[0], id);
      StepKeeps(s, events[0]);
      RejectedLasts(Step(s, events[0]), id, events[1..]);
    }
  }

  lemma StepRejects(s: State, e: Event, id: nat)
    requires Inv(s) && Rejected(s, id)
    ensures Rejected(Step(s, e), id)
    ensures Committed(s.calls[id].pc) ==> Committed(Step(s, e).calls[id].pc)
  {
    StepFollows(s, e, id);
    assert CallInv(s, id);
    FollowedRejects(s, Step(s, e), Mover(s, e), id);
  }

  lemma FollowedRejects(s: State, t: State, mover: nat, id: nat)
    requires Rejected(s, id) && Follows(s, t, mover, id) && CallInv(s, id)
    ensures Rejected(t, id)
    ensures Committed(s.calls[id].pc) ==> Committed(t.calls[id].pc)
  {
  }

  /**
   A creation that began before its project was closed never installs a session, and if it
   was past its lookup it never returns one: not even after the project is resumed.
   */
  lemma ClosedProjectRejects(config: Config, before: seq<Event>, project: string, after: seq<Event>, id: nat)
    requires var s := Run(Init(config), before);
             Running(s, id) && s.calls[id].ctx.project == Some(project)
    ensures var s := Run(Init(config), before);
            var t := Run(Step(s, CloseProject(project)), after);
            && id < |t.calls|
            && (Committed(s.calls[id].pc) ==> !t.calls[id].pc.Returned?)
            && (forall p, r | Owns(t, id, p) && 0 <= r < |t.records| :: t.records[r].session != p)
            && (t.calls[id].pc.Threw? ==> forall p | Owns(t, id, p) :: Discarded(t, p))
  {
    InitHolds(config);
    RunKeeps(Init(config), before);
    var s := Run(Init(config), before);
    var s1 := Step(s, CloseProject(project));
    ProjectCloses(s, project, id);
    StepKeeps(s, CloseProject(project));
    RejectedLasts(s1, id, after);
    RunKeeps(s1, after);
    var t := Run(s1, after);
    forall p, r | Owns(t, id, p) && 0 <= r < |t.records| ensures t.records[r].session != p { assert RecordInv(t, r); }
    forall p | t.calls[id].pc.Threw? && Owns(t, id, p) ensures Discarded(t, p) { assert SessionInv(t, p); }
  }

  lemma ProjectCloses(s: State, project: string, id: nat)
    requires Inv(s) && Running(s, id) && s.calls[id].ctx.project == Some(project)
    ensures Rejected(Step(s, CloseProject(project)), id)
    ensures Step(s, CloseProject(project)).calls[id].pc == s.calls[id].pc
  {
    assert CallInv(s, id);
  }

  /** No record of a paused project is cached. */
  ghost predicate NonePaused(s: State) {
    forall k <- s.sessions :: !IsPaused(s, Cached(s, k).ctx.project)
  }

  /**
   The one step that breaks it: a call that waited out a disposal while its project was
   closed finds a cached record without a project, and gives it its own.
   */
  ghost predicate Adopts(s: State, e: Event) {
    && e.ResumeClosing? && Enabled(s, e) && s.settled[s.calls[e.id].pc.token]
    && (var c := s.calls[e.id];
        !Closed(s, c) && c.ctx.key in s.sessions && Cached(s, c.ctx.key).ctx.project.None? && IsPaused(s, c.ctx.project))
  }
}
