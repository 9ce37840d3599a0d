/** Every step of the session cache keeps the invariant, so every reachable state has it. */
module SessionSteps {
  import opened Prelude
  import opened SessionProtocol
  import opened SessionInvariants

  // ---------------------------------------------------------------- starting a factory

  /** The two ways `getOrCreate` calls `createTrackedSession`: with its own context, or with a record's. */
  ghost predicate MayTrack(s: State, c: Call, target: Option<nat>, ctx: Context) {
    && (IsPaused(s, c.ctx.project) ==> ProjectClosed(s, c))
    && ctx.key == c.ctx.key && TargetOk(s, c, target)
    && (target.None? ==> ctx == c.ctx)
    && (target.Some? ==> ctx == Rec(s, target.value).ctx)
  }

  lemma StartFactoryKeepsCall(s: State, id: nat, target: Option<nat>, ctx: Context, i: nat)
    requires Inv(s) && id < |s.calls| && i < |s.calls|
    requires MayTrack(s, s.calls[id], target, ctx)
    ensures CallInv(StartFactory(s, id, target, ctx), i)
  {
    assert CallInv(s, i);
  }

  lemma StartFactoryKeepsSession(s: State, id: nat, target: Option<nat>, ctx: Context, p: nat)
    requires Inv(s) && id < |s.calls| && p < |s.births| && Early(s.calls[id].pc)
    ensures SessionInv(StartFactory(s, id, target, ctx), p)
  {
    NothingOwned(s, id);
    assert SessionInv(s, p);
  }

  lemma StartFactoryNewSession(s: State, id: nat, target: Option<nat>, ctx: Context)
    requires Inv(s) && id < |s.calls|
    ensures SessionInv(StartFactory(s, id, target, ctx), |s.births|)
  {
    assert CallInv(s, id);
  }

  lemma StartFactoryKeeps(s: State, id: nat, target: Option<nat>, ctx: Context)
    requires Inv(s) && id < |s.calls| && Early(s.calls[id].pc)
    requires MayTrack(s, s.calls[id], target, ctx)
    ensures Inv(StartFactory(s, id, target, ctx))
  {
    var t := StartFactory(s, id, target, ctx);
    forall p | 0 <= p < |t.births| ensures SessionInv(t, p) {
      if p < |s.births| { StartFactoryKeepsSession(s, id, target, ctx, p); } else { StartFactoryNewSession(s, id, target, ctx); }
    }
    forall i | 0 <= i < |t.calls| ensures CallInv(t, i) { StartFactoryKeepsCall(s, id, target, ctx, i); }
    forall r | 0 <= r < |t.records| ensures RecordInv(t, r) { assert RecordInv(s, r); }
    forall r, q | 0 <= r < |t.records| && 0 <= q < |t.records| ensures Apart(t, r, q) { assert Apart(s, r, q); }
    forall k <- t.sessions ensures CacheInv(t, k) { assert CacheInv(s, k); }
  }

  lemma CreateTrackedKeeps(s: State, id: nat, target: Option<nat>, ctx: Context)
    requires Inv(s) && id < |s.calls| && Early(s.calls[id].pc)
    requires MayTrack(s, s.calls[id], target, ctx)
    ensures Inv(CreateTracked(s, id, target, ctx))
  {
    if IsPaused(s, ctx.project) { WaitKeeps(s, id, CreateFailed); }
    else { StartFactoryKeeps(s, id, target, ctx); }
  }

  // ---------------------------------------------------------------- writing records

  /** Writing a record's context or time keeps everything, as long as a known project stays. */
  lemma RewriteKeeps(s: State, r: nat, rec: Record)
    requires Inv(s) && r < |s.records|
    requires rec.session == s.records[r].session && rec.dirty == s.records[r].dirty
    requires rec.ctx.key == s.records[r].ctx.key
    requires s.records[r].ctx.project.Some? ==> rec.ctx.project == s.records[r].ctx.project
    ensures Inv(Rewrite(s, r, rec))
  {
    var t := Rewrite(s, r, rec);
    forall q | 0 <= q < |t.records| ensures RecordInv(t, q) { assert RecordInv(s, q); }
    forall q, u | 0 <= q < |t.records| && 0 <= u < |t.records| ensures Apart(t, q, u) { assert Apart(s, q, u); }
    forall i | 0 <= i < |t.calls| ensures CallInv(t, i) { assert CallInv(s, i); }
    forall p | 0 <= p < |t.births| ensures SessionInv(t, p) { assert SessionInv(s, p); }
    forall k <- t.sessions ensures CacheInv(t, k) { assert CacheInv(s, k); }
  }

  lemma UseRecordKeeps(s: State, key: string, now: int)
    requires Inv(s)
    ensures Inv(UseRecord(s, key, now))
  {
    if key in s.sessions {
      assert CacheInv(s, key);
      RewriteKeeps(s, s.sessions[key], Cached(s, key).(lastUsedAt := now));
    }
  }

  /** Marking records dirty while the revisions grow keeps everything, if every cached record of an old revision is hit. */
  lemma DirtyKeeps(s: State, t: State, keys: set<string>)
    requires Inv(s)
    requires t.runtimeRevision >= s.runtimeRevision
    requires t == Dirty(s.(runtimeRevision := t.runtimeRevision, projectRevisions := t.projectRevisions), keys)
    requires t.runtimeRevision > s.runtimeRevision ==> keys == s.sessions.Keys
    ensures Inv(t)
  {
    forall r | 0 <= r < |t.records| ensures RecordInv(t, r) { assert RecordInv(s, r); }
    forall r, q | 0 <= r < |t.records| && 0 <= q < |t.records| ensures Apart(t, r, q) { assert Apart(s, r, q); }
    forall i | 0 <= i < |t.calls| ensures CallInv(t, i) { assert CallInv(s, i); }
    forall p | 0 <= p < |t.births| ensures SessionInv(t, p) { assert SessionInv(s, p); }
    forall k <- t.sessions ensures CacheInv(t, k) { assert CacheInv(s, k); }
  }

  // ---------------------------------------------------------------- getOrCreate

  lemma EvictForCallKeeps(s: State, id: nat, r: nat)
    requires Inv(s) && id < |s.calls| && Early(s.calls[id].pc)
    requires CachedAt(s, s.calls[id].ctx.key, r) && Cached(s, s.calls[id].ctx.key).dirty
    requires IsPaused(s, s.calls[id].ctx.project) ==> ProjectClosed(s, s.calls[id])
    ensures Inv(EvictForCall(s, id, r))
  {
    var key := s.calls[id].ctx.key;
    assert CacheInv(s, key);
    EvictKeeps(s, {key}, false);
    WaitKeeps(Evict(s, {key}, false), id, WaitEvict(r, Token(s.epoch, key)));
  }

  lemma ReturnCachedKeeps(s: State, id: nat, r: nat, now: int)
    requires Inv(s) && id < |s.calls| && Early(s.calls[id].pc) && CachedAt(s, s.calls[id].ctx.key, r)
    ensures Inv(ReturnCached(s, id, r, now))
  {
    var rec := Merged(s, r, s.calls[id]).(lastUsedAt := now);
    var u := UsedCached(s, id, r, rec);
    ReturnKeeps(u, id, Rec(s, r).session);
  }

  /** The cached record is merged and marked used. */
  lemma UsedCached(s: State, id: nat, r: nat, rec: Record) returns (u: State)
    requires Inv(s) && id < |s.calls| && CachedAt(s, s.calls[id].ctx.key, r)
    requires rec == Merged(s, r, s.calls[id]).(lastUsedAt := rec.lastUsedAt)
    ensures u == Rewrite(s, r, rec) && Inv(u) && u.calls == s.calls && OfKey(u, Rec(s, r).session, s.calls[id].ctx.key)
  {
    u := Rewrite(s, r, rec);
    CachedIsOfKey(s, s.calls[id].ctx.key, r);
    RewriteKeeps(s, r, rec);
    RewriteKeepsOwner(s, r, rec, Rec(s, r).session, s.calls[id].ctx.key);
  }

  lemma ReturnKeeps(s: State, id: nat, p: nat)
    requires Inv(s) && id < |s.calls| && Early(s.calls[id].pc) && OfKey(s, p, s.calls[id].ctx.key)
    ensures Inv(Finish(s, id, Returned(p)))
  {
    FinishKeeps(s, id, Returned(p));
  }

  /** The session cached under a key was created for that key. */
  lemma CachedIsOfKey(s: State, key: string, r: nat)
    requires Inv(s) && CachedAt(s, key, r)
    ensures r < |s.records| && s.records[r].ctx.key == key && OfKey(s, s.records[r].session, key)
  {
    assert CacheInv(s, key) && RecordInv(s, r);
  }

  lemma RewriteKeepsOwner(s: State, r: nat, rec: Record, p: nat, key: string)
    requires OfKey(s, p, key)
    ensures OfKey(Rewrite(s, r, rec), p, key)
  {
  }

  lemma MergeContextKeeps(s: State, id: nat, r: nat)
    requires Inv(s) && id < |s.calls| && CachedAt(s, s.calls[id].ctx.key, r)
    ensures Inv(MergeContext(s, id, r))
  {
    assert CacheInv(s, s.calls[id].ctx.key);
    RewriteKeeps(s, r, Merged(s, r, s.calls[id]));
  }

  lemma MergeContextFrame(s: State, id: nat, r: nat)
    requires id < |s.calls| && CachedAt(s, s.calls[id].ctx.key, r) && r < |s.records|
    ensures var t := MergeContext(s, id, r);
            && t.calls == s.calls && t.paused == s.paused && CachedAt(t, s.calls[id].ctx.key, r)
            && Cached(t, s.calls[id].ctx.key).dirty == Rec(s, r).dirty
            && (ProjectClosed(s, s.calls[id]) ==> ProjectClosed(t, s.calls[id]))
  {
  }

  lemma RefreshKeeps(s: State, id: nat, r: nat)
    requires Inv(s) && id < |s.calls| && Early(s.calls[id].pc)
    requires CachedAt(s, s.calls[id].ctx.key, r) && Rec(s, r).dirty
    requires IsPaused(s, s.calls[id].ctx.project) ==> ProjectClosed(s, s.calls[id])
    ensures Inv(Refresh(s, id, r))
  {
    assert CacheInv(s, s.calls[id].ctx.key);
    MergeContextKeeps(s, id, r);
    MergeContextFrame(s, id, r);
    EvictForCallKeeps(MergeContext(s, id, r), id, r);
  }

  lemma ReuseKeeps(s: State, id: nat, r: nat, now: int)
    requires Inv(s) && id < |s.calls| && Early(s.calls[id].pc) && CachedAt(s, s.calls[id].ctx.key, r)
    requires IsPaused(s, s.calls[id].ctx.project) ==> ProjectClosed(s, s.calls[id])
    ensures Inv(Reuse(s, id, r, now))
  {
    if Rec(s, r).dirty && s.config.canRecreate && MayRecreate(s, s.calls[id]) {
      RefreshKeeps(s, id, r);
    } else {
      ReturnCachedKeeps(s, id, r, now);
    }
  }

  lemma LookupKeeps(s: State, id: nat, now: int)
    requires Inv(s) && id < |s.calls| && Early(s.calls[id].pc)
    requires IsPaused(s, s.calls[id].ctx.project) ==> ProjectClosed(s, s.calls[id])
    ensures Inv(Lookup(s, id, now))
  {
    var c := s.calls[id];
    if Closed(s, c) { FinishKeeps(s, id, Threw); }
    else if c.ctx.key in s.sessions { ReuseKeeps(s, id, s.sessions[c.ctx.key], now); }
    else { CreateTrackedKeeps(s, id, None, c.ctx); }
  }

  /** A new call joins; it owns nothing yet. */
  lemma AddCallKeeps(s: State, t: State, c: Call)
    requires Inv(s)
    requires t == s.(calls := s.calls + [c], nextSymbol := s.nextSymbol + 1, generations := t.generations)
    requires c.symbol <= s.nextSymbol && c.runtimeRevision == s.runtimeRevision
    requires c.projectGeneration == Count(s.projectGenerations, c.ctx.project.GetOr(""))
    requires c.pc.Starting? || c.pc.Threw?
    requires forall k <- s.generations :: k in t.generations && t.generations[k] == s.generations[k]
    requires forall k <- t.generations :: k !in s.generations ==> t.generations[k] == s.nextSymbol
    ensures Inv(t)
  {
    forall r | 0 <= r < |t.records| ensures RecordInv(t, r) { assert RecordInv(s, r); }
    forall r, q | 0 <= r < |t.records| && 0 <= q < |t.records| ensures Apart(t, r, q) { assert Apart(s, r, q); }
    forall i | 0 <= i < |t.calls| ensures CallInv(t, i) { if i < |s.calls| { assert CallInv(s, i); } }
    forall p | 0 <= p < |t.births| ensures SessionInv(t, p) { assert SessionInv(s, p); }
    forall k <- t.sessions ensures CacheInv(t, k) { assert CacheInv(s, k); }
  }

  lemma JoinKeeps(s: State, ctx: Context, turn: Option<string>)
    requires Inv(s)
    ensures Inv(Join(s, ctx, turn))
  {
    AddCallKeeps(s, Join(s, ctx, turn), Join(s, ctx, turn).calls[|s.calls|]);
  }

  lemma AdmitKeeps(s: State, id: nat, now: int)
    requires Inv(s) && id < |s.calls| && s.calls[id].pc.Starting?
    ensures Inv(Admit(s, id, now))
  {
    var ctx := s.calls[id].ctx;
    if IsPaused(s, ctx.project) { FinishKeeps(s, id, Threw); }
    else if ctx.key in s.closing { WaitKeeps(s, id, WaitClosing(s.closing[ctx.key])); }
    else { LookupKeeps(s, id, now); }
  }

  lemma BeginKeeps(s: State, ctx: Context, turn: Option<string>, now: int)
    requires Inv(s)
    ensures Inv(Begin(s, ctx, turn, now))
  {
    if s.isShutdown {
      AddCallKeeps(s, Begin(s, ctx, turn, now), Capture(s, ctx, turn, s.nextSymbol, Threw));
    } else {
      SweepKeeps(s, now);
      JoinKeeps(Sweep(s, now), ctx, turn);
      AdmitKeeps(Join(Sweep(s, now), ctx, turn), |s.calls|, now);
    }
  }

  lemma FactoryKeeps(s: State, id: nat, ok: bool)
    requires Inv(s) && id < |s.calls| && s.calls[id].pc.Creating?
    ensures Inv(FactoryStep(s, id, ok))
  {
    RejectKeeps(s, id);
    DeliverPausedKeeps(s, id);
    DeliverKeeps(s, id);
  }

  /** A session that is delivered in time was neither disposed of nor is it too old for what it claims. */
  lemma InTime(s: State, id: nat, target: Option<nat>, p: nat)
    requires Inv(s) && id < |s.calls| && s.calls[id].pc == Created(target, p)
    requires !Closed(s, s.calls[id]) && !ProjectClosed(s, s.calls[id])
    ensures p < |s.births| && s.births[p].owner == id && TargetOk(s, s.calls[id], target)
    ensures target.None? || CachedAt(s, s.calls[id].ctx.key, target.value) ==> p !in s.draining && p !in s.disposed
    ensures !RuntimeChanged(s, s.calls[id]) ==> s.births[p].runtimeRevision == s.runtimeRevision
    ensures forall r | 0 <= r < |s.records| :: s.records[r].session != p
  {
    OnlyOwned(s, id, p);
    forall r | 0 <= r < |s.records| ensures s.records[r].session != p { assert RecordInv(s, r); }
  }

  lemma InstalledRecords(s: State, t: State, r: nat, p: nat)
    requires Records(s) && r < |t.records| && t.records[r].session == p
    requires if r < |s.records| then |t.records| == |s.records| else r == |s.records| && |t.records| == r + 1
    requires forall q | 0 <= q < |s.records| && q != r :: t.records[q] == s.records[q]
    requires forall q | 0 <= q < |s.records| :: s.records[q].session != p
    requires forall q | 0 <= q < |s.records| && q != r :: RecordInv(t, q)
    requires ReturnedByOwner(t, p) && OfKey(t, p, t.records[r].ctx.key)
    ensures Records(t)
  {
    forall q, u | 0 <= q < |t.records| && 0 <= u < |t.records| ensures Apart(t, q, u) {
      if q < |s.records| && u < |s.records| { assert Apart(s, q, u); }
    }
  }

  /** A session that is delivered in time goes into the record it was created for. */
  lemma InstallIntoKeeps(s: State, id: nat, r: nat, p: nat, now: int)
    requires Inv(s) && id < |s.calls| && s.calls[id].pc == Created(Some(r), p)
    requires !Closed(s, s.calls[id]) && !ProjectClosed(s, s.calls[id])
    ensures Inv(InstallInto(s, id, r, p, now))
  {
    var t := InstallInto(s, id, r, p, now);
    forall i | 0 <= i < |t.calls| ensures CallInv(t, i) { InstallIntoKeepsCall(s, id, r, p, now, i); }
    forall q | 0 <= q < |t.births| ensures SessionInv(t, q) { InstallIntoKeepsSession(s, id, r, p, now, q); }
    InTime(s, id, Some(r), p);
    forall q | 0 <= q < |s.records| && q != r ensures RecordInv(t, q) { assert RecordInv(s, q); }
    InstalledRecords(s, t, r, p);
    forall k <- t.sessions ensures CacheInv(t, k) { InstallIntoKeepsCache(s, id, r, p, now, k); }
  }

  lemma InstallIntoKeepsCall(s: State, id: nat, r: nat, p: nat, now: int, i: nat)
    requires Inv(s) && id < |s.calls| && s.calls[id].pc == Created(Some(r), p) && i < |s.calls|
    ensures CallInv(InstallInto(s, id, r, p, now), i)
  {
    assert CallInv(s, i);
  }

  lemma InstallIntoKeepsSession(s: State, id: nat, r: nat, p: nat, now: int, q: nat)
    requires Inv(s) && id < |s.calls| && s.calls[id].pc == Created(Some(r), p) && q < |s.births|
    ensures SessionInv(InstallInto(s, id, r, p, now), q)
  {
    OnlyOwned(s, id, p);
    assert SessionInv(s, q);
  }

  lemma InstallIntoKeepsCache(s: State, id: nat, r: nat, p: nat, now: int, k: string)
    requires Inv(s) && id < |s.calls| && s.calls[id].pc == Created(Some(r), p)
    requires !Closed(s, s.calls[id]) && !ProjectClosed(s, s.calls[id]) && k in s.sessions
    ensures CacheInv(InstallInto(s, id, r, p, now), k)
  {
    InTime(s, id, Some(r), p);
    assert CacheInv(s, k);
  }

  /** ... or into a new record. */
  lemma InstallNewKeeps(s: State, id: nat, p: nat, now: int)
    requires Inv(s) && id < |s.calls| && s.calls[id].pc == Created(None, p)
    requires !Closed(s, s.calls[id]) && !ProjectClosed(s, s.calls[id])
    ensures Inv(InstallNew(s, id, p, now))
  {
    var t := InstallNew(s, id, p, now);
    forall i | 0 <= i < |t.calls| ensures CallInv(t, i) { InstallNewKeepsCall(s, id, p, now, i); }
    forall q | 0 <= q < |t.births| ensures SessionInv(t, q) { InstallNewKeepsSession(s, id, p, now, q); }
    InTime(s, id, None, p);
    forall q | 0 <= q < |s.records| ensures RecordInv(t, q) { assert RecordInv(s, q); }
    InstalledRecords(s, t, |s.records|, p);
    forall k <- t.sessions ensures CacheInv(t, k) { if k in s.sessions { assert CacheInv(s, k); } }
  }

  lemma InstallNewKeepsCall(s: State, id: nat, p: nat, now: int, i: nat)
    requires Inv(s) && id < |s.calls| && s.calls[id].pc == Created(None, p) && i < |s.calls|
    ensures CallInv(InstallNew(s, id, p, now), i)
  {
    assert CallInv(s, i);
  }

  lemma InstallNewKeepsSession(s: State, id: nat, p: nat, now: int, q: nat)
    requires Inv(s) && id < |s.calls| && s.calls[id].pc == Created(None, p) && q < |s.births|
    ensures SessionInv(InstallNew(s, id, p, now), q)
  {
    OnlyOwned(s, id, p);
    assert SessionInv(s, q);
  }

  lemma InstallKeeps(s: State, id: nat, now: int)
    requires Inv(s) && id < |s.calls| && s.calls[id].pc.Created?
    ensures Inv(Install(s, id, s.calls[id].pc.target, s.calls[id].pc.session, now))
  {
    var pc := s.calls[id].pc;
    if Closed(s, s.calls[id]) || ProjectClosed(s, s.calls[id]) { DisposeLateKeeps(s, id); }
    else if pc.target.Some? { InstallIntoKeeps(s, id, pc.target.value, pc.session, now); }
    else { InstallNewKeeps(s, id, pc.session, now); }
  }

  // ---------------------------------------------------------------- closing

  /** Forgetting symbols only rejects more calls. */
  lemma ForgetKeeps(s: State, t: State)
    requires Inv(s)
    requires t == s.(generations := t.generations, isShutdown := t.isShutdown, inFlight := t.inFlight)
    requires s.isShutdown ==> t.isShutdown
    requires forall k <- t.generations :: k in s.generations && t.generations[k] == s.generations[k]
    ensures Inv(t)
  {
    forall r | 0 <= r < |t.records| ensures RecordInv(t, r) { assert RecordInv(s, r); }
    forall r, q | 0 <= r < |t.records| && 0 <= q < |t.records| ensures Apart(t, r, q) { assert Apart(s, r, q); }
    forall i | 0 <= i < |t.calls| ensures CallInv(t, i) { assert CallInv(s, i); }
    forall p | 0 <= p < |t.births| ensures SessionInv(t, p) { assert SessionInv(s, p); }
    forall k <- t.sessions ensures CacheInv(t, k) { assert CacheInv(s, k); }
  }

  lemma CloseKeysKeeps(s: State, keys: set<string>)
    requires Inv(s)
    ensures Inv(CloseKeys(s, keys))
  {
    var s1 := s.(generations := s.generations - keys);
    ForgetKeeps(s, s1);
    EvictKeeps(s1, keys * s1.sessions.Keys, true);
  }

  /**
   Pausing a project: its bookkeeping alone would let a creation that is about to be
   drained overwrite a cached record of the project, so the project's keys are forgotten
   in the same step.
   */
  lemma PauseKeeps(s: State, project: string)
    requires Inv(s)
    ensures Inv(Pause(s.(generations := s.generations - CachedOf(s, project)), project))
  {
    var s1 := s.(generations := s.generations - CachedOf(s, project));
    var t := Pause(s1, project);
    forall i | 0 <= i < |t.calls| ensures CallInv(t, i) { PauseKeepsCall(s, project, i); }
    forall p | 0 <= p < |t.births| ensures SessionInv(t, p) { assert SessionInv(s, p); }
    forall r | 0 <= r < |t.records| ensures RecordInv(t, r) { assert RecordInv(s, r); }
    forall r, q | 0 <= r < |t.records| && 0 <= q < |t.records| ensures Apart(t, r, q) { assert Apart(s, r, q); }
    forall k <- t.sessions ensures CacheInv(t, k) {
      assert CacheInv(s, k) && RecordInv(s, s.sessions[k]) && SessionInv(s, Cached(s, k).session);
    }
  }

  lemma PauseKeepsCall(s: State, project: string, i: nat)
    requires Inv(s) && i < |s.calls|
    ensures CallInv(Pause(s.(generations := s.generations - CachedOf(s, project)), project), i)
  {
    assert CallInv(s, i);
    var t := Pause(s.(generations := s.generations - CachedOf(s, project)), project);
    if s.calls[i].pc.Created? { assert SessionInv(s, s.calls[i].pc.session); }
    PauseRejects(s, project, i);
    assert t.calls[i] == s.calls[i] && t.births == s.births && t.records == s.records && t.creating == s.creating;
  }

  lemma PauseRejects(s: State, project: string, i: nat)
    requires Inv(s) && i < |s.calls|
    ensures var t := Pause(s.(generations := s.generations - CachedOf(s, project)), project);
            && (IsPaused(t, s.calls[i].ctx.project) && !IsPaused(s, s.calls[i].ctx.project) ==> ProjectClosed(t, s.calls[i]))
            && (ProjectClosed(s, s.calls[i]) ==> ProjectClosed(t, s.calls[i]))
  {
    assert CallInv(s, i);
  }

  lemma CloseProjectKeeps(s: State, project: string)
    requires Inv(s)
    ensures Inv(CloseKeys(Pause(s, project), CachedOf(s, project)))
  {
    var keys := CachedOf(s, project);
    PauseKeeps(s, project);
    EvictKeeps(Pause(s.(generations := s.generations - keys), project), keys, true);
    PauseThenForget(s, project, keys);
  }

  /** Pausing and forgetting symbols touch different fields. */
  lemma PauseThenForget(s: State, project: string, keys: set<string>)
    requires keys <= s.sessions.Keys
    ensures CloseKeys(Pause(s, project), keys) == Evict(Pause(s.(generations := s.generations - keys), project), keys, true)
  {
    assert keys * s.sessions.Keys == keys;
    assert Pause(s, project).(generations := s.generations - keys) == Pause(s.(generations := s.generations - keys), project);
  }

  lemma ShutdownKeeps(s: State)
    requires Inv(s)
    ensures Inv(ShutDown(s))
  {
    EvictKeeps(s, s.sessions.Keys, true);
    ForgetKeeps(Evict(s, s.sessions.Keys, true), ShutDown(s));
  }

  // ---------------------------------------------------------------- the rest

  lemma DrainKeeps(s: State, p: nat)
    requires Inv(s) && p in s.draining && p in s.fulfilled
    ensures Inv(s.(disposed := s.disposed + {p}))
  {
    var t := s.(disposed := s.disposed + {p});
    forall r | 0 <= r < |t.records| ensures RecordInv(t, r) { assert RecordInv(s, r); }
    forall r, q | 0 <= r < |t.records| && 0 <= q < |t.records| ensures Apart(t, r, q) { assert Apart(s, r, q); }
    forall i | 0 <= i < |t.calls| ensures CallInv(t, i) { assert CallInv(s, i); }
    forall q | 0 <= q < |t.births| ensures SessionInv(t, q) { assert SessionInv(s, q); }
    forall k <- t.sessions ensures CacheInv(t, k) { assert CacheInv(s, k); }
  }

  /** Fields the invariant does not read may change freely; a project may stop being paused. */
  lemma FrameKeeps(s: State, t: State)
    requires Inv(s)
    requires t == s.(paused := t.paused, inFlight := t.inFlight, settled := t.settled, closing := t.closing)
    requires t.paused <= s.paused
    ensures Inv(t)
  {
    forall r | 0 <= r < |t.records| ensures RecordInv(t, r) { assert RecordInv(s, r); }
    forall r, q | 0 <= r < |t.records| && 0 <= q < |t.records| ensures Apart(t, r, q) { assert Apart(s, r, q); }
    forall i | 0 <= i < |t.calls| ensures CallInv(t, i) { assert CallInv(s, i); }
    forall p | 0 <= p < |t.births| ensures SessionInv(t, p) { assert SessionInv(s, p); }
    forall k <- t.sessions ensures CacheInv(t, k) { assert CacheInv(s, k); }
  }

  lemma TurnsKeep(s: State, e: Event)
    requires Inv(s) && (e.BeginTurn? || e.EndTurn? || e.Touch?)
    ensures Inv(Step(s, e))
  {
    match e
    case BeginTurn(key, run, now) =>
      SweepKeeps(s, now);
      FrameKeeps(Sweep(s, now), Sweep(s, now).(inFlight := Sweep(s, now).inFlight[key := run]));
    case EndTurn(key, run, now) =>
      FrameKeeps(s, FreeSlot(s, key, run));
      UseRecordKeeps(FreeSlot(s, key, run), key, now);
    case Touch(key, now) => UseRecordKeeps(s, key, now);
  }

  lemma ReloadsKeep(s: State, e: Event)
    requires Inv(s) && (e.MarkAllDirty? || e.MarkProjectDirty?)
    ensures Inv(Step(s, e))
  {
    match e
    case MarkAllDirty => DirtyKeeps(s, Step(s, e), s.sessions.Keys);
    case MarkProjectDirty(project) => DirtyKeeps(s, Step(s, e), CachedOf(s, project));
  }

  lemma ResumptionsKeep(s: State, e: Event)
    requires Inv(s) && Enabled(s, e)
    requires e.ResumeClosing? || e.ResumeEvict? || e.FactoryDone? || e.ResumePausedDispose? || e.ResumeFailed?
             || e.ResumeCreated? || e.ResumeLateDispose?
    ensures Inv(Step(s, e))
  {
    assert CallInv(s, e.id);
    match e
    case ResumeClosing(id, now) => LookupKeeps(s, id, now); FinishKeeps(s, id, Threw);
    case ResumeEvict(id) =>
      FinishKeeps(s, id, Threw);
      CreateTrackedKeeps(s, id, Some(s.calls[id].pc.rec), Rec(s, s.calls[id].pc.rec).ctx);
    case FactoryDone(id, ok) => FactoryKeeps(s, id, ok);
    case ResumePausedDispose(id) => PausedDisposeKeeps(s, id);
    case ResumeFailed(id) => FinishKeeps(s, id, Threw);
    case ResumeCreated(id, now) => InstallKeeps(s, id, now);
    case ResumeLateDispose(id) => FinishKeeps(s, id, Threw);
  }

  lemma StepKeeps(s: State, e: Event)
    requires Inv(s)
    ensures Inv(Step(s, e))
  {
    if Enabled(s, e) {
      match e
      case GetOrCreate(ctx, turn, now) => BeginKeeps(s, ctx, turn, now);
      case Close(key) => CloseKeysKeeps(s, {key});
      case CloseProject(project) => CloseProjectKeeps(s, project);
      case ResumeProject(project) => FrameKeeps(s, Step(s, e));
      case DrainDispose(p) => DrainKeeps(s, p);
      case BeginTurn(_, _, _) => TurnsKeep(s, e);
      case EndTurn(_, _, _) => TurnsKeep(s, e);
      case Touch(_, _) => TurnsKeep(s, e);
      case MarkAllDirty => ReloadsKeep(s, e);
      case MarkProjectDirty(_) => ReloadsKeep(s, e);
      case SweepIdle(now) => SweepKeeps(s, now);
      case Shutdown => ShutdownKeeps(s);
      case Settle(_, _) => FrameKeeps(s, Step(s, e));
      case _ => ResumptionsKeep(s, e);
    }
  }

  // ---------------------------------------------------------------- runs

  ghost function Run(s: State, events: seq<Event>): State
    decreases |events|
  {
    if events == [] then s else Run(Step(s, events[0]), events[1..])
  }

  /** Every state reached by any interleaving satisfies the invariant. */
  lemma {:induction false} RunKeeps(s: State, events: seq<Event>)
    requires Inv(s)
    ensures Inv(Run(s, events))
    decreases |events|
  {
    if events != [] {
      StepKeeps(s, events[0]);
      RunKeeps(Step(s, events[0]), events[1..]);
    }
  }

  lemma InitHolds(config: Config)
    ensures Inv(Init(config))
  {
  }
}
