/**
 Freshness of cached sessions when every session key is used with one project: a record
 that is not dirty was created under the current runtime revision and the current revision
 of its project, and no record of a paused project is cached.
 */
module SessionFreshness {
  import opened Prelude
  import opened SessionProtocol
  import opened SessionInvariants
  import opened SessionSteps
  import opened SessionTheorems
  import opened SessionProjects

  type Projects = string -> Option<string>

  ghost predicate FixedCall(s: State, proj: Projects, i: nat)
    requires i < |s.calls|
  {
    var c := s.calls[i];
    && c.ctx.project == proj(c.ctx.key)
    && c.revisionKey == c.ctx.project.GetOr("")
    && c.projectRevision <= Count(s.projectRevisions, c.revisionKey)
    && (c.pc.Creating? || c.pc.Created? ==> BornSince(s, c))
  }

  ghost predicate BornSince(s: State, c: Call)
    requires c.pc.Creating? || c.pc.Created?
  {
    c.pc.session < |s.births|
    && c.projectRevision <= Count(s.births[c.pc.session].projectRevisions, c.revisionKey)
  }

  ghost predicate FixedRecord(s: State, proj: Projects, r: nat)
    requires r < |s.records|
  {
    s.records[r].ctx.project == proj(s.records[r].ctx.key)
  }

  ghost predicate BirthPast(s: State, p: nat)
    requires p < |s.births|
  {
    forall project :: Count(s.births[p].projectRevisions, project) <= Count(s.projectRevisions, project)
  }

  /** The record is dirty, has no project, or was created under the current revision of its project. */
  ghost predicate UpToDate(s: State, rec: Record) {
    || rec.dirty
    || rec.ctx.project.None?
    || (rec.session < |s.births|
        && Count(s.births[rec.session].projectRevisions, rec.ctx.project.value)
           == Count(s.projectRevisions, rec.ctx.project.value))
  }

  ghost predicate FreshAt(s: State, k: string)
    requires k in s.sessions
  {
    UpToDate(s, Cached(s, k))
  }

  ghost predicate Fixed(s: State, proj: Projects) {
    var fixed :=
      && (forall i | 0 <= i < |s.calls| :: FixedCall(s, proj, i))
      && (forall r | 0 <= r < |s.records| :: FixedRecord(s, proj, r))
      && (forall p | 0 <= p < |s.births| :: BirthPast(s, p))
      && (forall k <- s.sessions :: FreshAt(s, k));
    fixed
  }

  /** `t` differs from `s` in no field these facts read, except that calls, births and cache entries may go or move on. */
  ghost predicate SameRecords(s: State, t: State) {
    && t.records == s.records && t.projectRevisions == s.projectRevisions && t.births == s.births
    && (forall k <- t.sessions :: k in s.sessions && t.sessions[k] == s.sessions[k])
  }

  lemma QuietKeepsFixed(s: State, t: State, proj: Projects)
    requires Fixed(s, proj) && SameRecords(s, t) && t.calls == s.calls
    ensures Fixed(t, proj)
  {
    forall i | 0 <= i < |t.calls| ensures FixedCall(t, proj, i) { assert FixedCall(s, proj, i); }
    forall r | 0 <= r < |t.records| ensures FixedRecord(t, proj, r) { assert FixedRecord(s, proj, r); }
    forall p | 0 <= p < |t.births| ensures BirthPast(t, p) { assert BirthPast(s, p); }
    forall k <- t.sessions ensures FreshAt(t, k) { assert FreshAt(s, k); }
  }

  /** One call moves on, and does not start a creation. */
  lemma MoveKeepsFixed(s: State, t: State, proj: Projects, id: nat)
    requires Fixed(s, proj) && SameRecords(s, t) && id < |s.calls|
    requires |t.calls| == |s.calls| && t.calls == s.calls[id := s.calls[id].(pc := t.calls[id].pc)]
    requires !t.calls[id].pc.Creating?
    requires t.calls[id].pc.Created? ==> s.calls[id].pc.Creating? && s.calls[id].pc.session == t.calls[id].pc.session
    ensures Fixed(t, proj)
  {
    forall i | 0 <= i < |t.calls| ensures FixedCall(t, proj, i) { assert FixedCall(s, proj, i); }
    forall r | 0 <= r < |t.records| ensures FixedRecord(t, proj, r) { assert FixedRecord(s, proj, r); }
    forall p | 0 <= p < |t.births| ensures BirthPast(t, p) { assert BirthPast(s, p); }
    forall k <- t.sessions ensures FreshAt(t, k) { assert FreshAt(s, k); }
  }

  /** Records may be rewritten as long as they keep their project and do not become clean. */
  lemma RewriteKeepsFixed(s: State, t: State, proj: Projects)
    requires Fixed(s, proj) && t == s.(records := t.records) && |t.records| == |s.records|
    requires forall r | 0 <= r < |s.records| ::
               t.records[r].ctx == s.records[r].ctx && t.records[r].session == s.records[r].session
               && (s.records[r].dirty ==> t.records[r].dirty)
    ensures Fixed(t, proj)
  {
    forall i | 0 <= i < |t.calls| ensures FixedCall(t, proj, i) { assert FixedCall(s, proj, i); }
    forall r | 0 <= r < |t.records| ensures FixedRecord(t, proj, r) { assert FixedRecord(s, proj, r); }
    forall p | 0 <= p < |t.births| ensures BirthPast(t, p) { assert BirthPast(s, p); }
    forall k <- t.sessions ensures FreshAt(t, k) { assert FreshAt(s, k); }
  }

  lemma UseRecordFixed(s: State, proj: Projects, key: string, now: int)
    requires Fixed(s, proj)
    ensures Fixed(UseRecord(s, key, now), proj)
  {
    RewriteKeepsFixed(s, UseRecord(s, key, now), proj);
  }

  // ---------------------------------------------------------------- getOrCreate

  lemma StartFactoryFixed(s: State, proj: Projects, id: nat, target: Option<nat>, ctx: Context)
    requires Fixed(s, proj) && Inv(s) && id < |s.calls|
    ensures Fixed(StartFactory(s, id, target, ctx), proj)
  {
    var t := StartFactory(s, id, target, ctx);
    forall i | 0 <= i < |t.calls| ensures FixedCall(t, proj, i) { assert FixedCall(s, proj, i) && CallInv(s, i); }
    forall r | 0 <= r < |t.records| ensures FixedRecord(t, proj, r) { assert FixedRecord(s, proj, r); }
    forall p | 0 <= p < |t.births| ensures BirthPast(t, p) { if p < |s.births| { assert BirthPast(s, p); } }
    forall k <- t.sessions ensures FreshAt(t, k) { assert FreshAt(s, k); }
  }

  lemma CreateTrackedFixed(s: State, proj: Projects, id: nat, target: Option<nat>, ctx: Context)
    requires Fixed(s, proj) && Inv(s) && id < |s.calls|
    ensures Fixed(CreateTracked(s, id, target, ctx), proj)
  {
    MoveKeepsFixed(s, SetPc(s, id, CreateFailed), proj, id);
    StartFactoryFixed(s, proj, id, target, ctx);
  }

  lemma FinishFixed(s: State, proj: Projects, id: nat, pc: Pc)
    requires Fixed(s, proj) && id < |s.calls| && Finished(pc)
    ensures Fixed(Finish(s, id, pc), proj)
  {
    MoveKeepsFixed(s, Finish(s, id, pc), proj, id);
  }

  /** With one project per key, merging a context changes nothing but the time of use. */
  lemma MergeIsIdle(s: State, proj: Projects, id: nat, r: nat)
    requires Fixed(s, proj) && Inv(s) && id < |s.calls| && CachedAt(s, s.calls[id].ctx.key, r)
    ensures r < |s.records| && Merged(s, r, s.calls[id]) == s.records[r]
  {
    assert CacheInv(s, s.calls[id].ctx.key) && FixedRecord(s, proj, r) && FixedCall(s, proj, id);
  }

  lemma ReturnCachedFixed(s: State, proj: Projects, id: nat, r: nat, now: int)
    requires Fixed(s, proj) && Inv(s) && id < |s.calls| && CachedAt(s, s.calls[id].ctx.key, r)
    ensures Fixed(ReturnCached(s, id, r, now), proj)
  {
    MergeIsIdle(s, proj, id, r);
    var s1 := Rewrite(s, r, Merged(s, r, s.calls[id]).(lastUsedAt := now));
    RewriteKeepsFixed(s, s1, proj);
    FinishFixed(s1, proj, id, Returned(Rec(s, r).session));
  }

  lemma RefreshFixed(s: State, proj: Projects, id: nat, r: nat)
    requires Fixed(s, proj) && Inv(s) && id < |s.calls| && CachedAt(s, s.calls[id].ctx.key, r)
    ensures Fixed(Refresh(s, id, r), proj)
  {
    MergeIsIdle(s, proj, id, r);
    assert MergeContext(s, id, r).records == s.records;
    MoveKeepsFixed(s, Refresh(s, id, r), proj, id);
  }

  lemma ReuseFixed(s: State, proj: Projects, id: nat, r: nat, now: int)
    requires Fixed(s, proj) && Inv(s) && id < |s.calls| && CachedAt(s, s.calls[id].ctx.key, r)
    ensures Fixed(Reuse(s, id, r, now), proj)
  {
    ReturnCachedFixed(s, proj, id, r, now);
    RefreshFixed(s, proj, id, r);
  }

  lemma LookupFixed(s: State, proj: Projects, id: nat, now: int)
    requires Fixed(s, proj) && Inv(s) && id < |s.calls|
    ensures Fixed(Lookup(s, id, now), proj)
  {
    FinishFixed(s, proj, id, Threw);
    CreateTrackedFixed(s, proj, id, None, s.calls[id].ctx);
    if s.calls[id].ctx.key in s.sessions { ReuseFixed(s, proj, id, s.sessions[s.calls[id].ctx.key], now); }
  }

  lemma SweepFixed(s: State, proj: Projects, now: int)
    requires Fixed(s, proj)
    ensures Fixed(Sweep(s, now), proj)
  {
    QuietKeepsFixed(s, Sweep(s, now), proj);
  }

  lemma CaptureFixed(s: State, proj: Projects, ctx: Context, turn: Option<string>, symbol: nat, pc: Pc)
    requires Fixed(s, proj) && Inv(s) && ctx.project == proj(ctx.key)
    ensures Capture(s, ctx, turn, symbol, pc).revisionKey == ctx.project.GetOr("")
  {
    if ctx.key in s.sessions { assert CacheInv(s, ctx.key) && FixedRecord(s, proj, s.sessions[ctx.key]); }
  }

  lemma AddCallFixed(s: State, t: State, proj: Projects, ctx: Context, turn: Option<string>, symbol: nat, pc: Pc)
    requires Fixed(s, proj) && Inv(s) && ctx.project == proj(ctx.key) && (pc.Starting? || pc.Threw?)
    requires t == s.(calls := s.calls + [Capture(s, ctx, turn, symbol, pc)], nextSymbol := t.nextSymbol,
                     generations := t.generations)
    ensures Fixed(t, proj)
  {
    CaptureFixed(s, proj, ctx, turn, symbol, pc);
    forall i | 0 <= i < |t.calls| ensures FixedCall(t, proj, i) { if i < |s.calls| { assert FixedCall(s, proj, i); } }
    forall r | 0 <= r < |t.records| ensures FixedRecord(t, proj, r) { assert FixedRecord(s, proj, r); }
    forall p | 0 <= p < |t.births| ensures BirthPast(t, p) { assert BirthPast(s, p); }
    forall k <- t.sessions ensures FreshAt(t, k) { assert FreshAt(s, k); }
  }

  lemma AdmitFixed(s: State, proj: Projects, id: nat, now: int)
    requires Fixed(s, proj) && Inv(s) && id < |s.calls|
    ensures Fixed(Admit(s, id, now), proj)
  {
    FinishFixed(s, proj, id, Threw);
    LookupFixed(s, proj, id, now);
    if s.calls[id].ctx.key in s.closing {
      MoveKeepsFixed(s, SetPc(s, id, WaitClosing(s.closing[s.calls[id].ctx.key])), proj, id);
    }
  }

  lemma JoinFixed(s: State, proj: Projects, ctx: Context, turn: Option<string>)
    requires Fixed(s, proj) && Inv(s) && ctx.project == proj(ctx.key)
    ensures Fixed(Join(s, ctx, turn), proj)
  {
    var symbol := if ctx.key in s.generations then s.generations[ctx.key] else s.nextSymbol;
    AddCallFixed(s, Join(s, ctx, turn), proj, ctx, turn, symbol, Starting);
  }

  lemma BeginFixed(s: State, proj: Projects, ctx: Context, turn: Option<string>, now: int)
    requires Fixed(s, proj) && Inv(s) && ctx.project == proj(ctx.key)
    ensures Fixed(Begin(s, ctx, turn, now), proj)
  {
    if s.isShutdown {
      AddCallFixed(s, Begin(s, ctx, turn, now), proj, ctx, turn, s.nextSymbol, Threw);
    } else {
      SweepFixed(s, proj, now);
      SweepKeeps(s, now);
      JoinFixed(Sweep(s, now), proj, ctx, turn);
      JoinKeeps(Sweep(s, now), ctx, turn);
      AdmitFixed(Join(Sweep(s, now), ctx, turn), proj, |s.calls|, now);
    }
  }

  /** A creation that saw no reload was born under the current revision of its project. */
  lemma UnchangedIsCurrent(s: State, proj: Projects, id: nat)
    requires Fixed(s, proj) && Inv(s) && id < |s.calls| && s.calls[id].pc.Created?
    requires !RuntimeChanged(s, s.calls[id])
    ensures var p := s.calls[id].pc.session;
            p < |s.births|
            && Count(s.births[p].projectRevisions, s.calls[id].revisionKey) == Count(s.projectRevisions, s.calls[id].revisionKey)
  {
    assert FixedCall(s, proj, id) && BirthPast(s, s.calls[id].pc.session);
  }

  lemma InstallIntoFixed(s: State, proj: Projects, id: nat, r: nat, p: nat, now: int)
    requires Fixed(s, proj) && Inv(s) && id < |s.calls| && s.calls[id].pc == Created(Some(r), p)
    ensures Fixed(InstallInto(s, id, r, p, now), proj)
  {
    var t := InstallInto(s, id, r, p, now);
    assert CallInv(s, id) && FixedCall(s, proj, id) && FixedRecord(s, proj, r);
    if !RuntimeChanged(s, s.calls[id]) { UnchangedIsCurrent(s, proj, id); }
    forall i | 0 <= i < |t.calls| ensures FixedCall(t, proj, i) { assert FixedCall(s, proj, i); }
    forall q | 0 <= q < |t.records| ensures FixedRecord(t, proj, q) { assert FixedRecord(s, proj, q); }
    forall q | 0 <= q < |t.births| ensures BirthPast(t, q) { assert BirthPast(s, q); }
    forall k <- t.sessions ensures FreshAt(t, k) { assert FreshAt(s, k) && CacheInv(s, k); }
  }

  lemma InstallNewFixed(s: State, proj: Projects, id: nat, p: nat, now: int)
    requires Fixed(s, proj) && Inv(s) && id < |s.calls| && s.calls[id].pc == Created(None, p)
    ensures Fixed(InstallNew(s, id, p, now), proj)
  {
    var t := InstallNew(s, id, p, now);
    assert FixedCall(s, proj, id);
    if !RuntimeChanged(s, s.calls[id]) { UnchangedIsCurrent(s, proj, id); }
    forall i | 0 <= i < |t.calls| ensures FixedCall(t, proj, i) { assert FixedCall(s, proj, i); }
    forall q | 0 <= q < |t.records| ensures FixedRecord(t, proj, q) { if q < |s.records| { assert FixedRecord(s, proj, q); } }
    forall q | 0 <= q < |t.births| ensures BirthPast(t, q) { assert BirthPast(s, q); }
    forall k <- t.sessions ensures FreshAt(t, k) { if k in s.sessions { assert FreshAt(s, k) && CacheInv(s, k); } }
  }

  lemma InstallFixed(s: State, proj: Projects, id: nat, now: int)
    requires Fixed(s, proj) && Inv(s) && id < |s.calls| && s.calls[id].pc.Created?
    ensures Fixed(Install(s, id, s.calls[id].pc.target, s.calls[id].pc.session, now), proj)
  {
    var pc := s.calls[id].pc;
    MoveKeepsFixed(s, DisposeLate(s, id, pc.session), proj, id);
    if pc.target.Some? { InstallIntoFixed(s, proj, id, pc.target.value, pc.session, now); }
    else { InstallNewFixed(s, proj, id, pc.session, now); }
  }

  lemma FactoryFixed(s: State, proj: Projects, id: nat, ok: bool)
    requires Fixed(s, proj) && id < |s.calls| && s.calls[id].pc.Creating?
    ensures Fixed(FactoryStep(s, id, ok), proj)
  {
    MoveKeepsFixed(s, Reject(s, id), proj, id);
    MoveKeepsFixed(s, DeliverPaused(s, id), proj, id);
    MoveKeepsFixed(s, Deliver(s, id), proj, id);
  }

  lemma ResumptionFixed(s: State, proj: Projects, e: Event)
    requires Fixed(s, proj) && Inv(s) && Enabled(s, e) && Mover(s, e) < |s.calls|
    ensures Fixed(Step(s, e), proj)
  {
    var id := Mover(s, e);
    FinishFixed(s, proj, id, Threw);
    match e
    case ResumeClosing(_, now) => LookupFixed(s, proj, id, now);
    case ResumeEvict(_) => CreateTrackedFixed(s, proj, id, Some(s.calls[id].pc.rec), Rec(s, s.calls[id].pc.rec).ctx);
    case FactoryDone(_, ok) => FactoryFixed(s, proj, id, ok);
    case ResumePausedDispose(_) =>
      MoveKeepsFixed(s, SetPc(DropTracked(s, s.calls[id].pc.session), id, CreateFailed), proj, id);
    case ResumeCreated(_, now) => InstallFixed(s, proj, id, now);
    case _ =>
  }

  // ---------------------------------------------------------------- reloads and the environment

  /** A project reload dirties exactly the records that would otherwise be out of date. */
  lemma ReloadFixed(s: State, proj: Projects, project: string)
    requires Fixed(s, proj) && Inv(s)
    ensures Fixed(Step(s, MarkProjectDirty(project)), proj)
  {
    var t := Step(s, MarkProjectDirty(project));
    forall i | 0 <= i < |t.calls| ensures FixedCall(t, proj, i) { assert FixedCall(s, proj, i); }
    forall r | 0 <= r < |t.records| ensures FixedRecord(t, proj, r) { assert FixedRecord(s, proj, r); }
    forall p | 0 <= p < |t.births| ensures BirthPast(t, p) { assert BirthPast(s, p); }
    forall k <- t.sessions ensures FreshAt(t, k) { assert FreshAt(s, k) && CacheInv(s, k); }
  }

  lemma ReloadAllFixed(s: State, proj: Projects)
    requires Fixed(s, proj)
    ensures Fixed(Dirty(s.(runtimeRevision := s.runtimeRevision + 1), s.sessions.Keys), proj)
  {
    var s1 := s.(runtimeRevision := s.runtimeRevision + 1);
    QuietKeepsFixed(s, s1, proj);
    RewriteKeepsFixed(s1, Dirty(s1, s.sessions.Keys), proj);
  }

  lemma TurnFixed(s: State, proj: Projects, e: Event)
    requires Fixed(s, proj) && (e.BeginTurn? || e.EndTurn? || e.Touch?)
    ensures Fixed(Step(s, e), proj)
  {
    match e
    case BeginTurn(key, run, now) =>
      SweepFixed(s, proj, now);
      QuietKeepsFixed(Sweep(s, now), TakeSlot(Sweep(s, now), key, run), proj);
    case EndTurn(key, run, now) =>
      QuietKeepsFixed(s, FreeSlot(s, key, run), proj);
      UseRecordFixed(FreeSlot(s, key, run), proj, key, now);
    case Touch(key, now) => UseRecordFixed(s, proj, key, now);
  }

  lemma EnvironmentFixed(s: State, proj: Projects, e: Event)
    requires Fixed(s, proj) && Inv(s) && Enabled(s, e) && Mover(s, e) == |s.calls| && !e.GetOrCreate?
    ensures Fixed(Step(s, e), proj)
  {
    match e
    case BeginTurn(_, _, _) => TurnFixed(s, proj, e);
    case EndTurn(_, _, _) => TurnFixed(s, proj, e);
    case Touch(_, _) => TurnFixed(s, proj, e);
    case MarkAllDirty => ReloadAllFixed(s, proj);
    case MarkProjectDirty(project) => ReloadFixed(s, proj, project);
    case _ => QuietKeepsFixed(s, Step(s, e), proj);
  }

  lemma StepFixed(s: State, proj: Projects, e: Event)
    requires Fixed(s, proj) && Inv(s) && (e.GetOrCreate? ==> e.ctx.project == proj(e.ctx.key))
    ensures Fixed(Step(s, e), proj)
  {
    if Enabled(s, e) {
      if e.GetOrCreate? { BeginFixed(s, proj, e.ctx, e.turn, e.now); }
      else if Mover(s, e) < |s.calls| { ResumptionFixed(s, proj, e); }
      else { EnvironmentFixed(s, proj, e); }
    }
  }

  /** With one project per key there is nothing to adopt. */
  lemma FixedNeverAdopts(s: State, proj: Projects, e: Event)
    requires Fixed(s, proj) && Inv(s)
    ensures !Adopts(s, e)
  {
    if e.ResumeClosing? && Enabled(s, e) && s.calls[e.id].ctx.key in s.sessions {
      var c := s.calls[e.id];
      assert FixedCall(s, proj, e.id) && CacheInv(s, c.ctx.key) && FixedRecord(s, proj, s.sessions[c.ctx.key]);
    }
  }

  ghost predicate OneProjectPerKey(events: seq<Event>, proj: Projects) {
    forall e <- events :: e.GetOrCreate? ==> e.ctx.project == proj(e.ctx.key)
  }

  lemma {:induction false} FixedRun(s: State, proj: Projects, events: seq<Event>)
    requires Fixed(s, proj) && Inv(s) && NonePaused(s) && OneProjectPerKey(events, proj)
    ensures Fixed(Run(s, events), proj) && NonePaused(Run(s, events)) && Inv(Run(s, events))
    decreases |events|
  {
    if events != [] {
      assert events[0] in events;
      StepFixed(s, proj, events[0]);
      FixedNeverAdopts(s, proj, events[0]);
      StepNonePaused(s, events[0]);
      StepKeeps(s, events[0]);
      FixedRun(Step(s, events[0]), proj, events[1..]);
    }
  }

  /** While a project is paused, no record of it is cached, in any interleaving. */
  lemma PausedProjectsAreNotCached(config: Config, proj: Projects, events: seq<Event>, key: string)
    requires OneProjectPerKey(events, proj) && key in Run(Init(config), events).sessions
    ensures var t := Run(Init(config), events);
            !IsPaused(t, Cached(t, key).ctx.project)
  {
    FixedRun(Init(config), proj, events);
  }

  /**
   A cached record that is not dirty holds a session the router has not disposed of, whose
   factory call began under the current runtime revision -- whatever overlapping
   recreations, reloads and closes came before.
   */
  lemma CleanRecordsAreLive(config: Config, events: seq<Event>, key: string)
    requires var t := Run(Init(config), events); key in t.sessions && !Cached(t, key).dirty
    ensures var t := Run(Init(config), events);
            var p := Cached(t, key).session;
            p in t.fulfilled && p !in t.disposed && p < |t.births| && t.births[p].runtimeRevision == t.runtimeRevision
  {
    InitHolds(config);
    RunKeeps(Init(config), events);
    var t := Run(Init(config), events);
    assert CacheInv(t, key) && RecordInv(t, t.sessions[key]) && SessionInv(t, Cached(t, key).session);
  }

  /** With one project per key, that factory call also began under the current revision of its project. */
  lemma CleanRecordsAreUpToDate(config: Config, proj: Projects, events: seq<Event>, key: string)
    requires OneProjectPerKey(events, proj)
    requires var t := Run(Init(config), events); key in t.sessions && !Cached(t, key).dirty && Cached(t, key).ctx.project.Some?
    ensures var t := Run(Init(config), events);
            var rec := Cached(t, key);
            rec.session < |t.births|
            && Count(t.births[rec.session].projectRevisions, rec.ctx.project.value)
               == Count(t.projectRevisions, rec.ctx.project.value)
  {
    FixedRun(Init(config), proj, events);
    assert FreshAt(Run(Init(config), events), key);
  }
}
