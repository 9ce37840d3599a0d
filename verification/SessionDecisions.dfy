/**
 What each operation of the session cache decides, read off the fields of the state before it:
 what is swept, refreshed, returned, installed, marked and closed, and who holds a turn.
 */
module SessionDecisions {
  import opened Prelude
  import opened SessionProtocol
  import opened SessionInvariants
  import opened SessionSteps
  import opened SessionTheorems
  import opened SessionOutcomes

  // ---------------------------------------------------------------- sweeping

  /** Nobody has used the session for longer than the timeout, and no turn is in flight on its key. */
  predicate Expired(s: State, now: int, key: string) {
    && !s.isShutdown && key in s.sessions && key !in s.inFlight
    && s.sessions[key] < |s.records| && now - s.records[s.sessions[key]].lastUsedAt > s.config.idleTimeout
  }

  lemma ExpiredIsIdle(s: State, now: int, key: string)
    requires Inv(s)
    ensures Expired(s, now, key) <==> !s.isShutdown && key in Idle(s, now)
  {
    if key in s.sessions { assert CacheInv(s, key); }
  }

  /** A sweep takes exactly the expired sessions out of the cache, and disposes of them. */
  lemma SweepTakesExpired(s: State, now: int, key: string)
    requires Inv(s) && key in s.sessions
    ensures var t := Step(s, SweepIdle(now));
            && (key in t.sessions <==> !Expired(s, now, key))
            && (key in t.sessions ==> t.sessions[key] == s.sessions[key])
            && (Expired(s, now, key) ==> s.records[s.sessions[key]].session in t.disposed && key !in t.generations)
  {
    ExpiredIsIdle(s, now, key);
    assert CacheInv(s, key);
  }

  lemma EvictTakes(s: State, keys: set<string>, key: string)
    requires key !in keys && key in s.sessions
    ensures key in Evict(s, keys, true).sessions
  {
  }

  lemma SweepSpares(s: State, now: int, key: string)
    requires key in s.sessions && key in s.inFlight
    ensures key in Sweep(s, now).sessions
  {
    if !s.isShutdown { EvictTakes(s, Idle(s, now), key); }
  }

  lemma ResumptionKeepsKeys(s: State, e: Event, key: string)
    requires Enabled(s, e) && Mover(s, e) < |s.calls| && key in s.sessions
    ensures key in Step(s, e).sessions
  {
    var id := Mover(s, e);
    match e
    case ResumeClosing(_, now) =>
      LookupKeepsCache(s, id, now);
      FinishKeepsCache(s, id, Threw);
    case ResumeEvict(_) =>
      FinishKeepsCache(s, id, Threw);
      CreateKeepsCache(s, id, Some(s.calls[id].pc.rec), Rec(s, s.calls[id].pc.rec).ctx);
    case ResumeCreated(_, now) => InstallKeepsKeys(s, id, s.calls[id].pc.target, s.calls[id].pc.session, now, key);
    case FactoryDone(_, ok) => FactoryKeepsCache(s, id, ok);
    case ResumePausedDispose(_) => PcKeepsCache(DropTracked(s, s.calls[id].pc.session), id, CreateFailed);
    case _ => FinishKeepsCache(s, id, Threw);
  }

  lemma FactoryKeepsCache(s: State, id: nat, ok: bool)
    requires id < |s.calls| && s.calls[id].pc.Creating?
    ensures FactoryStep(s, id, ok).sessions == s.sessions
  {
    var p := s.calls[id].pc.session;
    PcKeepsCache(DropTracked(s, p), id, CreateFailed);
    PcKeepsCache(s.(fulfilled := s.fulfilled + {p}, disposed := s.disposed + {p}), id, DisposingPaused(p));
    PcKeepsCache(DropTracked(s.(fulfilled := s.fulfilled + {p}), p), id, Created(s.calls[id].pc.target, p));
  }

  lemma InstallKeepsKeys(s: State, id: nat, target: Option<nat>, p: nat, now: int, key: string)
    requires id < |s.calls| && key in s.sessions
    ensures key in Install(s, id, target, p, now).sessions
  {
    var c := s.calls[id];
    PcKeepsCache(s.(disposed := s.disposed + {p}), id, DisposingLate(p));
    if target.Some? {
      FinishKeepsCache(Rewrite(s, target.value, Rec(s, target.value).(session := p, dirty := RuntimeChanged(s, c), lastUsedAt := now)),
                       id, Returned(p));
    }
    FinishKeepsCache(AddRecord(s, c.ctx.key, Record(p, now, c.ctx, RuntimeChanged(s, c))), id, Returned(p));
  }

  /** Nothing but a close takes the session away from a key whose turn is in flight. */
  lemma LiveTurnKeepsSession(s: State, e: Event, key: string)
    requires Inv(s) && key in s.sessions && key in s.inFlight
    requires e != Close(key) && !e.Shutdown?
    requires e.CloseProject? ==> s.sessions[key] < |s.records| && s.records[s.sessions[key]].ctx.project != Some(e.project)
    ensures key in Step(s, e).sessions
  {
    if Enabled(s, e) {
      if Mover(s, e) < |s.calls| {
        ResumptionKeepsKeys(s, e, key);
      } else if e.GetOrCreate? {
        SweepSpares(s, e.now, key);
        AdmitKeepsCache(Join(Sweep(s, e.now), e.ctx, e.turn), |s.calls|, e.now);
      } else if e.CloseProject? || e.Close? {
        CloseSpares(s, e, key);
      } else {
        OthersSpare(s, e, key);
      }
    }
  }

  lemma CloseSpares(s: State, e: Event, key: string)
    requires (e.Close? && e.key != key) || (e.CloseProject? && key !in CachedOf(s, e.project))
    requires key in s.sessions
    ensures key in Step(s, e).sessions
  {
  }

  lemma OthersSpare(s: State, e: Event, key: string)
    requires key in s.sessions && key in s.inFlight && Mover(s, e) == |s.calls|
    requires !(e.Close? || e.CloseProject? || e.GetOrCreate? || e.Shutdown?)
    ensures key in Step(s, e).sessions
  {
    if e.BeginTurn? || e.SweepIdle? { SweepSpares(s, e.now, key); }
  }

  // ---------------------------------------------------------------- turns

  /** `beginTurn` takes a free slot, and neither a taken one nor another. */
  lemma BeginTakesSlot(s: State, key: string, run: string, now: int, other: string)
    requires !s.isShutdown
    ensures var t := Step(s, BeginTurn(key, run, now));
            && key in t.inFlight && t.inFlight[key] == (if key in s.inFlight then s.inFlight[key] else run)
            && (other != key ==> (other in t.inFlight <==> other in s.inFlight))
            && (other != key && other in s.inFlight ==> t.inFlight[other] == s.inFlight[other])
  {
    assert Sweep(s, now).inFlight == s.inFlight;
  }

  /** `endTurn` frees the slot for its holder or an unnamed run, and no other slot. */
  lemma EndFreesSlot(s: State, key: string, ended: Option<string>, now: int, other: string)
    ensures var t := Step(s, EndTurn(key, ended, now));
            && (key in t.inFlight <==> key in s.inFlight && ended.Some? && ended.value != "" && ended.value != s.inFlight[key])
            && (other != key ==> (other in t.inFlight <==> other in s.inFlight))
            && (other in t.inFlight ==> t.inFlight[other] == s.inFlight[other])
  {
    assert UseRecord(FreeSlot(s, key, ended), key, now).inFlight == FreeSlot(s, key, ended).inFlight;
  }

  // ---------------------------------------------------------------- looking a key up

  /** The key has not been closed since the call began. */
  predicate Open(s: State, c: Call) {
    !s.isShutdown && c.ctx.key in s.generations && s.generations[c.ctx.key] == c.symbol
  }

  predicate Paused(s: State, project: Option<string>) {
    match project
    case None => false
    case Some(name) => name in s.paused && name != ""
  }

  /** The record is dirty and may be replaced, and no other turn is using its session. */
  predicate MustRefresh(s: State, r: nat, key: string, turn: Option<string>) {
    && r < |s.records| && s.records[r].dirty && s.config.canRecreate
    && (key in s.inFlight && s.inFlight[key] != "" ==> turn == Some(s.inFlight[key]))
  }

  /** What the lookup of a call decides. */
  function Decision(s: State, id: nat): Pc
    requires id < |s.calls|
  {
    var c := s.calls[id];
    if !Open(s, c) then Threw
    else if c.ctx.key !in s.sessions then
      if Paused(s, c.ctx.project) then CreateFailed else Creating(None, |s.births|)
    else if MustRefresh(s, s.sessions[c.ctx.key], c.ctx.key, c.turn) then
      WaitEvict(s.sessions[c.ctx.key], Token(s.epoch, c.ctx.key))
    else if s.sessions[c.ctx.key] < |s.records| then Returned(s.records[s.sessions[c.ctx.key]].session)
    else Threw
  }

  lemma LookupDecides(s: State, id: nat, now: int)
    requires Inv(s) && id < |s.calls|
    ensures Turned(s, Lookup(s, id, now), id, Decision(s, id))
  {
    var c := s.calls[id];
    FinishTurns(s, id, Threw);
    CreateTurns(s, id, None, c.ctx);
    if c.ctx.key in s.sessions {
      assert CacheInv(s, c.ctx.key);
      RefreshTurns(s, id, s.sessions[c.ctx.key]);
      ReturnCachedTurns(s, id, s.sessions[c.ctx.key], now);
    }
  }

  /** When a call goes on after waiting for a disposal of its key, its lookup decides, unless the disposal failed. */
  lemma WaitingCallDecides(s: State, id: nat, now: int)
    requires Inv(s) && Enabled(s, ResumeClosing(id, now))
    ensures Turned(s, Step(s, ResumeClosing(id, now)), id,
                   if s.settled[s.calls[id].pc.token] then Decision(s, id) else Threw)
  {
    LookupDecides(s, id, now);
    FinishTurns(s, id, Threw);
  }

  /**
   A new call is refused after shutdown and for a paused project, waits for a pending disposal
   of its key, and otherwise returns the cached session, refreshes it, or starts a creation.
   */
  function FirstDecision(s: State, ctx: Context, turn: Option<string>, now: int): Pc {
    if s.isShutdown || Paused(s, ctx.project) then Threw
    else if Expired(s, now, ctx.key) then WaitClosing(Token(s.epoch, ctx.key))
    else if ctx.key in s.closing then WaitClosing(s.closing[ctx.key])
    else if ctx.key !in s.sessions then Creating(None, |s.births|)
    else if MustRefresh(s, s.sessions[ctx.key], ctx.key, turn) then WaitEvict(s.sessions[ctx.key], Token(s.epoch + 1, ctx.key))
    else if s.sessions[ctx.key] < |s.records| then Returned(s.records[s.sessions[ctx.key]].session)
    else Threw
  }

  lemma NewCallDecides(s: State, ctx: Context, turn: Option<string>, now: int)
    requires Inv(s)
    ensures var t := Step(s, GetOrCreate(ctx, turn, now));
            && |t.calls| == |s.calls| + 1 && t.calls[..|s.calls|] == s.calls
            && t.calls[|s.calls|].ctx == ctx && t.calls[|s.calls|].turn == turn
            && t.calls[|s.calls|].pc == FirstDecision(s, ctx, turn, now)
  {
    if !s.isShutdown {
      var u := Join(Sweep(s, now), ctx, turn);
      SweepKeeps(s, now);
      JoinKeeps(Sweep(s, now), ctx, turn);
      Joined(s, now, ctx, turn);
      AdmitDecides(u, |s.calls|, now);
      SameDecision(s, now, ctx, turn);
    }
  }

  /** A sweep and the new call change nothing that decides, but for the key's own session if that has expired. */
  lemma SameDecision(s: State, now: int, ctx: Context, turn: Option<string>)
    requires Inv(s) && !s.isShutdown
    ensures var u := Join(Sweep(s, now), ctx, turn);
            |u.calls| == |s.calls| + 1
            && FirstDecision(s, ctx, turn, now)
               == if Paused(u, ctx.project) then Threw
                  else if ctx.key in u.closing then WaitClosing(u.closing[ctx.key]) else Decision(u, |s.calls|)
  {
    Joined(s, now, ctx, turn);
    JoinedFields(s, now, ctx, turn);
  }

  lemma JoinedFields(s: State, now: int, ctx: Context, turn: Option<string>)
    requires Inv(s) && !s.isShutdown
    ensures var u := Join(Sweep(s, now), ctx, turn);
            && u.records == s.records && u.births == s.births && u.paused == s.paused && u.inFlight == s.inFlight
            && u.config == s.config && !u.isShutdown && u.epoch == s.epoch + 1
            && Open(u, u.calls[|s.calls|])
    ensures var u := Join(Sweep(s, now), ctx, turn);
            && (ctx.key in u.sessions <==> ctx.key in s.sessions && !Expired(s, now, ctx.key))
            && (ctx.key in u.sessions ==> u.sessions[ctx.key] == s.sessions[ctx.key])
            && (ctx.key in u.closing <==> ctx.key in s.closing || Expired(s, now, ctx.key))
            && (ctx.key in u.closing ==> u.closing[ctx.key] == if Expired(s, now, ctx.key) then Token(s.epoch, ctx.key)
                                                               else s.closing[ctx.key])
  {
    ExpiredIsIdle(s, now, ctx.key);
  }

  lemma AdmitDecides(u: State, id: nat, now: int)
    requires Inv(u) && id < |u.calls|
    ensures var key := u.calls[id].ctx.key;
            Turned(u, Admit(u, id, now), id,
                   if Paused(u, u.calls[id].ctx.project) then Threw
                   else if key in u.closing then WaitClosing(u.closing[key]) else Decision(u, id))
  {
    FinishTurns(u, id, Threw);
    LookupDecides(u, id, now);
  }

  // ---------------------------------------------------------------- creating and installing

  /** After the disposal of a dirty session its record is given a new one, unless the key was closed or the disposal failed. */
  lemma RefreshDecides(s: State, id: nat)
    requires Inv(s) && Enabled(s, ResumeEvict(id))
    ensures var c := s.calls[id];
            && c.pc.rec < |s.records|
            && Turned(s, Step(s, ResumeEvict(id)), id,
                      if !s.settled[c.pc.token] || !Open(s, c) then Threw
                      else if Paused(s, s.records[c.pc.rec].ctx.project) then CreateFailed
                      else Creating(Some(c.pc.rec), |s.births|))
  {
    assert CallInv(s, id);
    FinishTurns(s, id, Threw);
    CreateTurns(s, id, Some(s.calls[id].pc.rec), Rec(s, s.calls[id].pc.rec).ctx);
  }

  /** A session that the factory delivers goes to its caller, or is disposed of at once if its project was paused meanwhile. */
  lemma FactoryDecides(s: State, id: nat, ok: bool)
    requires Inv(s) && Enabled(s, FactoryDone(id, ok))
    ensures var p, target := s.calls[id].pc.session, s.calls[id].pc.target;
            var t := Step(s, FactoryDone(id, ok));
            && p in s.creating
            && if !ok then Turned(s, t, id, CreateFailed) && t.disposed == s.disposed && p !in t.creating
               else if Paused(s, s.creating[p].project) then Turned(s, t, id, DisposingPaused(p)) && p in t.disposed
               else Turned(s, t, id, Created(target, p)) && t.disposed == s.disposed && p !in t.creating
  {
    assert CallInv(s, id);
    RejectTurns(s, id);
    DeliverPausedTurns(s, id);
    DeliverTurns(s, id);
  }

  /** The key or its project was closed while the session was being created. */
  predicate TooLate(s: State, c: Call) {
    !Open(s, c) || (if c.ctx.project.Some? then Count(s.projectGenerations, c.ctx.project.value) else Count(s.projectGenerations, ""))
                   != c.projectGeneration
  }

  /** A reload has come since the call began. */
  predicate Outdated(s: State, c: Call) {
    c.runtimeRevision != s.runtimeRevision || Count(s.projectRevisions, c.revisionKey) != c.projectRevision
  }

  /** A session that comes too late is disposed of, and nothing else changes. */
  lemma LateSessionIsDisposed(s: State, id: nat, now: int)
    requires Enabled(s, ResumeCreated(id, now)) && TooLate(s, s.calls[id])
    ensures var t := Step(s, ResumeCreated(id, now));
            && Turned(s, t, id, DisposingLate(s.calls[id].pc.session)) && t.sessions == s.sessions && t.records == s.records
            && t.disposed == s.disposed + {s.calls[id].pc.session}
  {
  }

  lemma FinishKeepsFields(s: State, id: nat, pc: Pc)
    requires id < |s.calls|
    ensures var t := Finish(s, id, pc);
            Turned(s, t, id, pc) && t.records == s.records && t.sessions == s.sessions && t.disposed == s.disposed
  {
  }

  /** In time, it replaces the session of the dirty record it was created for ... */
  lemma RefreshedRecord(s: State, id: nat, now: int)
    requires Inv(s) && Enabled(s, ResumeCreated(id, now)) && !TooLate(s, s.calls[id]) && s.calls[id].pc.target.Some?
    ensures var r, p := s.calls[id].pc.target.value, s.calls[id].pc.session;
            var t := Step(s, ResumeCreated(id, now));
            && r < |s.records| && Turned(s, t, id, Returned(p)) && t.sessions == s.sessions && t.disposed == s.disposed
            && t.records == s.records[r := Record(p, now, s.records[r].ctx, Outdated(s, s.calls[id]))]
  {
    assert CallInv(s, id);
    var r, p := s.calls[id].pc.target.value, s.calls[id].pc.session;
    var rec := Record(p, now, s.records[r].ctx, Outdated(s, s.calls[id]));
    FinishKeepsFields(Rewrite(s, r, rec), id, Returned(p));
  }

  /** ... or is cached in a new one; either is dirty at once if a reload came meanwhile. */
  lemma NewRecord(s: State, id: nat, now: int)
    requires Inv(s) && Enabled(s, ResumeCreated(id, now)) && !TooLate(s, s.calls[id]) && s.calls[id].pc.target.None?
    ensures var c, p := s.calls[id], s.calls[id].pc.session;
            var t := Step(s, ResumeCreated(id, now));
            && Turned(s, t, id, Returned(p)) && t.disposed == s.disposed
            && t.sessions == s.sessions[c.ctx.key := |s.records|]
            && t.records == s.records + [Record(p, now, c.ctx, Outdated(s, c))]
  {
    var c, p := s.calls[id], s.calls[id].pc.session;
    FinishKeepsFields(AddRecord(s, c.ctx.key, Record(p, now, c.ctx, Outdated(s, c))), id, Returned(p));
  }

  /** What the cached branch leaves in the record: the known project, or else the caller's; and when it was used. */
  lemma CachedRecord(s: State, id: nat, now: int)
    requires Inv(s) && id < |s.calls| && Decision(s, id).Returned?
    ensures var key := s.calls[id].ctx.key;
            var t := Lookup(s, id, now);
            && key in s.sessions && s.sessions[key] < |s.records| && t.sessions == s.sessions && t.disposed == s.disposed
            && var rec := s.records[s.sessions[key]];
               var project := if rec.ctx.project.Some? then rec.ctx.project else s.calls[id].ctx.project;
               t.records == s.records[s.sessions[key] := Record(rec.session, now, Context(key, project), rec.dirty)]
  {
    var key := s.calls[id].ctx.key;
    assert CacheInv(s, key);
    var r := s.sessions[key];
    var rec := Merged(s, r, s.calls[id]).(lastUsedAt := now);
    FinishKeepsFields(Rewrite(s, r, rec), id, Returned(s.records[r].session));
    assert Lookup(s, id, now) == ReturnCached(s, id, r, now);
  }

  /** The `finally` block drops the symbol of the key only if nothing cached or pending needs it and it is the call's own. */
  lemma SymbolIsDropped(s: State, id: nat)
    requires Enabled(s, ResumeFailed(id))
    ensures var key, t := s.calls[id].ctx.key, Step(s, ResumeFailed(id));
            && (key in t.generations <==>
                  && key in s.generations
                  && (key in s.sessions || s.generations[key] != s.calls[id].symbol
                      || exists p <- s.creating :: s.creating[p].key == key))
            && forall k <- s.generations :: k != key ==> k in t.generations && t.generations[k] == s.generations[k]
  {
  }

  /** The project of the session cached under the key, unless that has expired. */
  function CachedProject(s: State, now: int, key: string): Option<string> {
    if key in s.sessions && !Expired(s, now, key) && s.sessions[key] < |s.records|
    then s.records[s.sessions[key]].ctx.project else None
  }

  lemma SweptKey(s: State, now: int, key: string)
    requires Inv(s) && !s.isShutdown
    ensures var v := Sweep(s, now);
            && (key in v.sessions <==> key in s.sessions && !Expired(s, now, key))
            && (key in v.sessions ==> Cached(v, key).ctx.project == CachedProject(s, now, key))
  {
    ExpiredIsIdle(s, now, key);
    if key in s.sessions { assert CacheInv(s, key); }
  }

  lemma SweptSymbol(s: State, now: int, key: string)
    requires Inv(s) && !s.isShutdown
    ensures var v := Sweep(s, now);
            && (key in v.generations <==> key in s.generations && !Expired(s, now, key))
            && (key in v.generations ==> v.generations[key] == s.generations[key])
  {
    ExpiredIsIdle(s, now, key);
  }

  lemma SweptRevisions(s: State, now: int)
    ensures var v := Sweep(s, now);
            && v.runtimeRevision == s.runtimeRevision && v.projectRevisions == s.projectRevisions
            && v.projectGenerations == s.projectGenerations && v.nextSymbol == s.nextSymbol
  {
  }

  /** What a new call remembers: the revisions and generations of the moment, and the symbol its key has or gets. */
  lemma NewCallRemembers(s: State, ctx: Context, turn: Option<string>, now: int)
    requires Inv(s) && !s.isShutdown
    ensures |Join(Sweep(s, now), ctx, turn).calls| == |s.calls| + 1
    ensures var c := Join(Sweep(s, now), ctx, turn).calls[|s.calls|];
            var cached := CachedProject(s, now, ctx.key);
            var name := if cached.Some? then cached.value else if ctx.project.Some? then ctx.project.value else "";
            && c.runtimeRevision == s.runtimeRevision && c.revisionKey == name
            && c.projectRevision == Count(s.projectRevisions, name)
            && c.projectGeneration == Count(s.projectGenerations, if ctx.project.Some? then ctx.project.value else "")
            && c.symbol == if ctx.key in s.generations && !Expired(s, now, ctx.key) then s.generations[ctx.key] else s.nextSymbol
  {
    SweptKey(s, now, ctx.key);
    SweptSymbol(s, now, ctx.key);
    SweptRevisions(s, now);
    Joined(s, now, ctx, turn);
    var v := Sweep(s, now);
    var symbol := if ctx.key in v.generations then v.generations[ctx.key] else v.nextSymbol;
    assert Join(v, ctx, turn).calls == v.calls + [Capture(v, ctx, turn, symbol, Starting)];
  }

  // ---------------------------------------------------------------- marking and closing

  lemma UseIsNoted(s: State, key: string, ended: Option<string>, now: int)
    requires Inv(s) && key in s.sessions
    ensures s.sessions[key] < |s.records|
    ensures var r := s.sessions[key];
            && Step(s, Touch(key, now)).records == s.records[r := s.records[r].(lastUsedAt := now)]
            && Step(s, EndTurn(key, ended, now)).records == s.records[r := s.records[r].(lastUsedAt := now)]
  {
    assert CacheInv(s, key);
  }

  /** `markAllDirty` marks every cached session and nothing else about it, and moves the revision on. */
  lemma AllAreMarked(s: State, key: string)
    requires Inv(s) && key in s.sessions
    ensures var t := Step(s, MarkAllDirty);
            && t.sessions == s.sessions && t.runtimeRevision == s.runtimeRevision + 1 && |t.records| == |s.records|
            && s.sessions[key] < |s.records|
            && t.records[s.sessions[key]] == s.records[s.sessions[key]].(dirty := true)
  {
    assert CacheInv(s, key);
  }

  /** Every cached record is filed under its own key. */
  ghost predicate Filed(s: State) {
    forall k <- s.sessions :: s.sessions[k] < |s.records| && s.records[s.sessions[k]].ctx.key == k
  }

  lemma MarkedExactly(s: State, keys: set<string>, key: string)
    requires Filed(s) && key in s.sessions && keys <= s.sessions.Keys
    ensures var t := Dirty(s, keys);
            && t.sessions == s.sessions && |t.records| == |s.records|
            && t.records[s.sessions[key]] == if key in keys then s.records[s.sessions[key]].(dirty := true)
                                             else s.records[s.sessions[key]]
  {
    if k :| k in keys && s.sessions[k] == s.sessions[key] { assert k == key; }
  }

  /** `markProjectDirty` marks exactly the cached sessions of the project. */
  lemma ProjectIsMarked(s: State, project: string, key: string)
    requires Inv(s) && key in s.sessions
    ensures var t := Step(s, MarkProjectDirty(project));
            && t.sessions == s.sessions && |t.records| == |s.records| && s.sessions[key] < |s.records|
            && Count(t.projectRevisions, project) == Count(s.projectRevisions, project) + 1
            && var rec := s.records[s.sessions[key]];
               t.records[s.sessions[key]] == rec.(dirty := rec.dirty || rec.ctx.project == Some(project))
  {
    forall k <- s.sessions ensures s.sessions[k] < |s.records| && s.records[s.sessions[k]].ctx.key == k { assert CacheInv(s, k); }
    var u := s.(projectRevisions := s.projectRevisions[project := Count(s.projectRevisions, project) + 1]);
    MarkedExactly(u, CachedOf(s, project), key);
  }

  /** `close` takes the key out of the cache, and no other. */
  lemma CloseTakesKey(s: State, closed: string, key: string)
    requires Inv(s) && key in s.sessions
    ensures var t := Step(s, Close(closed));
            && closed !in t.generations
            && (key in t.sessions <==> key != closed)
            && (key in t.sessions ==> t.sessions[key] == s.sessions[key])
            && s.sessions[key] < |s.records|
            && (key == closed ==> s.records[s.sessions[key]].session in t.disposed
                                  && closed in t.closing && t.closing[closed] == Token(s.epoch, closed))
  {
    assert CacheInv(s, key);
  }

  /** `closeProject` pauses the project, takes exactly its sessions out of the cache, and will drain its creations. */
  lemma CloseProjectTakes(s: State, project: string, key: string)
    requires Inv(s) && key in s.sessions
    ensures var t := Step(s, CloseProject(project));
            && s.sessions[key] < |s.records|
            && (key in t.sessions <==> s.records[s.sessions[key]].ctx.project != Some(project))
            && (key !in t.sessions ==> s.records[s.sessions[key]].session in t.disposed && key !in t.generations)
  {
    assert CacheInv(s, key);
  }

  lemma CloseProjectPauses(s: State, project: string, p: nat)
    ensures var t := Step(s, CloseProject(project));
            && project in t.paused && s.paused <= t.paused
            && Count(t.projectGenerations, project) == Count(s.projectGenerations, project) + 1
            && (p in s.creating && s.creating[p].project == Some(project) ==> p in t.draining)
    ensures Step(s, ResumeProject(project)).paused == s.paused - {project}
  {
  }

  /** `shutdown` empties the cache, disposes of everything in it and frees every turn. */
  lemma ShutdownEmpties(s: State, key: string)
    requires Inv(s) && !s.isShutdown
    ensures var t := Step(s, Shutdown);
            && t.isShutdown && t.sessions == map[] && t.inFlight == map[] && t.generations == map[]
            && (key in s.sessions ==> s.sessions[key] < |s.records| && s.records[s.sessions[key]].session in t.disposed)
  {
    if key in s.sessions { assert CacheInv(s, key); }
  }

  /** A disposal that settles is forgotten, unless a later one of its key has begun. */
  lemma SettledIsForgotten(s: State, token: Token, ok: bool, key: string)
    requires Enabled(s, Settle(token, ok))
    ensures var t := Step(s, Settle(token, ok));
            && token in t.settled && t.settled[token] == ok
            && (key in t.closing <==> key in s.closing && (key == token.key ==> s.closing[key] != token))
            && (key in t.closing ==> t.closing[key] == s.closing[key])
  {
  }
}
