/**
 What each operation of the session cache comes to, read off the fields of the state before
 it: whose session a call returns, what is swept, refreshed, marked, installed and freed.
 */
module SessionOutcomes {
  import opened Prelude
  import opened SessionProtocol
  import opened SessionInvariants
  import opened SessionSteps
  import opened SessionTheorems

  // ---------------------------------------------------------------- whose session is returned

  /** In every run a call returns a session that was created for its own key, by itself or by another call. */
  lemma ReturnedForItsKey(config: Config, events: seq<Event>, i: nat)
    requires var s := Run(Init(config), events); i < |s.calls| && s.calls[i].pc.Returned?
    ensures var s := Run(Init(config), events);
            var p := s.calls[i].pc.session;
            && p < |s.births| && s.births[p].owner < |s.calls|
            && s.calls[s.births[p].owner].ctx.key == s.calls[i].ctx.key
  {
    InitHolds(config);
    RunKeeps(Init(config), events);
    assert CallInv(Run(Init(config), events), i);
  }

  /** ... and so does every record: what is cached under a key was created for it. */
  lemma CachedForItsKey(config: Config, events: seq<Event>, key: string)
    requires key in Run(Init(config), events).sessions
    ensures var s := Run(Init(config), events);
            && s.sessions[key] < |s.records| && s.records[s.sessions[key]].session < |s.births|
            && s.births[s.records[s.sessions[key]].session].owner < |s.calls|
            && s.calls[s.births[s.records[s.sessions[key]].session].owner].ctx.key == key
  {
    InitHolds(config);
    RunKeeps(Init(config), events);
    var s := Run(Init(config), events);
    CachedIsOfKey(s, key, s.sessions[key]);
  }

  /** Call `i` has just returned `p`. */
  ghost predicate Returns(s: State, t: State, i: nat, p: nat) {
    i < |t.calls| && t.calls[i].pc == Returned(p) && (i < |s.calls| ==> s.calls[i].pc != Returned(p))
  }

  /** The session is the call's own, or the one cached under its key. */
  ghost predicate OwnOrCached(t: State, i: nat, p: nat)
    requires i < |t.calls|
  {
    var key := t.calls[i].ctx.key;
    Owns(t, i, p) || (key in t.sessions && t.sessions[key] < |t.records| && t.records[t.sessions[key]].session == p)
  }

  /** Call `id` has moved to `pc`, and no other call has moved. */
  ghost predicate Turned(s: State, t: State, id: nat, pc: Pc)
    requires id < |s.calls|
  {
    t.calls == s.calls[id := s.calls[id].(pc := pc)]
  }

  lemma FinishTurns(s: State, id: nat, pc: Pc)
    requires id < |s.calls|
    ensures Turned(s, Finish(s, id, pc), id, pc) && Finish(s, id, pc).records == s.records
  {
  }

  lemma StartFactoryTurns(s: State, id: nat, target: Option<nat>, ctx: Context)
    requires id < |s.calls|
    ensures Turned(s, StartFactory(s, id, target, ctx), id, Creating(target, |s.births|))
  {
    var begun := s.(births := s.births + [Birth(id, s.runtimeRevision, s.projectRevisions)],
                    creating := s.creating[|s.births| := ctx]);
    assert SetPc(begun, id, Creating(target, |s.births|)).calls == begun.calls[id := begun.calls[id].(pc := Creating(target, |s.births|))];
  }

  lemma CreateTurns(s: State, id: nat, target: Option<nat>, ctx: Context)
    requires id < |s.calls|
    ensures Turned(s, CreateTracked(s, id, target, ctx), id,
                   if IsPaused(s, ctx.project) then CreateFailed else Creating(target, |s.births|))
  {
    if !IsPaused(s, ctx.project) { StartFactoryTurns(s, id, target, ctx); }
  }

  lemma RefreshTurns(s: State, id: nat, r: nat)
    requires id < |s.calls|
    ensures Turned(s, Refresh(s, id, r), id, WaitEvict(r, Token(s.epoch, s.calls[id].ctx.key)))
  {
    var merged := MergeContext(s, id, r);
    var evicted := Evict(merged, {s.calls[id].ctx.key}, false);
    assert evicted.calls == s.calls && merged.epoch == s.epoch;
  }

  /** The cached branch returns the session of the record, which is merged and marked used. */
  lemma ReturnCachedTurns(s: State, id: nat, r: nat, now: int)
    requires id < |s.calls| && r < |s.records|
    ensures var t := ReturnCached(s, id, r, now);
            Turned(s, t, id, Returned(s.records[r].session)) && |t.records| == |s.records|
            && t.records[r].session == s.records[r].session && t.sessions == s.sessions
  {
    var used := Rewrite(s, r, Merged(s, r, s.calls[id]).(lastUsedAt := now));
    FinishTurns(used, id, Returned(s.records[r].session));
    ReturnKeepsCache(s, id, r, now);
  }

  /** What the cached branch does with record `r`. */
  ghost predicate Reused(s: State, t: State, id: nat, r: nat)
    requires id < |s.calls| && r < |s.records|
  {
    || Turned(s, t, id, WaitEvict(r, Token(s.epoch, s.calls[id].ctx.key)))
    || (Turned(s, t, id, Returned(s.records[r].session)) && |t.records| == |s.records|
        && t.records[r].session == s.records[r].session && t.sessions == s.sessions)
  }

  lemma ReuseTurns(s: State, id: nat, r: nat, now: int)
    requires id < |s.calls| && r < |s.records|
    ensures Reused(s, Reuse(s, id, r, now), id, r)
  {
    RefreshTurns(s, id, r);
    ReturnCachedTurns(s, id, r, now);
  }

  /** What a lookup does. */
  ghost predicate LookedUp(s: State, t: State, id: nat)
    requires id < |s.calls|
  {
    var key := s.calls[id].ctx.key;
    || Turned(s, t, id, Threw) || Turned(s, t, id, CreateFailed) || Turned(s, t, id, Creating(None, |s.births|))
    || (key in s.sessions && s.sessions[key] < |s.records| && Reused(s, t, id, s.sessions[key]))
  }

  lemma LookupTurns(s: State, id: nat, now: int)
    requires Inv(s) && id < |s.calls|
    ensures LookedUp(s, Lookup(s, id, now), id)
  {
    var key := s.calls[id].ctx.key;
    FinishTurns(s, id, Threw);
    CreateTurns(s, id, None, s.calls[id].ctx);
    if key in s.sessions {
      assert CacheInv(s, key);
      ReuseTurns(s, id, s.sessions[key], now);
    }
  }

  lemma LookedUpReturns(s: State, t: State, id: nat, p: nat)
    requires id < |s.calls| && LookedUp(s, t, id) && id < |t.calls| && t.calls[id].pc == Returned(p)
    ensures OwnOrCached(t, id, p)
  {
  }

  lemma AdmitTurns(s: State, id: nat, now: int)
    requires Inv(s) && id < |s.calls|
    ensures var t := Admit(s, id, now);
            LookedUp(s, t, id) || (exists token :: Turned(s, t, id, WaitClosing(token)))
  {
    FinishTurns(s, id, Threw);
    LookupTurns(s, id, now);
    if s.calls[id].ctx.key in s.closing {
      assert Turned(s, SetPc(s, id, WaitClosing(s.closing[s.calls[id].ctx.key])), id,
                    WaitClosing(s.closing[s.calls[id].ctx.key]));
    }
  }

  lemma AdmitReturns(s: State, t: State, id: nat, p: nat)
    requires id < |s.calls| && (LookedUp(s, t, id) || (exists token :: Turned(s, t, id, WaitClosing(token))))
    requires id < |t.calls| && t.calls[id].pc == Returned(p)
    ensures OwnOrCached(t, id, p)
  {
    if LookedUp(s, t, id) {
      LookedUpReturns(s, t, id, p);
    }
  }

  lemma InstallIntoTurns(s: State, id: nat, r: nat, p: nat, now: int)
    requires id < |s.calls|
    ensures var t := InstallInto(s, id, r, p, now); Turned(s, t, id, Returned(p)) && t.births == s.births
  {
    var written := Rewrite(s, r, Rec(s, r).(session := p, dirty := RuntimeChanged(s, s.calls[id]), lastUsedAt := now));
    FinishTurns(written, id, Returned(p));
  }

  lemma InstallNewTurns(s: State, id: nat, p: nat, now: int)
    requires id < |s.calls|
    ensures var t := InstallNew(s, id, p, now); Turned(s, t, id, Returned(p)) && t.births == s.births
  {
    var c := s.calls[id];
    FinishTurns(AddRecord(s, c.ctx.key, Record(p, now, c.ctx, RuntimeChanged(s, c))), id, Returned(p));
  }

  lemma InstallTurns(s: State, id: nat, target: Option<nat>, p: nat, now: int)
    requires id < |s.calls|
    ensures var t := Install(s, id, target, p, now);
            (Turned(s, t, id, Returned(p)) && t.births == s.births) || Turned(s, t, id, DisposingLate(p))
  {
    if target.Some? { InstallIntoTurns(s, id, target.value, p, now); }
    InstallNewTurns(s, id, p, now);
    assert Turned(s, DisposeLate(s, id, p), id, DisposingLate(p));
  }

  /** In every step a call that returns returns its own session or the one cached under its key. */
  lemma StepReturns(s: State, e: Event, i: nat, p: nat)
    requires Inv(s) && Returns(s, Step(s, e), i, p)
    ensures OwnOrCached(Step(s, e), i, p)
  {
    if i < |s.calls| {
      StepFollows(s, e, i);
      ResumptionReturns(s, e, i, p);
    } else {
      NewCallReturns(s, e, i, p);
    }
  }

  lemma ResumptionReturns(s: State, e: Event, i: nat, p: nat)
    requires Inv(s) && Enabled(s, e) && i < |s.calls| && i == Mover(s, e) && Returns(s, Step(s, e), i, p)
    ensures OwnOrCached(Step(s, e), i, p)
  {
    match e
    case ResumeClosing(id, now) =>
      LookupTurns(s, id, now);
      FinishTurns(s, id, Threw);
      LookedUpReturns(s, Step(s, e), id, p);
    case ResumeEvict(id) =>
      FinishTurns(s, id, Threw);
      CreateTurns(s, id, Some(s.calls[id].pc.rec), Rec(s, s.calls[id].pc.rec).ctx);
    case ResumeCreated(id, now) =>
      assert CallInv(s, id);
      InstallTurns(s, id, s.calls[id].pc.target, s.calls[id].pc.session, now);
    case _ => OthersTurn(s, e);
  }

  lemma RejectTurns(s: State, id: nat)
    requires id < |s.calls| && s.calls[id].pc.Creating?
    ensures Turned(s, Reject(s, id), id, CreateFailed)
  {
  }

  lemma DeliverPausedTurns(s: State, id: nat)
    requires id < |s.calls| && s.calls[id].pc.Creating?
    ensures Turned(s, DeliverPaused(s, id), id, DisposingPaused(s.calls[id].pc.session))
  {
  }

  lemma DeliverTurns(s: State, id: nat)
    requires id < |s.calls| && s.calls[id].pc.Creating?
    ensures Turned(s, Deliver(s, id), id, Created(s.calls[id].pc.target, s.calls[id].pc.session))
  {
  }

  lemma DropTurns(s: State, id: nat, p: nat)
    requires id < |s.calls|
    ensures Turned(s, SetPc(DropTracked(s, p), id, CreateFailed), id, CreateFailed)
  {
  }

  lemma OthersTurn(s: State, e: Event)
    requires Enabled(s, e) && (e.FactoryDone? || e.ResumePausedDispose? || e.ResumeFailed? || e.ResumeLateDispose?)
    ensures |Step(s, e).calls| == |s.calls| && e.id < |s.calls| && !Step(s, e).calls[e.id].pc.Returned?
  {
    match e
    case FactoryDone(id, _) =>
      RejectTurns(s, id);
      DeliverPausedTurns(s, id);
      DeliverTurns(s, id);
    case ResumePausedDispose(id) => DropTurns(s, id, s.calls[id].pc.session);
    case ResumeFailed(id) => FinishTurns(s, id, Threw);
    case ResumeLateDispose(id) => FinishTurns(s, id, Threw);
  }

  lemma NewCallReturns(s: State, e: Event, i: nat, p: nat)
    requires Inv(s) && i >= |s.calls| && Returns(s, Step(s, e), i, p)
    ensures OwnOrCached(Step(s, e), i, p)
  {
    if !e.GetOrCreate? {
      NoNewCall(s, e);
    } else if !s.isShutdown {
      SweepKeeps(s, e.now);
      JoinKeeps(Sweep(s, e.now), e.ctx, e.turn);
      Joined(s, e.now, e.ctx, e.turn);
      AdmittedReturns(Join(Sweep(s, e.now), e.ctx, e.turn), |s.calls|, e.now, i, p);
    }
  }

  /** A new call joins the others, in front of its first check. */
  lemma Joined(s: State, now: int, ctx: Context, turn: Option<string>)
    ensures var u := Join(Sweep(s, now), ctx, turn);
            && |u.calls| == |s.calls| + 1 && u.calls[..|s.calls|] == s.calls
            && u.calls[|s.calls|].ctx == ctx && u.calls[|s.calls|].turn == turn && u.calls[|s.calls|].pc == Starting
  {
    assert Sweep(s, now).calls == s.calls;
  }

  lemma AdmittedReturns(u: State, id: nat, now: int, i: nat, p: nat)
    requires Inv(u) && |u.calls| == id + 1 && i >= id
    requires i < |Admit(u, id, now).calls| && Admit(u, id, now).calls[i].pc == Returned(p)
    ensures OwnOrCached(Admit(u, id, now), i, p)
  {
    AdmitTurns(u, id, now);
    AdmitReturns(u, Admit(u, id, now), id, p);
  }

  lemma NoNewCall(s: State, e: Event)
    requires Inv(s) && !e.GetOrCreate?
    ensures |Step(s, e).calls| == |s.calls|
  {
    if Enabled(s, e) {
      if Mover(s, e) == |s.calls| {
        EnvironmentQuiet(s, e);
      } else {
        ResumptionMovesOne(s, e);
      }
    }
  }

  lemma ResumptionMovesOne(s: State, e: Event)
    requires Inv(s) && Enabled(s, e) && Mover(s, e) < |s.calls|
    ensures |Step(s, e).calls| == |s.calls|
  {
    var id := Mover(s, e);
    match e
    case ResumeClosing(_, now) =>
      LookupTurns(s, id, now);
      FinishTurns(s, id, Threw);
    case ResumeEvict(_) =>
      FinishTurns(s, id, Threw);
      CreateTurns(s, id, Some(s.calls[id].pc.rec), Rec(s, s.calls[id].pc.rec).ctx);
    case ResumeCreated(_, now) => InstallTurns(s, id, s.calls[id].pc.target, s.calls[id].pc.session, now);
    case _ => OthersTurn(s, e);
  }
}
