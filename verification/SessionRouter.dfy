/**
 `SessionRouter` as the class it is: its fields are updated in place by the synchronous
 stretches of its methods.  Each method is one such stretch and is proved to be the step
 of `SessionProtocol` of the same name, so the theorems about runs apply to it.
 */
module SessionCache {
  import opened Prelude
  import P = SessionProtocol
  import I = SessionInvariants
  import Steps = SessionSteps

  class SessionRouter {
    const config: P.Config
    var sessions: map<string, nat>
    var records: seq<P.Record>
    var closing: map<string, P.Token>
    var settled: map<P.Token, bool>
    var generations: map<string, nat>
    var projectGenerations: map<string, nat>
    var projectRevisions: map<string, nat>
    var paused: set<string>
    var creating: map<nat, P.Context>
    var draining: set<nat>
    var inFlight: map<string, string>
    var isShutdown: bool
    var runtimeRevision: nat
    var calls: seq<P.Call>
    var births: seq<P.Birth>
    var fulfilled: set<nat>
    var disposed: set<nat>
    var epoch: nat
    var nextSymbol: nat

    ghost function View(): P.State
      reads this
    {
      P.State(config, sessions, records, closing, settled, generations, projectGenerations, projectRevisions, paused,
              creating, draining, inFlight, isShutdown, runtimeRevision, calls, births, fulfilled, disposed, epoch,
              nextSymbol)
    }

    constructor (config: P.Config)
      ensures View() == P.Init(config)
    {
      this.config := config;
      sessions, records, closing, settled := map[], [], map[], map[];
      generations, projectGenerations, projectRevisions, paused := map[], map[], map[], {};
      creating, draining, inFlight, isShutdown, runtimeRevision := map[], {}, map[], false, 0;
      calls, births, fulfilled, disposed, epoch, nextSymbol := [], [], {}, {}, 0, 0;
    }

    /** `emitSessionEvict` for one key. */
    method EmitSessionEvict(key: string)
      modifies this`disposed, this`closing
      ensures closing == old(closing)[key := P.Token(epoch, key)]
      ensures disposed == old(disposed) + {P.RecordOf(sessions, records, key).session}
    {
      disposed := disposed + {P.RecordOf(sessions, records, key).session};
      closing := closing[key := P.Token(epoch, key)];
    }

    /** Take one key out of the cache and dispose of its session. */
    method EvictOne(key: string)
      modifies this`disposed, this`closing, this`sessions, this`generations
      ensures sessions == old(sessions) - {key} && generations == old(generations) - {key}
      ensures closing == old(closing)[key := P.Token(epoch, key)]
      ensures disposed == old(disposed) + {P.RecordOf(old(sessions), records, key).session}
    {
      EmitSessionEvict(key);
      sessions := sessions - {key};
      generations := generations - {key};
    }

    /** ... and every key of `keys`, one after the other. */
    method EvictEach(keys: set<string>, ghost start: P.State)
      requires start.records == records && start.sessions == sessions && start.generations == generations
      requires start.closing == closing && start.disposed == disposed && start.epoch == epoch
      requires keys <= sessions.Keys
      modifies this`disposed, this`closing, this`sessions, this`generations
      ensures sessions == start.sessions - keys && generations == start.generations - keys
      ensures closing == P.ClosingAfter(start, keys) && disposed == P.DisposedAfter(start, keys)
    {
      ghost var gone := {};
      var todo := keys;
      EvictNone(start);
      while todo != {}
        invariant gone + todo == keys && gone !! todo
        invariant sessions == start.sessions - gone && generations == start.generations - gone
        invariant closing == P.ClosingAfter(start, gone) && disposed == P.DisposedAfter(start, gone)
        decreases todo
      {
        var key :| key in todo;
        EvictOneMore(start, gone, key);
        EvictOne(key);
        todo := todo - {key};
        gone := gone + {key};
      }
      assert gone == keys;
    }

    method EvictAll(keys: set<string>)
      requires keys <= sessions.Keys
      modifies this`disposed, this`closing, this`sessions, this`generations, this`epoch
      ensures View() == P.Evict(old(View()), keys, true)
    {
      ghost var start := View();
      EvictEach(keys, start);
      epoch := epoch + 1;
      EvictedState(start, View(), keys);
    }

    method SweepIdle(now: int)
      modifies this`disposed, this`closing, this`sessions, this`generations, this`epoch
      ensures View() == P.Sweep(old(View()), now)
    {
      if isShutdown { return; }
      var idle := set k | k in sessions && k !in inFlight
                          && now - P.RecordOf(sessions, records, k).lastUsedAt > config.idleTimeout;
      assert idle == P.Idle(View(), now);
      EvictAll(idle);
    }

    // ---------------------------------------------------------------- getOrCreate

    method SetPc(id: nat, pc: P.Pc)
      requires id < |calls|
      modifies this`calls
      ensures View() == P.SetPc(old(View()), id, pc)
    {
      calls := calls[id := calls[id].(pc := pc)];
    }

    /** The `finally` block. */
    method DropSymbol(id: nat)
      requires id < |calls|
      modifies this`generations
      ensures generations == P.SymbolsAfter(old(View()), calls[id])
    {
      var key := calls[id].ctx.key;
      if key !in sessions && (forall p <- creating :: creating[p].key != key)
         && key in generations && generations[key] == calls[id].symbol
      {
        generations := generations - {key};
      }
    }

    /** Settle the call and run its `finally` block. */
    method Finish(id: nat, pc: P.Pc)
      requires id < |calls|
      modifies this`calls, this`generations
      ensures View() == P.Finish(old(View()), id, pc)
    {
      DropSymbol(id);
      SetPc(id, pc);
    }

    predicate SessionClosed(c: P.Call)
      reads this
    {
      isShutdown || c.ctx.key !in generations || generations[c.ctx.key] != c.symbol
    }

    predicate ProjectPaused(project: Option<string>)
      reads this
    {
      project.Some? && project.value != "" && project.value in paused
    }

    method CreateTrackedSession(id: nat, target: Option<nat>, ctx: P.Context)
      requires id < |calls|
      modifies this`calls, this`births, this`creating
      ensures View() == P.CreateTracked(old(View()), id, target, ctx)
    {
      if ProjectPaused(ctx.project) {
        SetPc(id, P.CreateFailed);
        return;
      }
      var pending := |births|;
      births := births + [P.Birth(id, runtimeRevision, projectRevisions)];
      creating := creating[pending := ctx];
      SetPc(id, P.Creating(target, pending));
    }

    method ReturnCached(id: nat, r: nat, now: int)
      requires id < |calls| && r < |records|
      modifies this`records, this`calls, this`generations
      ensures View() == P.ReturnCached(old(View()), id, r, now)
    {
      records := records[r := records[r].(ctx := P.Merge(records[r].ctx, calls[id].ctx))];
      records := records[r := records[r].(lastUsedAt := now)];
      Finish(id, P.Returned(records[r].session));
    }

    /** Dispose of the session of one key but keep its record cached. */
    method EvictKept(key: string) returns (token: P.Token)
      modifies this`disposed, this`closing, this`epoch
      ensures View() == P.Evict(old(View()), {key}, false) && token == P.Token(old(epoch), key)
    {
      EvictJustOne(View(), key);
      EmitSessionEvict(key);
      token := closing[key];
      epoch := epoch + 1;
    }

    method EvictForCall(id: nat, r: nat)
      requires id < |calls|
      modifies this`disposed, this`closing, this`epoch, this`calls
      ensures View() == P.EvictForCall(old(View()), id, r)
    {
      var token := EvictKept(calls[id].ctx.key);
      SetPc(id, P.WaitEvict(r, token));
    }

    method Refresh(id: nat, r: nat)
      requires id < |calls| && r < |records|
      modifies this`records, this`disposed, this`closing, this`epoch, this`calls
      ensures View() == P.Refresh(old(View()), id, r)
    {
      records := records[r := records[r].(ctx := P.Merge(records[r].ctx, calls[id].ctx))];
      EvictForCall(id, r);
    }

    /** The cached branch. */
    method Reuse(id: nat, r: nat, now: int)
      requires id < |calls| && r < |records|
      modifies this
      ensures View() == P.Reuse(old(View()), id, r, now)
    {
      var activeRunId := if calls[id].ctx.key in inFlight then inFlight[calls[id].ctx.key] else "";
      if records[r].dirty && config.canRecreate && (activeRunId == "" || Some(activeRunId) == calls[id].turn) {
        Refresh(id, r);
      } else {
        ReturnCached(id, r, now);
      }
    }

    method Lookup(id: nat, now: int)
      requires id < |calls| && (forall k <- sessions :: sessions[k] < |records|)
      modifies this
      ensures View() == P.Lookup(old(View()), id, now)
    {
      if SessionClosed(calls[id]) {
        Finish(id, P.Threw);
      } else if calls[id].ctx.key in sessions {
        Reuse(id, sessions[calls[id].ctx.key], now);
      } else {
        CreateTrackedSession(id, None, calls[id].ctx);
      }
    }

    /** The locals a call captures. */
    method Capture(ctx: P.Context, turn: Option<string>, symbol: nat, pc: P.Pc) returns (c: P.Call)
      requires forall k <- sessions :: sessions[k] < |records|
      ensures c == P.Capture(View(), ctx, turn, symbol, pc)
    {
      var project := ctx.project;
      if ctx.key in sessions && records[sessions[ctx.key]].ctx.project.Some? {
        project := records[sessions[ctx.key]].ctx.project;
      }
      c := P.Call(ctx, turn, symbol, runtimeRevision, project.GetOr(""),
                  Count(projectRevisions, project.GetOr("")),
                  Count(projectGenerations, ctx.project.GetOr("")), pc);
    }

    /** Join the calls on the key: take over its symbol or make a fresh one. */
    method Join(ctx: P.Context, turn: Option<string>)
      requires forall k <- sessions :: sessions[k] < |records|
      modifies this`generations, this`nextSymbol, this`calls
      ensures View() == P.Join(old(View()), ctx, turn)
    {
      var symbol := if ctx.key in generations then generations[ctx.key] else nextSymbol;
      var c := Capture(ctx, turn, symbol, P.Starting);
      nextSymbol := nextSymbol + 1;
      generations := generations[ctx.key := symbol];
      calls := calls + [c];
    }

    method Admit(id: nat, now: int)
      requires id < |calls| && (forall k <- sessions :: sessions[k] < |records|)
      modifies this
      ensures View() == P.Admit(old(View()), id, now)
    {
      var ctx := calls[id].ctx;
      if ProjectPaused(ctx.project) {
        Finish(id, P.Threw);
      } else if ctx.key in closing {
        SetPc(id, P.WaitClosing(closing[ctx.key]));
      } else {
        Lookup(id, now);
      }
    }

    /** `getOrCreate` up to its first `await`. */
    method GetOrCreate(ctx: P.Context, turn: Option<string>, now: int)
      requires forall k <- sessions :: sessions[k] < |records|
      modifies this
      ensures View() == P.Step(old(View()), P.GetOrCreate(ctx, turn, now))
    {
      if isShutdown {
        var c := Capture(ctx, turn, nextSymbol, P.Threw);
        calls := calls + [c];
        nextSymbol := nextSymbol + 1;
        return;
      }
      SweepIdle(now);
      var id := |calls|;
      Join(ctx, turn);
      Admit(id, now);
    }

    /** ... from the end of `await closing`. */
    method ResumeClosing(id: nat, now: int)
      requires P.Enabled(View(), P.ResumeClosing(id, now)) && (forall k <- sessions :: sessions[k] < |records|)
      modifies this
      ensures View() == P.Step(old(View()), P.ResumeClosing(id, now))
    {
      if settled[calls[id].pc.token] {
        Lookup(id, now);
      } else {
        Finish(id, P.Threw);
      }
    }

    /** ... from the end of the disposal of the dirty session. */
    method ResumeEvict(id: nat)
      requires P.Enabled(View(), P.ResumeEvict(id)) && calls[id].pc.rec < |records|
      modifies this
      ensures View() == P.Step(old(View()), P.ResumeEvict(id))
    {
      var c := calls[id];
      if !settled[c.pc.token] || SessionClosed(c) {
        Finish(id, P.Threw);
      } else {
        CreateTrackedSession(id, Some(c.pc.rec), records[c.pc.rec].ctx);
      }
    }

    method Reject(id: nat)
      requires id < |calls| && calls[id].pc.Creating?
      modifies this`creating, this`calls
      ensures View() == P.Reject(old(View()), id)
    {
      creating := creating - {calls[id].pc.session};
      SetPc(id, P.CreateFailed);
    }

    method DeliverPaused(id: nat)
      requires id < |calls| && calls[id].pc.Creating?
      modifies this`fulfilled, this`disposed, this`calls
      ensures View() == P.DeliverPaused(old(View()), id)
    {
      var session := calls[id].pc.session;
      fulfilled := fulfilled + {session};
      disposed := disposed + {session};
      SetPc(id, P.DisposingPaused(session));
    }

    method Deliver(id: nat)
      requires id < |calls| && calls[id].pc.Creating?
      modifies this`fulfilled, this`creating, this`calls
      ensures View() == P.Deliver(old(View()), id)
    {
      var session := calls[id].pc.session;
      fulfilled := fulfilled + {session};
      creating := creating - {session};
      SetPc(id, P.Created(calls[id].pc.target, session));
    }

    /** `createTrackedSession` from the end of `await pending`. */
    method FactoryDone(id: nat, ok: bool)
      requires P.Enabled(View(), P.FactoryDone(id, ok))
      modifies this
      ensures View() == P.Step(old(View()), P.FactoryDone(id, ok))
    {
      var session := calls[id].pc.session;
      if !ok {
        Reject(id);
      } else if session in creating && ProjectPaused(creating[session].project) {
        DeliverPaused(id);
      } else {
        Deliver(id);
      }
    }

    method ResumePausedDispose(id: nat)
      requires P.Enabled(View(), P.ResumePausedDispose(id))
      modifies this
      ensures View() == P.Step(old(View()), P.ResumePausedDispose(id))
    {
      creating := creating - {calls[id].pc.session};
      SetPc(id, P.CreateFailed);
    }

    method ResumeFailed(id: nat)
      requires P.Enabled(View(), P.ResumeFailed(id))
      modifies this
      ensures View() == P.Step(old(View()), P.ResumeFailed(id))
    {
      Finish(id, P.Threw);
    }

    /** Whether the runtime was reloaded since the call captured its revisions. */
    predicate RuntimeChanged(c: P.Call)
      reads this
    {
      c.runtimeRevision != runtimeRevision || c.projectRevision != Count(projectRevisions, c.revisionKey)
    }

    method InstallInto(id: nat, r: nat, session: nat, now: int)
      requires id < |calls| && r < |records|
      modifies this`records, this`calls, this`generations
      ensures View() == P.InstallInto(old(View()), id, r, session, now)
    {
      records := records[r := records[r].(session := session, dirty := RuntimeChanged(calls[id]))];
      records := records[r := records[r].(lastUsedAt := now)];
      Finish(id, P.Returned(session));
    }

    method InstallNew(id: nat, session: nat, now: int)
      requires id < |calls|
      modifies this`records, this`sessions, this`calls, this`generations
      ensures View() == P.InstallNew(old(View()), id, session, now)
    {
      var c := calls[id];
      sessions := sessions[c.ctx.key := |records|];
      records := records + [P.Record(session, now, c.ctx, RuntimeChanged(c))];
      Finish(id, P.Returned(session));
    }

    /** `getOrCreate` from the end of `await this.createTrackedSession(...)`. */
    method ResumeCreated(id: nat, now: int)
      requires P.Enabled(View(), P.ResumeCreated(id, now))
      requires calls[id].pc.target.Some? ==> calls[id].pc.target.value < |records|
      modifies this
      ensures View() == P.Step(old(View()), P.ResumeCreated(id, now))
    {
      var c := calls[id];
      var session := c.pc.session;
      if SessionClosed(c) || c.projectGeneration != Count(projectGenerations, c.ctx.project.GetOr("")) {
        disposed := disposed + {session};
        SetPc(id, P.DisposingLate(session));
      } else if c.pc.target.Some? {
        InstallInto(id, c.pc.target.value, session, now);
      } else {
        InstallNew(id, session, now);
      }
    }

    method ResumeLateDispose(id: nat)
      requires P.Enabled(View(), P.ResumeLateDispose(id))
      modifies this
      ensures View() == P.Step(old(View()), P.ResumeLateDispose(id))
    {
      Finish(id, P.Threw);
    }

    // ---------------------------------------------------------------- closing

    method CloseEach(keys: set<string>)
      modifies this`generations, this`disposed, this`closing, this`sessions, this`epoch
      ensures View() == P.CloseKeys(old(View()), keys)
    {
      generations := generations - keys;
      EvictAll(keys * sessions.Keys);
    }

    method Close(key: string)
      modifies this
      ensures View() == P.Step(old(View()), P.Close(key))
    {
      CloseEach({key});
    }

    method CachedOf(project: string) returns (keys: set<string>)
      ensures keys == P.CachedOf(View(), project)
    {
      keys := set k | k in sessions && P.RecordOf(sessions, records, k).ctx.project == Some(project);
    }

    method Pause(project: string)
      modifies this`paused, this`projectGenerations, this`draining
      ensures View() == P.Pause(old(View()), project)
    {
      var pending := set p | p in creating && creating[p].project == Some(project);
      paused := paused + {project};
      projectGenerations := projectGenerations[project := Count(projectGenerations, project) + 1];
      draining := draining + pending;
    }

    method CloseProject(project: string) returns (keys: set<string>)
      modifies this
      ensures View() == P.Step(old(View()), P.CloseProject(project))
      ensures keys == P.CachedOf(old(View()), project)
    {
      keys := CachedOf(project);
      Pause(project);
      CloseEach(keys);
    }

    method ResumeProject(project: string)
      modifies this`paused
      ensures View() == P.Step(old(View()), P.ResumeProject(project))
    {
      paused := paused - {project};
    }

    /** `closeProject` disposing of a session that was still being created. */
    method DrainDispose(session: nat)
      requires P.Enabled(View(), P.DrainDispose(session))
      modifies this`disposed
      ensures View() == P.Step(old(View()), P.DrainDispose(session))
    {
      disposed := disposed + {session};
    }

    method DropEverything()
      modifies this
      ensures View() == P.ShutDown(old(View()))
    {
      EvictAll(sessions.Keys);
      isShutdown := true;
      generations := map[];
      inFlight := map[];
    }

    method Shutdown()
      modifies this
      ensures View() == P.Step(old(View()), P.Shutdown)
    {
      if isShutdown { return; }
      DropEverything();
    }

    /** The `finally` handler of a disposal promise. */
    method Settle(token: P.Token, ok: bool)
      requires P.Enabled(View(), P.Settle(token, ok))
      modifies this`settled, this`closing
      ensures View() == P.Step(old(View()), P.Settle(token, ok))
    {
      settled := settled[token := ok];
      if token.key in closing && closing[token.key] == token {
        closing := closing - {token.key};
      }
    }

    // ---------------------------------------------------------------- turns

    method BeginTurn(key: string, run: string, now: int) returns (started: bool)
      modifies this
      ensures View() == P.Step(old(View()), P.BeginTurn(key, run, now))
      ensures started == (!old(isShutdown) && key !in old(inFlight))
    {
      if isShutdown { return false; }
      SweepIdle(now);
      if key in inFlight { return false; }
      inFlight := inFlight[key := run];
      return true;
    }

    /** `record.lastUsedAt = this.nowMs()` */
    method UseRecord(key: string, now: int)
      requires key in sessions ==> sessions[key] < |records|
      modifies this`records
      ensures View() == P.UseRecord(old(View()), key, now)
    {
      if key in sessions {
        records := records[sessions[key] := records[sessions[key]].(lastUsedAt := now)];
      }
    }

    /** `abort`, `steer` and `cancelSteer`, as far as the cache goes. */
    method Touch(key: string, now: int)
      requires key in sessions ==> sessions[key] < |records|
      modifies this`records
      ensures View() == P.Step(old(View()), P.Touch(key, now))
    {
      UseRecord(key, now);
    }

    method FreeSlot(key: string, run: Option<string>)
      modifies this`inFlight
      ensures View() == P.FreeSlot(old(View()), key, run)
    {
      if run.GetOr("") == "" || (key in inFlight && inFlight[key] == run.value) {
        inFlight := inFlight - {key};
      }
    }

    method EndTurn(key: string, run: Option<string>, now: int)
      requires key in sessions ==> sessions[key] < |records|
      modifies this`records, this`inFlight
      ensures View() == P.Step(old(View()), P.EndTurn(key, run, now))
    {
      FreeSlot(key, run);
      UseRecord(key, now);
    }

    // ---------------------------------------------------------------- reloads

    /** The loop of `markAllDirty` and `markProjectDirty` over the cached records. */
    method MarkDirty(keys: set<string>) returns (count: nat)
      requires keys <= sessions.Keys && (forall k <- sessions :: sessions[k] < |records|)
      modifies this`records
      ensures View() == P.Dirty(old(View()), keys)
      ensures count == |keys|
    {
      count := MarkEach(keys, View());
    }

    method MarkEach(keys: set<string>, ghost start: P.State) returns (count: nat)
      requires start.records == records && start.sessions == sessions
      requires keys <= sessions.Keys && (forall k <- sessions :: sessions[k] < |records|)
      modifies this`records
      ensures records == P.Dirty(start, keys).records
      ensures count == |keys|
    {
      count := 0;
      var todo := keys;
      DirtyNone(start);
      assert keys - keys == {};
      while todo != {}
        invariant todo <= keys && count + |todo| == |keys|
        invariant records == P.Dirty(start, keys - todo).records
        decreases todo
      {
        var key :| key in todo;
        assert keys - (todo - {key}) == keys - todo + {key};
        MarkOne(key, start, keys - todo);
        count := count + 1;
        todo := todo - {key};
      }
    }

    /** Mark the record of one more key. */
    method MarkOne(key: string, ghost start: P.State, ghost marked: set<string>)
      requires start.sessions == sessions && records == P.Dirty(start, marked).records
      requires key in sessions && sessions[key] < |start.records|
      modifies this`records
      ensures records == P.Dirty(start, marked + {key}).records
    {
      DirtyOneMore(start, marked, key);
      records := records[sessions[key] := records[sessions[key]].(dirty := true)];
    }

    method BumpRuntime()
      modifies this`runtimeRevision
      ensures View() == old(View()).(runtimeRevision := old(View()).runtimeRevision + 1)
    {
      runtimeRevision := runtimeRevision + 1;
    }

    method BumpProject(project: string)
      modifies this`projectRevisions
      ensures View() == old(View()).(projectRevisions := old(View()).projectRevisions[project := Count(old(View()).projectRevisions, project) + 1])
    {
      projectRevisions := projectRevisions[project := Count(projectRevisions, project) + 1];
    }

    method MarkAllDirty() returns (count: nat)
      requires forall k <- sessions :: sessions[k] < |records|
      modifies this`runtimeRevision, this`records
      ensures View() == P.Step(old(View()), P.MarkAllDirty)
      ensures count == |sessions|
    {
      BumpRuntime();
      count := MarkDirty(sessions.Keys);
    }

    method MarkProjectDirty(project: string) returns (count: nat)
      requires forall k <- sessions :: sessions[k] < |records|
      modifies this`projectRevisions, this`records
      ensures View() == P.Step(old(View()), P.MarkProjectDirty(project))
      ensures count == |P.CachedOf(old(View()), project)|
    {
      var keys := CachedOf(project);
      BumpProject(project);
      count := MarkDirty(keys);
    }
  }

  lemma EvictedState(s: P.State, t: P.State, keys: set<string>)
    requires t == s.(sessions := t.sessions, generations := t.generations, closing := t.closing, disposed := t.disposed,
                     epoch := s.epoch + 1)
    requires t.sessions == s.sessions - keys && t.generations == s.generations - keys
    requires t.closing == P.ClosingAfter(s, keys) && t.disposed == P.DisposedAfter(s, keys)
    ensures t == P.Evict(s, keys, true)
  {
  }

  lemma EvictNone(s: P.State)
    ensures P.ClosingAfter(s, {}) == s.closing && P.DisposedAfter(s, {}) == s.disposed
  {
  }

  lemma EvictJustOne(s: P.State, key: string)
    ensures P.ClosingAfter(s, {key}) == s.closing[key := P.Token(s.epoch, key)]
    ensures P.DisposedAfter(s, {key}) == s.disposed + {P.Cached(s, key).session}
  {
  }

  lemma EvictOneMore(s: P.State, gone: set<string>, key: string)
    ensures P.ClosingAfter(s, gone + {key}) == P.ClosingAfter(s, gone)[key := P.Token(s.epoch, key)]
    ensures P.DisposedAfter(s, gone + {key}) == P.DisposedAfter(s, gone) + {P.Cached(s, key).session}
  {
  }

  lemma DirtyNone(s: P.State)
    ensures P.Dirty(s, {}).records == s.records
  {
  }

  lemma DirtyOneMore(s: P.State, marked: set<string>, key: string)
    requires key in s.sessions && s.sessions[key] < |s.records|
    ensures |P.Dirty(s, marked).records| == |s.records|
    ensures P.Dirty(s, marked + {key}).records
         == P.Dirty(s, marked).records[s.sessions[key] := P.Dirty(s, marked).records[s.sessions[key]].(dirty := true)]
  {
  }

  /** What the methods require of the object holds in every reachable state. */
  lemma MethodsAreCallable(config: P.Config, events: seq<P.Event>)
    ensures var s := Steps.Run(P.Init(config), events);
            && (forall k <- s.sessions :: s.sessions[k] < |s.records|)
            && (forall i | 0 <= i < |s.calls| && s.calls[i].pc.WaitEvict? :: s.calls[i].pc.rec < |s.records|)
            && (forall i | 0 <= i < |s.calls| && s.calls[i].pc.Created? ::
                  s.calls[i].pc.target.Some? ==> s.calls[i].pc.target.value < |s.records|)
  {
    Steps.InitHolds(config);
    Steps.RunKeeps(P.Init(config), events);
    var s := Steps.Run(P.Init(config), events);
    forall k | k in s.sessions ensures s.sessions[k] < |s.records| { assert I.CacheInv(s, k); }
    forall i | 0 <= i < |s.calls| && s.calls[i].pc.WaitEvict? ensures s.calls[i].pc.rec < |s.records| { assert I.CallInv(s, i); }
    forall i | 0 <= i < |s.calls| && s.calls[i].pc.Created?
      ensures s.calls[i].pc.target.Some? ==> s.calls[i].pc.target.value < |s.records|
    {
      assert I.CallInv(s, i);
    }
  }
}
