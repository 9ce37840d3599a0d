/**
 The session cache of `src/gateway/SessionRouter.ts` as a state machine.

 Every async method is cut at its `await` points.  A running `getOrCreate` is a
 `Call` that carries the locals it captured and a program counter; any event may
 interleave with any other.  Sessions are numbered in the order in which their
 factory calls begin, so a session and the promise that produces it share a number.
 */
module SessionProtocol {
  import opened Prelude

  datatype Context = Context(key: string, project: Option<string>)

  /** One disposal promise: each step disposes of at most one session per key. */
  datatype Token = Token(epoch: nat, key: string)

  datatype Record = Record(session: nat, lastUsedAt: int, ctx: Context, dirty: bool)

  datatype Pc =
    | Starting
    | WaitClosing(token: Token)                      // await closing
    | WaitEvict(rec: nat, token: Token)              // await emitSessionEvict(..., "dirty_recreate")
    | Creating(target: Option<nat>, session: nat)    // await pending, inside createTrackedSession
    | DisposingPaused(session: nat)                  // await session.dispose(), inside createTrackedSession
    | CreateFailed                                   // createTrackedSession rejected, caller not yet resumed
    | Created(target: Option<nat>, session: nat)     // createTrackedSession resolved, caller not yet resumed
    | DisposingLate(session: nat)                    // await dispose() of a session that came too late
    | Returned(session: nat)
    | Threw

  datatype Call = Call(
    ctx: Context, turn: Option<string>, symbol: nat,
    runtimeRevision: nat, revisionKey: string, projectRevision: nat, projectGeneration: nat,
    pc: Pc)

  /** What was current when a factory call began. */
  datatype Birth = Birth(owner: nat, runtimeRevision: nat, projectRevisions: map<string, nat>)

  datatype Config = Config(canRecreate: bool, idleTimeout: int)

  datatype State = State(
    config: Config,
    sessions: map<string, nat>,          // key -> index into records
    records: seq<Record>,                // every record ever cached; calls keep references to them
    closing: map<string, Token>,
    settled: map<Token, bool>,           // true: disposal fulfilled, false: it rejected
    generations: map<string, nat>,       // the per-key symbols
    projectGenerations: map<string, nat>,
    projectRevisions: map<string, nat>,
    paused: set<string>,
    creating: map<nat, Context>,
    draining: set<nat>,                  // creations that closeProject will dispose of
    inFlight: map<string, string>,
    isShutdown: bool,
    runtimeRevision: nat,
    calls: seq<Call>,
    births: seq<Birth>,
    fulfilled: set<nat>,                 // sessions whose factory has produced them
    disposed: set<nat>,                  // sessions whose dispose() the router has called
    epoch: nat,
    nextSymbol: nat)

  datatype Event =
    | GetOrCreate(ctx: Context, turn: Option<string>, now: int)
    | ResumeClosing(id: nat, now: int)
    | ResumeEvict(id: nat)
    | FactoryDone(id: nat, ok: bool)
    | ResumePausedDispose(id: nat)
    | ResumeFailed(id: nat)
    | ResumeCreated(id: nat, now: int)
    | ResumeLateDispose(id: nat)
    | Close(key: string)
    | CloseProject(project: string)
    | ResumeProject(project: string)
    | DrainDispose(session: nat)
    | BeginTurn(key: string, run: string, now: int)
    | EndTurn(key: string, endedRun: Option<string>, now: int)
    | Touch(key: string, now: int)
    | MarkAllDirty
    | MarkProjectDirty(project: string)
    | SweepIdle(now: int)
    | Shutdown
    | Settle(token: Token, ok: bool)

  function Init(config: Config): State {
    State(config, map[], [], map[], map[], map[], map[], map[], {}, map[], {}, map[], false, 0,
          [], [], {}, {}, 0, 0)
  }

  /** Record `r`; the default is never met, as the invariant keeps every reference in range. */
  function Rec(s: State, r: nat): Record {
    if r < |s.records| then s.records[r] else Record(0, 0, Context("", None), true)
  }

  function RecordOf(sessions: map<string, nat>, records: seq<Record>, key: string): Record {
    if key in sessions && sessions[key] < |records| then records[sessions[key]]
    else Record(0, 0, Context("", None), true)
  }

  function Cached(s: State, key: string): Record { RecordOf(s.sessions, s.records, key) }

  // ---------------------------------------------------------------- local tests

  /** `sessionClosed()` */
  predicate Closed(s: State, c: Call) {
    s.isShutdown || c.ctx.key !in s.generations || s.generations[c.ctx.key] != c.symbol
  }

  /** `generation !== this.projectGenerations.get(context.projectKey ?? "")` */
  predicate ProjectClosed(s: State, c: Call) {
    Count(s.projectGenerations, c.ctx.project.GetOr("")) != c.projectGeneration
  }

  /** `runtimeChanged()` */
  predicate RuntimeChanged(s: State, c: Call) {
    c.runtimeRevision != s.runtimeRevision || c.projectRevision != Count(s.projectRevisions, c.revisionKey)
  }

  /** `projectKey && this.pausedProjects.has(projectKey)`: the empty key is falsy. */
  predicate IsPaused(s: State, project: Option<string>) {
    project.Some? && project.value != "" && project.value in s.paused
  }

  /** `mergeSessionContext` */
  function Merge(current: Context, next: Context): Context {
    Context(next.key, if current.project.Some? then current.project else next.project)
  }

  predicate Finished(pc: Pc) { pc.Returned? || pc.Threw? }

  predicate CachedAt(s: State, key: string, rec: nat) {
    key in s.sessions && s.sessions[key] == rec
  }

  // ---------------------------------------------------------------- step helpers

  ghost function ClosingAfter(s: State, keys: set<string>): map<string, Token> {
    map k | k in s.closing.Keys + keys :: if k in keys then Token(s.epoch, k) else s.closing[k]
  }

  ghost function DisposedAfter(s: State, keys: set<string>): set<nat> {
    s.disposed + (set k | k in keys :: Cached(s, k).session)
  }

  /** `emitSessionEvict` for every key in `keys`; `remove` also drops the cache entry and its symbol. */
  ghost function Evict(s: State, keys: set<string>, remove: bool): State {
    s.(sessions := if remove then s.sessions - keys else s.sessions,
       generations := if remove then s.generations - keys else s.generations,
       closing := ClosingAfter(s, keys), disposed := DisposedAfter(s, keys), epoch := s.epoch + 1)
  }

  ghost function Idle(s: State, now: int): set<string>
  {
    set k | k in s.sessions && k !in s.inFlight
            && now - Cached(s, k).lastUsedAt > s.config.idleTimeout
  }

  ghost function Sweep(s: State, now: int): State
  {
    if s.isShutdown then s else Evict(s, Idle(s, now), true)
  }

  function SetPc(s: State, id: nat, pc: Pc): State
    requires id < |s.calls|
  {
    s.(calls := s.calls[id := s.calls[id].(pc := pc)])
  }

  /** The `finally` block: drop the call's symbol when nothing cached or pending needs it. */
  function SymbolsAfter(s: State, c: Call): (kept: map<string, nat>)
    ensures forall k <- kept :: k in s.generations && kept[k] == s.generations[k]
  {
    if c.ctx.key !in s.sessions
       && (forall p <- s.creating :: s.creating[p].key != c.ctx.key)
       && c.ctx.key in s.generations && s.generations[c.ctx.key] == c.symbol
    then s.generations - {c.ctx.key}
    else s.generations
  }

  /** Settle the call and run its `finally` block. */
  function Finish(s: State, id: nat, pc: Pc): State
    requires id < |s.calls|
  {
    SetPc(s.(generations := SymbolsAfter(s, s.calls[id])), id, pc)
  }

  function StartFactory(s: State, id: nat, target: Option<nat>, ctx: Context): State
    requires id < |s.calls|
  {
    var p := |s.births|;
    SetPc(s.(births := s.births + [Birth(id, s.runtimeRevision, s.projectRevisions)], creating := s.creating[p := ctx]),
          id, Creating(target, p))
  }

  /** `createTrackedSession` up to its first `await`. */
  function CreateTracked(s: State, id: nat, target: Option<nat>, ctx: Context): State
    requires id < |s.calls|
  {
    if IsPaused(s, ctx.project) then SetPc(s, id, CreateFailed) else StartFactory(s, id, target, ctx)
  }

  function Put(records: seq<Record>, r: nat, rec: Record): (written: seq<Record>)
    ensures |written| == |records|
    ensures forall q | 0 <= q < |records| :: written[q] == if q == r then rec else records[q]
  {
    if r < |records| then records[r := rec] else records
  }

  function Rewrite(s: State, r: nat, rec: Record): State {
    s.(records := Put(s.records, r, rec))
  }

  /** `getOrCreate` from the point where no disposal of the key is pending any more. */
  ghost function Lookup(s: State, id: nat, now: int): State
    requires id < |s.calls|
  {
    var c := s.calls[id];
    if Closed(s, c) then Finish(s, id, Threw)
    else if c.ctx.key in s.sessions then Reuse(s, id, s.sessions[c.ctx.key], now)
    else CreateTracked(s, id, None, c.ctx)
  }

  /** The cached record once `mergeSessionContext` has been applied to it. */
  function Merged(s: State, r: nat, c: Call): Record {
    Rec(s, r).(ctx := Merge(Rec(s, r).ctx, c.ctx))
  }

  function ReturnCached(s: State, id: nat, r: nat, now: int): State
    requires id < |s.calls|
  {
    Finish(Rewrite(s, r, Merged(s, r, s.calls[id]).(lastUsedAt := now)), id, Returned(Rec(s, r).session))
  }

  function MergeContext(s: State, id: nat, r: nat): State
    requires id < |s.calls|
  {
    Rewrite(s, r, Merged(s, r, s.calls[id]))
  }

  ghost function Refresh(s: State, id: nat, r: nat): State
    requires id < |s.calls|
  {
    EvictForCall(MergeContext(s, id, r), id, r)
  }

  /** The cached branch: refresh a dirty session, or return the cached one. */
  ghost function Reuse(s: State, id: nat, r: nat, now: int): State
    requires id < |s.calls|
  {
    if Rec(s, r).dirty && s.config.canRecreate && MayRecreate(s, s.calls[id])
    then Refresh(s, id, r)
    else ReturnCached(s, id, r, now)
  }

  /** Dispose of the dirty session and wait for that before recreating it. */
  ghost function EvictForCall(s: State, id: nat, r: nat): State
    requires id < |s.calls|
  {
    var key := s.calls[id].ctx.key;
    SetPc(Evict(s, {key}, false), id, WaitEvict(r, Token(s.epoch, key)))
  }

  /** Only the turn that reserved the slot may refresh a session under a live turn. */
  predicate MayRecreate(s: State, c: Call) {
    c.ctx.key !in s.inFlight || s.inFlight[c.ctx.key] == "" || Some(s.inFlight[c.ctx.key]) == c.turn
  }

  /** The locals `getOrCreate` captures before it can suspend. */
  function Capture(s: State, ctx: Context, turn: Option<string>, symbol: nat, pc: Pc): (c: Call)
  {
    var cached := if ctx.key in s.sessions then Cached(s, ctx.key).ctx.project else None;
    var revisionKey := (if cached.Some? then cached else ctx.project).GetOr("");
    Call(ctx, turn, symbol, s.runtimeRevision, revisionKey, Count(s.projectRevisions, revisionKey),
         Count(s.projectGenerations, ctx.project.GetOr("")), pc)
  }

  /** A new call captures its locals; it keeps the key's symbol or makes a fresh one. */
  ghost function Join(s: State, ctx: Context, turn: Option<string>): State
  {
    var symbol := if ctx.key in s.generations then s.generations[ctx.key] else s.nextSymbol;
    s.(generations := s.generations[ctx.key := symbol], nextSymbol := s.nextSymbol + 1,
       calls := s.calls + [Capture(s, ctx, turn, symbol, Starting)])
  }

  /** The first checks of `getOrCreate`, up to its first `await`. */
  ghost function Admit(s: State, id: nat, now: int): State
    requires id < |s.calls|
  {
    var ctx := s.calls[id].ctx;
    if IsPaused(s, ctx.project) then Finish(s, id, Threw)
    else if ctx.key in s.closing then SetPc(s, id, WaitClosing(s.closing[ctx.key]))
    else Lookup(s, id, now)
  }

  ghost function Begin(s: State, ctx: Context, turn: Option<string>, now: int): State
  {
    if s.isShutdown
    then s.(calls := s.calls + [Capture(s, ctx, turn, s.nextSymbol, Threw)], nextSymbol := s.nextSymbol + 1)
    else Admit(Join(Sweep(s, now), ctx, turn), |s.calls|, now)
  }

  function AddRecord(s: State, key: string, rec: Record): State {
    s.(records := s.records + [rec], sessions := s.sessions[key := |s.records|])
  }

  /** The session came too late: dispose of it before throwing. */
  function DisposeLate(s: State, id: nat, p: nat): State
    requires id < |s.calls|
  {
    SetPc(s.(disposed := s.disposed + {p}), id, DisposingLate(p))
  }

  function InstallInto(s: State, id: nat, r: nat, p: nat, now: int): State
    requires id < |s.calls|
  {
    var rec := Rec(s, r).(session := p, dirty := RuntimeChanged(s, s.calls[id]), lastUsedAt := now);
    Finish(Rewrite(s, r, rec), id, Returned(p))
  }

  function InstallNew(s: State, id: nat, p: nat, now: int): State
    requires id < |s.calls|
  {
    var c := s.calls[id];
    Finish(AddRecord(s, c.ctx.key, Record(p, now, c.ctx, RuntimeChanged(s, c))), id, Returned(p))
  }

  /** `getOrCreate` after `createTrackedSession` has delivered session `p`. */
  function Install(s: State, id: nat, target: Option<nat>, p: nat, now: int): State
    requires id < |s.calls|
  {
    if Closed(s, s.calls[id]) || ProjectClosed(s, s.calls[id]) then DisposeLate(s, id, p)
    else if target.Some? then InstallInto(s, id, target.value, p, now)
    else InstallNew(s, id, p, now)
  }

  ghost function CachedOf(s: State, project: string): set<string>
  {
    set k | k in s.sessions && Cached(s, k).ctx.project == Some(project)
  }

  /** `close(key)` up to its `await`. */
  ghost function CloseKeys(s: State, keys: set<string>): State
  {
    Evict(s.(generations := s.generations - keys), keys * s.sessions.Keys, true)
  }

  /** The bookkeeping of `closeProject`, before it closes the project's cached sessions. */
  ghost function Pause(s: State, project: string): State {
    s.(paused := s.paused + {project},
       projectGenerations := s.projectGenerations[project := Count(s.projectGenerations, project) + 1],
       draining := s.draining + (set p | p in s.creating && s.creating[p].project == Some(project)))
  }

  /** Mark the records cached under `keys` dirty. */
  ghost function Dirty(s: State, keys: set<string>): State {
    var hit := set k | k in keys && k in s.sessions :: s.sessions[k];
    s.(records := seq(|s.records|, r requires 0 <= r < |s.records| =>
                    if r in hit then s.records[r].(dirty := true) else s.records[r]))
  }

  /** The records once the one cached under `key`, if any, has been used. */
  function Used(s: State, key: string, now: int): seq<Record> {
    if key in s.sessions then Put(s.records, s.sessions[key], Cached(s, key).(lastUsedAt := now)) else s.records
  }

  function UseRecord(s: State, key: string, now: int): State {
    s.(records := Used(s, key, now))
  }

  function TakeSlot(s: State, key: string, run: string): State {
    s.(inFlight := if key in s.inFlight then s.inFlight else s.inFlight[key := run])
  }

  /** An absent or empty run id frees the slot whoever holds it. */
  predicate Frees(s: State, key: string, run: Option<string>) {
    run.None? || run.value == "" || (key in s.inFlight && s.inFlight[key] == run.value)
  }

  function FreeSlot(s: State, key: string, run: Option<string>): State {
    s.(inFlight := if Frees(s, key, run) then s.inFlight - {key} else s.inFlight)
  }

  ghost function ShutDown(s: State): State {
    Evict(s, s.sessions.Keys, true).(isShutdown := true, generations := map[], inFlight := map[])
  }

  ghost predicate Enabled(s: State, e: Event) {
    match e
    case ResumeClosing(id, _) => id < |s.calls| && s.calls[id].pc.WaitClosing? && s.calls[id].pc.token in s.settled
    case ResumeEvict(id) => id < |s.calls| && s.calls[id].pc.WaitEvict? && s.calls[id].pc.token in s.settled
    case FactoryDone(id, _) => id < |s.calls| && s.calls[id].pc.Creating?
    case ResumePausedDispose(id) => id < |s.calls| && s.calls[id].pc.DisposingPaused?
    case ResumeFailed(id) => id < |s.calls| && s.calls[id].pc.CreateFailed?
    case ResumeCreated(id, _) => id < |s.calls| && s.calls[id].pc.Created?
    case ResumeLateDispose(id) => id < |s.calls| && s.calls[id].pc.DisposingLate?
    case DrainDispose(p) => p in s.draining && p in s.fulfilled
    case Settle(token, _) => token !in s.settled && token.epoch < s.epoch
    case _ => true
  }

  /** One atomic step; an event that is not enabled changes nothing. */
  ghost function Step(s: State, e: Event): State
  {
    if !Enabled(s, e) then s else
    match e
    case GetOrCreate(ctx, turn, now) => Begin(s, ctx, turn, now)
    case ResumeClosing(id, now) =>
      if s.settled[s.calls[id].pc.token] then Lookup(s, id, now) else Finish(s, id, Threw)
    case ResumeEvict(id) =>
      var c := s.calls[id];
      if !s.settled[c.pc.token] || Closed(s, c) then Finish(s, id, Threw)
      else CreateTracked(s, id, Some(c.pc.rec), Rec(s, c.pc.rec).ctx)
    case FactoryDone(id, ok) => FactoryStep(s, id, ok)
    case ResumePausedDispose(id) =>
      SetPc(DropTracked(s, s.calls[id].pc.session), id, CreateFailed)
    case ResumeFailed(id) => Finish(s, id, Threw)
    case ResumeCreated(id, now) => Install(s, id, s.calls[id].pc.target, s.calls[id].pc.session, now)
    case ResumeLateDispose(id) => Finish(s, id, Threw)
    case Close(key) => CloseKeys(s, {key})
    case CloseProject(project) => CloseKeys(Pause(s, project), CachedOf(s, project))
    case ResumeProject(project) => s.(paused := s.paused - {project})
    case DrainDispose(p) => s.(disposed := s.disposed + {p})
    case BeginTurn(key, run, now) =>
      if s.isShutdown then s else TakeSlot(Sweep(s, now), key, run)
    case EndTurn(key, run, now) =>
      UseRecord(FreeSlot(s, key, run), key, now)
    case Touch(key, now) => UseRecord(s, key, now)
    case MarkAllDirty => Dirty(s.(runtimeRevision := s.runtimeRevision + 1), s.sessions.Keys)
    case MarkProjectDirty(project) =>
      Dirty(s.(projectRevisions := s.projectRevisions[project := Count(s.projectRevisions, project) + 1]),
            CachedOf(s, project))
    case SweepIdle(now) => Sweep(s, now)
    case Shutdown =>
      if s.isShutdown then s else ShutDown(s)
    case Settle(token, ok) =>
      s.(settled := s.settled[token := ok],
         closing := if token.key in s.closing && s.closing[token.key] == token
                    then s.closing - {token.key} else s.closing)
  }

  function DropTracked(s: State, p: nat): State { s.(creating := s.creating - {p}) }

  /** The factory rejects. */
  function Reject(s: State, id: nat): State
    requires id < |s.calls| && s.calls[id].pc.Creating?
  {
    SetPc(DropTracked(s, s.calls[id].pc.session), id, CreateFailed)
  }

  /** The factory delivers while the project is paused: the session is disposed of at once. */
  function DeliverPaused(s: State, id: nat): State
    requires id < |s.calls| && s.calls[id].pc.Creating?
  {
    var p := s.calls[id].pc.session;
    SetPc(s.(fulfilled := s.fulfilled + {p}, disposed := s.disposed + {p}), id, DisposingPaused(p))
  }

  function Deliver(s: State, id: nat): State
    requires id < |s.calls| && s.calls[id].pc.Creating?
  {
    var p := s.calls[id].pc.session;
    SetPc(DropTracked(s.(fulfilled := s.fulfilled + {p}), p), id, Created(s.calls[id].pc.target, p))
  }

  /** The factory promise settles and `createTrackedSession` runs on to its next `await` or its end. */
  function FactoryStep(s: State, id: nat, ok: bool): State
    requires id < |s.calls| && s.calls[id].pc.Creating?
  {
    var p := s.calls[id].pc.session;
    if !ok then Reject(s, id)
    else if p in s.creating && IsPaused(s, s.creating[p].project) then DeliverPaused(s, id)
    else Deliver(s, id)
  }
}
