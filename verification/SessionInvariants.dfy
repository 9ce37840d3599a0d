/**
 What every step of the session cache keeps.  The invariant is four families of
 facts, one per call, per session, per record and per cached key.
 */
module SessionInvariants {
  import opened Prelude
  import opened SessionProtocol

  /** This creation will be rejected, or what it would overwrite is no longer cached. */
  ghost predicate Doomed(s: State, c: Call, target: Option<nat>) {
    Closed(s, c) || ProjectClosed(s, c) || (target.Some? && !CachedAt(s, c.ctx.key, target.value))
  }

  ghost predicate TargetOk(s: State, c: Call, target: Option<nat>) {
    var ok := target.Some? ==> target.value < |s.records| && s.records[target.value].ctx.key == c.ctx.key;
    ok
  }

  /** The context under which a pending creation is tracked. */
  ghost predicate PendingOk(s: State, c: Call, target: Option<nat>, p: nat) {
    && p in s.creating
    && s.creating[p].key == c.ctx.key
    && (match target
        case None => s.creating[p] == c.ctx
        case Some(r) => s.creating[p].project.Some? ==> Rec(s, r).ctx.project == s.creating[p].project)
  }

  ghost predicate Owns(s: State, i: nat, p: nat) {
    p < |s.births| && s.births[p].owner == i
  }

  /** The session was created by a call for the key. */
  ghost predicate OfKey(s: State, p: nat, key: string) {
    var created := p < |s.births| && s.births[p].owner < |s.calls| && s.calls[s.births[p].owner].ctx.key == key;
    created
  }

  ghost predicate PcInv(s: State, i: nat, c: Call) {
    match c.pc
    case WaitEvict(r, _) => TargetOk(s, c, Some(r))
    case Creating(target, p) =>
      Owns(s, i, p) && TargetOk(s, c, target) && PendingOk(s, c, target, p)
      && (p in s.draining ==> Doomed(s, c, target))
    case Created(target, p) =>
      Owns(s, i, p) && TargetOk(s, c, target)
      && (p in s.draining ==> Doomed(s, c, target)) && (p in s.disposed ==> p in s.draining)
    case DisposingPaused(p) => Owns(s, i, p)
    case DisposingLate(p) => Owns(s, i, p)
    case Returned(p) => OfKey(s, p, c.ctx.key)
    case _ => true
  }

  ghost predicate CallInv(s: State, i: nat)
    requires i < |s.calls|
  {
    var c := s.calls[i];
    var sound :=
      && c.symbol < s.nextSymbol
      && c.runtimeRevision <= s.runtimeRevision
      && c.projectGeneration <= Count(s.projectGenerations, c.ctx.project.GetOr(""))
      // A call on a paused project that is past its first check is already rejected.
      && (!Finished(c.pc) && IsPaused(s, c.ctx.project) ==> c.pc.Starting? || ProjectClosed(s, c))
      && PcInv(s, i, c);
    sound
  }

  /** Where session `p` stands, read off the program counter of the call that owns it. */
  ghost predicate StageOk(s: State, p: nat, pc: Pc) {
    match pc
    case Starting => false
    case WaitClosing(_) => false
    case WaitEvict(_, _) => false
    case Creating(_, q) => q == p && p !in s.fulfilled && p in s.creating
    case DisposingPaused(q) => q == p && p in s.fulfilled && p in s.disposed && p in s.creating
    case CreateFailed => p !in s.creating && (p in s.fulfilled ==> p in s.disposed)
    case Created(_, q) => q == p && p !in s.creating && p in s.fulfilled
    case DisposingLate(q) => q == p && p !in s.creating && p in s.fulfilled && p in s.disposed
    case Returned(q) => q == p && p !in s.creating && p in s.fulfilled
    case Threw => p !in s.creating && (p in s.fulfilled ==> p in s.disposed)
  }

  ghost predicate SessionInv(s: State, p: nat)
    requires p < |s.births|
  {
    var birth := s.births[p];
    var sound :=
      && birth.owner < |s.calls|
      && s.calls[birth.owner].runtimeRevision <= birth.runtimeRevision <= s.runtimeRevision
      && (p in s.disposed ==> p in s.fulfilled)
      && StageOk(s, p, s.calls[birth.owner].pc);
    sound
  }

  /** `p` was returned by the call that owns it. */
  ghost predicate ReturnedByOwner(s: State, p: nat) {
    var returned := p < |s.births| && s.births[p].owner < |s.calls| && s.calls[s.births[p].owner].pc == Returned(p);
    returned
  }

  ghost predicate RecordInv(s: State, r: nat)
    requires r < |s.records|
  {
    ReturnedByOwner(s, s.records[r].session) && OfKey(s, s.records[r].session, s.records[r].ctx.key)
  }

  ghost predicate Apart(s: State, r: nat, t: nat)
    requires r < |s.records| && t < |s.records|
  {
    r != t ==> s.records[r].session != s.records[t].session
  }

  /** A cached record that is not dirty is live and was created under the current runtime revision. */
  ghost predicate CleanOk(s: State, rec: Record) {
    rec.dirty
    || (&& rec.session !in s.disposed
        && rec.session !in s.draining
        && rec.session < |s.births| && s.births[rec.session].runtimeRevision == s.runtimeRevision)
  }

  ghost predicate CacheInv(s: State, k: string)
    requires k in s.sessions
  {
    s.sessions[k] < |s.records| && Cached(s, k).ctx.key == k && CleanOk(s, Cached(s, k))
  }

  ghost predicate Ranges(s: State) {
    && (forall k <- s.generations :: s.generations[k] < s.nextSymbol)
    && (forall p <- s.creating :: p < |s.births|)
    && (forall p <- s.draining :: p < |s.births|)
    && (forall p <- s.fulfilled :: p < |s.births|)
    && (forall p <- s.disposed :: p < |s.births|)
  }

  ghost predicate Calls(s: State) { forall i | 0 <= i < |s.calls| :: CallInv(s, i) }
  ghost predicate Sessions(s: State) { forall p | 0 <= p < |s.births| :: SessionInv(s, p) }
  ghost predicate Records(s: State) {
    && (forall r | 0 <= r < |s.records| :: RecordInv(s, r))
    && (forall r, t | 0 <= r < |s.records| && 0 <= t < |s.records| :: Apart(s, r, t))
  }
  ghost predicate Cache(s: State) { forall k <- s.sessions :: CacheInv(s, k) }

  /** The families together; named in the body, so that a failing proof reports one fact and not all their parts. */
  ghost predicate Inv(s: State) {
    var sound := Ranges(s) && Calls(s) && Sessions(s) && Records(s) && Cache(s);
    sound
  }

  // ---------------------------------------------------------------- disposal

  /** A session that some record holds was returned, so it is neither in flight nor late. */
  lemma EvictedWasHeld(s: State, keys: set<string>, remove: bool, p: nat)
    requires Inv(s) && keys <= s.sessions.Keys
    requires p in Evict(s, keys, remove).disposed && p !in s.disposed
    ensures ReturnedByOwner(s, p)
    ensures exists k :: k in keys && Cached(s, k).session == p
  {
    var k :| k in keys && Cached(s, k).session == p;
    assert CacheInv(s, k);
    assert RecordInv(s, s.sessions[k]);
  }

  lemma EvictKeepsCall(s: State, keys: set<string>, remove: bool, i: nat)
    requires Inv(s) && keys <= s.sessions.Keys && i < |s.calls|
    ensures CallInv(Evict(s, keys, remove), i)
  {
    assert CallInv(s, i);
    var t := Evict(s, keys, remove);
    var pc := s.calls[i].pc;
    if pc.Created? && pc.session in t.disposed && pc.session !in s.disposed {
      EvictedWasHeld(s, keys, remove, pc.session);
    }
  }

  lemma EvictKeepsSession(s: State, keys: set<string>, remove: bool, p: nat)
    requires Inv(s) && keys <= s.sessions.Keys && p < |s.births|
    ensures SessionInv(Evict(s, keys, remove), p)
  {
    assert SessionInv(s, p);
    if p in Evict(s, keys, remove).disposed && p !in s.disposed { EvictedWasHeld(s, keys, remove, p); }
  }

  lemma EvictKeepsCache(s: State, keys: set<string>, remove: bool, k: string)
    requires Inv(s) && keys <= s.sessions.Keys
    requires remove || forall k <- keys :: Cached(s, k).dirty
    requires k in Evict(s, keys, remove).sessions
    ensures CacheInv(Evict(s, keys, remove), k)
  {
    assert CacheInv(s, k);
    var t := Evict(s, keys, remove);
    var p := Cached(s, k).session;
    if p in t.disposed && p !in s.disposed {
      var k' :| k' in keys && Cached(s, k').session == p;
      assert CacheInv(s, k') && Apart(s, s.sessions[k], s.sessions[k']);
    }
  }

  /** Disposing of cached sessions keeps the invariant when their records go, or are dirty. */
  lemma EvictKeeps(s: State, keys: set<string>, remove: bool)
    requires Inv(s) && keys <= s.sessions.Keys
    requires remove || forall k <- keys :: Cached(s, k).dirty
    ensures Inv(Evict(s, keys, remove))
  {
    var t := Evict(s, keys, remove);
    forall p <- t.disposed ensures p < |t.births| {
      if p !in s.disposed { EvictedWasHeld(s, keys, remove, p); }
    }
    forall i | 0 <= i < |t.calls| ensures CallInv(t, i) { EvictKeepsCall(s, keys, remove, i); }
    forall p | 0 <= p < |t.births| ensures SessionInv(t, p) { EvictKeepsSession(s, keys, remove, p); }
    forall r | 0 <= r < |t.records| ensures RecordInv(t, r) { assert RecordInv(s, r); }
    forall r, q | 0 <= r < |t.records| && 0 <= q < |t.records| ensures Apart(t, r, q) { assert Apart(s, r, q); }
    forall k <- t.sessions ensures CacheInv(t, k) { EvictKeepsCache(s, keys, remove, k); }
  }

  lemma SweepKeeps(s: State, now: int)
    requires Inv(s)
    ensures Inv(Sweep(s, now))
  {
    if !s.isShutdown { EvictKeeps(s, Idle(s, now), true); }
  }

  // ---------------------------------------------------------------- steps of one call

  /**
   The step of one call: its program counter moves, and only sessions it owns may be
   fulfilled, disposed of or dropped from the tracked creations.
   */
  ghost predicate Moves(s: State, t: State, id: nat)
    requires id < |s.calls|
  {
    && t == s.(calls := t.calls, generations := t.generations, creating := t.creating,
               fulfilled := t.fulfilled, disposed := t.disposed)
    && |t.calls| == |s.calls|
    && t.calls == s.calls[id := s.calls[id].(pc := t.calls[id].pc)]
    && (forall k <- t.generations :: k in s.generations && t.generations[k] == s.generations[k])
    && (forall p <- t.creating :: p in s.creating && t.creating[p] == s.creating[p])
    && (forall p <- s.creating :: p in t.creating || Owns(s, id, p))
    && s.fulfilled <= t.fulfilled && s.disposed <= t.disposed
    && (forall p <- t.fulfilled :: p in s.fulfilled || Owns(s, id, p))
    && (forall p <- t.disposed :: p in s.disposed || Owns(s, id, p))
    && !s.calls[id].pc.Returned?
  }

  lemma MoveKeeps(s: State, t: State, id: nat)
    requires Inv(s) && id < |s.calls| && Moves(s, t, id)
    requires PcInv(t, id, t.calls[id])
    requires !Finished(t.calls[id].pc) && IsPaused(s, s.calls[id].ctx.project) ==> ProjectClosed(s, s.calls[id])
    requires forall p | 0 <= p < |s.births| && s.births[p].owner == id :: SessionInv(t, p)
    ensures Inv(t)
  {
    forall i | 0 <= i < |t.calls| ensures CallInv(t, i) { assert CallInv(s, i); }
    forall p | 0 <= p < |t.births| ensures SessionInv(t, p) {
      if s.births[p].owner != id { assert SessionInv(s, p); }
    }
    forall r | 0 <= r < |t.records| ensures RecordInv(t, r) { assert RecordInv(s, r); }
    forall r, q | 0 <= r < |t.records| && 0 <= q < |t.records| ensures Apart(t, r, q) { assert Apart(s, r, q); }
    forall k <- t.sessions ensures CacheInv(t, k) { assert CacheInv(s, k) && RecordInv(s, s.sessions[k]); }
  }

  ghost predicate Early(pc: Pc) { pc.Starting? || pc.WaitClosing? || pc.WaitEvict? }

  lemma NothingOwned(s: State, id: nat)
    requires Inv(s) && id < |s.calls| && Early(s.calls[id].pc)
    ensures forall p | 0 <= p < |s.births| :: s.births[p].owner != id
  {
    forall p | 0 <= p < |s.births| ensures s.births[p].owner != id { assert SessionInv(s, p); }
  }

  lemma FinishMoves(s: State, id: nat, pc: Pc)
    requires id < |s.calls| && !s.calls[id].pc.Returned?
    ensures Moves(s, Finish(s, id, pc), id) && Finish(s, id, pc).calls[id].pc == pc
  {
  }

  /** `Finish` for a call that owns no session, or whose session is disposed of. */
  lemma FinishKeeps(s: State, id: nat, pc: Pc)
    requires Inv(s) && id < |s.calls| && Finished(pc)
    requires pc.Returned? ==> OfKey(s, pc.session, s.calls[id].ctx.key)
    requires Early(s.calls[id].pc) || (pc.Threw? && (s.calls[id].pc.CreateFailed? || s.calls[id].pc.DisposingLate?))
    ensures Inv(Finish(s, id, pc))
  {
    FinishMoves(s, id, pc);
    var t := Finish(s, id, pc);
    forall p | 0 <= p < |s.births| && s.births[p].owner == id ensures SessionInv(t, p) {
      assert SessionInv(s, p);
    }
    MoveKeeps(s, t, id);
  }

  /** A call that has not reached its factory starts to wait. */
  lemma WaitKeeps(s: State, id: nat, pc: Pc)
    requires Inv(s) && id < |s.calls| && Early(s.calls[id].pc)
    requires IsPaused(s, s.calls[id].ctx.project) ==> ProjectClosed(s, s.calls[id])
    requires pc.WaitClosing? || pc.CreateFailed? || (pc.WaitEvict? && TargetOk(s, s.calls[id], Some(pc.rec)))
    ensures Inv(SetPc(s, id, pc))
  {
    NothingOwned(s, id);
    MoveKeeps(s, SetPc(s, id, pc), id);
  }

  lemma OnlyOwned(s: State, id: nat, p: nat)
    requires Inv(s) && id < |s.calls|
    requires var pc := s.calls[id].pc;
             pc == DisposingPaused(p) || pc == DisposingLate(p)
             || (pc.Creating? && pc.session == p) || (pc.Created? && pc.session == p)
    ensures p < |s.births| && SessionInv(s, p) && CallInv(s, id)
    ensures forall q | 0 <= q < |s.births| && s.births[q].owner == id :: q == p
  {
    assert CallInv(s, id);
    forall q | 0 <= q < |s.births| && s.births[q].owner == id ensures q == p { assert SessionInv(s, q); }
  }

  lemma RejectKeeps(s: State, id: nat)
    requires Inv(s) && id < |s.calls| && s.calls[id].pc.Creating?
    ensures Inv(Reject(s, id))
  {
    OnlyOwned(s, id, s.calls[id].pc.session);
    MoveKeeps(s, Reject(s, id), id);
  }

  lemma DeliverPausedKeeps(s: State, id: nat)
    requires Inv(s) && id < |s.calls| && s.calls[id].pc.Creating?
    ensures Inv(DeliverPaused(s, id))
  {
    OnlyOwned(s, id, s.calls[id].pc.session);
    MoveKeeps(s, DeliverPaused(s, id), id);
  }

  lemma DeliverKeeps(s: State, id: nat)
    requires Inv(s) && id < |s.calls| && s.calls[id].pc.Creating?
    ensures Inv(Deliver(s, id))
  {
    OnlyOwned(s, id, s.calls[id].pc.session);
    MoveKeeps(s, Deliver(s, id), id);
  }

  lemma PausedDisposeKeeps(s: State, id: nat)
    requires Inv(s) && id < |s.calls| && s.calls[id].pc.DisposingPaused?
    ensures Inv(SetPc(DropTracked(s, s.calls[id].pc.session), id, CreateFailed))
  {
    OnlyOwned(s, id, s.calls[id].pc.session);
    MoveKeeps(s, SetPc(DropTracked(s, s.calls[id].pc.session), id, CreateFailed), id);
  }

  lemma DisposeLateKeeps(s: State, id: nat)
    requires Inv(s) && id < |s.calls| && s.calls[id].pc.Created?
    ensures Inv(DisposeLate(s, id, s.calls[id].pc.session))
  {
    OnlyOwned(s, id, s.calls[id].pc.session);
    MoveKeeps(s, DisposeLate(s, id, s.calls[id].pc.session), id);
  }
}
