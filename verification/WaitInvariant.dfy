/** What every step keeps about waiting and waking. */
module WaitInvariant {
  import opened Boxes
  import opened LogVars
  import opened Engine
  import opened Machine

  /** Variables whose waiter lists a committer is yet to take, for having stored new values. */
  function WakeVars(ph: Phase): set<Var> {
    match ph
    case Writing(_, _, _, written) => set x | x in written
    case Waking(_, _, todo, _, _) => set x | x in todo
    case _ => {}
  }

  /** Blocks that a committer has taken off a list and is yet to inform. */
  function Taken(ph: Phase): seq<CbId> {
    if ph.Waking? then (if ph.grip.Upgraded? then [ph.grip.c] else []) + ph.taken else []
  }

  function Unparking(ph: Phase): Option<CbId> {
    if ph.Waking? && ph.grip.MustUnpark? then Some(ph.grip.c) else None
  }

  ghost predicate WillWake(s: State, x: Var) {
    exists u :: 0 <= u < |s.threads| && x in WakeVars(s.threads[u])
  }

  ghost predicate InFlight(s: State, c: CbId) {
    exists u :: 0 <= u < |s.threads| && c in Taken(s.threads[u])
  }

  ghost predicate BeingUnparked(s: State, c: CbId) {
    exists u :: 0 <= u < |s.threads| && Unparking(s.threads[u]) == Some(c)
  }

  predicate HasBlock(ph: Phase) {
    ph.Registering? || ph.Checking? || ph.Waiting? || ph.Cleaning?
  }

  ghost predicate BlockOk(s: State, t: Tid, cb: CbId) {
    cb < |s.cbs| && s.cbs[cb].owner == t && s.cbs[cb].alive
  }

  /** While the block is blocked, it is on the list of every registered variable, unless a committer
      has taken it off and is about to inform it. */
  ghost predicate Linked(s: State, cb: CbId, xs: seq<Var>)
    requires cb < |s.cbs|
  {
    s.cbs[cb].blocked ==> forall x :: x in xs ==> cb in List(s, x) || InFlight(s, cb)
  }

  /** Since the k-th update, `x` has been written outside transactions. */
  ghost predicate BareSince(h: seq<Event>, x: Var, k: nat) {
    exists e: nat :: k <= e < |h| && h[e].Bare? && x in h[e].writes
  }

  /** Since it was loaded, what `log` observed of `x` has been overwritten outside transactions. */
  ghost predicate Excused(h: seq<Event>, loads: seq<Load>, log: Log, x: Var) {
    forall m :: 0 <= m < |loads| && loads[m].x == x && Observed(log, x) == Some(loads[m].arc) ==>
      BareSince(h, x, loads[m].at)
  }

  lemma ExcusedMore(h: seq<Event>, h': seq<Event>)
    requires h <= h'
    ensures forall loads, log, x :: Excused(h, loads, log, x) ==> Excused(h', loads, log, x)
  {
    assert forall x, k: nat :: BareSince(h, x, k) ==> BareSince(h', x, k) by {
      forall x, k: nat | BareSince(h, x, k) ensures BareSince(h', x, k) {
        var e: nat :| k <= e < |h| && h[e].Bare? && x in h[e].writes;
        assert h'[e] == h[e];
      }
    }
    hide BareSince;
  }

  /** While the block is blocked and nobody has taken it, every checked variable still holds what was
      observed, unless a committer that has stored a new value is yet to take the variable's list, or
      the variable has been written outside transactions since it was loaded. */
  ghost predicate Watched(s: State, loads: seq<Load>, log: Log, cb: CbId, xs: seq<Var>)
    requires cb < |s.cbs|
  {
    s.cbs[cb].blocked && !InFlight(s, cb) ==>
      forall x :: x in xs ==> Excused(s.history, loads, log, x) || Holds(s.cells, log, x) || WillWake(s, x)
  }

  ghost predicate Holds(cells: Store, log: Log, x: Var) {
    Observed(log, x).Some? && PtrEq(Observed(log, x).value, cells[x])
  }

  ghost predicate WaitOk(s: State, t: Tid, ph: Phase)
    requires t < |s.tokens|
  {
    match ph
    case Registering(_, loads, done, cb, todo, seen) =>
      && BlockOk(s, t, cb) && done.Done? && seen + todo == WaitKeys(done.tx.log)
      && Linked(s, cb, seen) && Watched(s, loads, done.tx.log, cb, seen)
    case Checking(_, loads, done, cb, todo, seen) =>
      && BlockOk(s, t, cb) && done.Done? && todo != [] && seen + todo == WaitKeys(done.tx.log)
      && Linked(s, cb, seen + [todo[0]]) && Watched(s, loads, done.tx.log, cb, seen)
    case Waiting(_, loads, done, cb, seen, parked) =>
      && BlockOk(s, t, cb) && done.Done? && seen == WaitKeys(done.tx.log)
      && Linked(s, cb, seen) && Watched(s, loads, done.tx.log, cb, seen)
      && (parked && !s.cbs[cb].blocked ==> s.tokens[t] || BeingUnparked(s, cb))
    case Cleaning(_, cb, todo, gc) => BlockOk(s, t, cb) && (todo == [] ==> gc.NoGc?)
    case Waking(_, _, _, taken, grip) =>
      && (forall c :: c in taken ==> c < |s.cbs|)
      && (!grip.NoGrip? ==> grip.c < |s.cbs|)
    case _ => true
  }

  ghost predicate CbOk(s: State, c: CbId)
    requires c < |s.cbs|
  {
    var cb := s.cbs[c];
    && cb.owner < |s.threads|
    && cb.wakers == (if cb.blocked then 0 else 1)
    && (cb.alive ==> HasBlock(s.threads[cb.owner]) && s.threads[cb.owner].cb == c)
  }

  ghost predicate ListsOk(s: State) {
    forall x, c :: c in List(s, x) ==> c < |s.cbs|
  }

  ghost predicate WaitInv(s: State) {
    && WellFormed(s)
    && (forall t: nat :: t < |s.threads| ==> WaitOk(s, t, s.threads[t]))
    && (forall c: nat :: c < |s.cbs| ==> CbOk(s, c))
    && ListsOk(s)
  }

  /** A step of one thread, as far as the others are concerned. */
  ghost predicate Moves(s: State, s': State, t: Tid) {
    && WellFormed(s) && WellFormed(s') && t < |s.threads| == |s'.threads|
    && |s.cbs| <= |s'.cbs| && s.history <= s'.history
    && (forall u: nat :: u < |s.threads| && u != t ==> s'.threads[u] == s.threads[u])
    && (forall c: nat :: c < |s.cbs| ==>
          && s'.cbs[c].owner == s.cbs[c].owner
          && (s'.cbs[c].blocked ==> s.cbs[c].blocked))
  }

  /** What another thread's block needs from a step. */
  ghost predicate Spares(s: State, s': State, u: Tid, cb: CbId)
    requires cb < |s.cbs| <= |s'.cbs| && u < |s'.tokens|
  {
    && s'.cbs[cb].alive == s.cbs[cb].alive
    && (s'.cbs[cb].blocked ==>
          && (InFlight(s, cb) ==> InFlight(s', cb))
          && (forall x :: cb in List(s, x) ==> cb in List(s', x) || InFlight(s', cb)))
    && (BeingUnparked(s, cb) || (s.cbs[cb].blocked && !s'.cbs[cb].blocked) ==>
          BeingUnparked(s', cb) || s'.tokens[u])
  }

  ghost predicate KeepsWatch(s: State, s': State, loads: seq<Load>, log: Log, cb: CbId, xs: seq<Var>)
    requires cb < |s.cbs| <= |s'.cbs|
  {
    s'.cbs[cb].blocked && !InFlight(s', cb) ==>
      forall x :: x in xs && (Excused(s.history, loads, log, x) || Holds(s.cells, log, x) || WillWake(s, x)) ==>
        Excused(s'.history, loads, log, x) || Holds(s'.cells, log, x) || WillWake(s', x)
  }

  lemma LinkedStays(s: State, s': State, t: Tid, u: Tid, cb: CbId, xs: seq<Var>)
    requires Moves(s, s', t) && cb < |s.cbs| && u < |s.threads| && Spares(s, s', u, cb) && Linked(s, cb, xs)
    ensures Linked(s', cb, xs)
  {
    hide InFlight, BeingUnparked, List;
  }

  lemma WatchedStays(s: State, s': State, t: Tid, u: Tid, loads: seq<Load>, log: Log, cb: CbId, xs: seq<Var>)
    requires Moves(s, s', t) && cb < |s.cbs| && u < |s.threads| && Spares(s, s', u, cb)
    requires Watched(s, loads, log, cb, xs)
    requires KeepsWatch(s, s', loads, log, cb, xs)
    ensures Watched(s', loads, log, cb, xs)
  {
    hide InFlight, BeingUnparked, List, Holds, WillWake, Excused;
  }

  /** What a waiting thread relies on survives a step of another thread. */
  lemma WaitStays(s: State, s': State, t: Tid, u: Tid, ph: Phase)
    requires Moves(s, s', t) && t != u && u < |s.threads| && WaitOk(s, u, ph)
    requires s.tokens[u] ==> s'.tokens[u]
    requires HasBlock(ph) ==> Spares(s, s', u, ph.cb)
    requires ph.Registering? || ph.Checking? || ph.Waiting? ==>
               KeepsWatch(s, s', ph.loads, ph.done.tx.log, ph.cb, ph.seen)
    ensures WaitOk(s', u, ph)
  {
    hide Linked, Watched, KeepsWatch, InFlight, List, WaitKeys;
    match ph
    case Registering(_, loads, done, cb, todo, seen) =>
      LinkedStays(s, s', t, u, cb, seen);
      WatchedStays(s, s', t, u, loads, done.tx.log, cb, seen);
    case Checking(_, loads, done, cb, todo, seen) =>
      LinkedStays(s, s', t, u, cb, seen + [todo[0]]);
      WatchedStays(s, s', t, u, loads, done.tx.log, cb, seen);
    case Waiting(_, loads, done, cb, seen, parked) =>
      LinkedStays(s, s', t, u, cb, seen);
      WatchedStays(s, s', t, u, loads, done.tx.log, cb, seen);
    case _ =>
  }

  /** Another thread, which waits or is about to. */
  ghost predicate Watcher(s: State, t: Tid, u: Tid) {
    u < |s.threads| && u != t && InWait(s.threads[u]) && s.threads[u].cb < |s.cbs| && s.threads[u].done.Done?
  }

  /** The invariant from its parts. */
  lemma Assemble(s: State, s': State, t: Tid)
    requires WaitInv(s) && Moves(s, s', t)
    requires forall u: nat :: u < |s.threads| && u != t && s.tokens[u] ==> s'.tokens[u]
    requires forall u: nat :: u < |s.threads| && u != t && HasBlock(s.threads[u]) && s.threads[u].cb < |s.cbs| ==>
               Spares(s, s', u, s.threads[u].cb)
    requires forall u: nat | Watcher(s, t, u) ::
               KeepsWatch(s, s', s.threads[u].loads, s.threads[u].done.tx.log, s.threads[u].cb, s.threads[u].seen)
    requires WaitOk(s', t, s'.threads[t])
    requires forall c: nat :: c < |s'.cbs| ==> CbOk(s', c)
    requires ListsOk(s')
    ensures WaitInv(s')
  {
    hide Spares, KeepsWatch, CbOk, ListsOk, Linked, Watched;
    assert |s'.threads| == |s.threads|;
    forall u: nat | u < |s'.threads| ensures WaitOk(s', u, s'.threads[u]) {
      if u != t {
        assert s'.threads[u] == s.threads[u];
        assert WaitOk(s, u, s.threads[u]);
        WaitStays(s, s', t, u, s.threads[u]);
      }
    }
  }

  /** The thread takes no list, informs nobody and stores nothing. */
  ghost predicate WaitQuiet(s: State, s': State, t: Tid) {
    && Moves(s, s', t)
    && s'.cells == s.cells && s'.waiters == s.waiters
    && (forall u: nat :: u < |s.threads| && u != t && s.tokens[u] ==> s'.tokens[u])
    && (forall c: nat :: c < |s.cbs| && s.cbs[c].owner != t ==> s'.cbs[c] == s.cbs[c])
    && var ph, ph' := s.threads[t], s'.threads[t];
       WakeVars(ph') == WakeVars(ph) && Taken(ph') == Taken(ph) && Unparking(ph') == Unparking(ph)
  }

  lemma QuietSame(s: State, s': State, t: Tid)
    requires WaitQuiet(s, s', t)
    ensures forall x :: WillWake(s', x) <==> WillWake(s, x)
    ensures forall c :: InFlight(s', c) <==> InFlight(s, c)
    ensures forall c :: BeingUnparked(s', c) <==> BeingUnparked(s, c)
    ensures forall x :: List(s', x) == List(s, x)
  {
    assert forall u: nat :: u < |s.threads| ==>
      WakeVars(s'.threads[u]) == WakeVars(s.threads[u]) && Taken(s'.threads[u]) == Taken(s.threads[u])
      && Unparking(s'.threads[u]) == Unparking(s.threads[u]);
    hide WakeVars, Taken, Unparking;
  }

  lemma QuietKeeps(s: State, s': State, t: Tid)
    requires WaitInv(s) && WaitQuiet(s, s', t)
    requires WaitOk(s', t, s'.threads[t]) && forall c: nat :: c < |s'.cbs| ==> CbOk(s', c)
    ensures WaitInv(s')
  {
    QuietSame(s, s', t);
    ExcusedMore(s.history, s'.history);
    hide Excused;
    assert ListsOk(s') by { hide WaitOk, CbOk, WillWake, InFlight, BeingUnparked, List; }
    hide List, InFlight, WillWake, BeingUnparked;
    forall u: nat | u < |s.threads| && u != t && HasBlock(s.threads[u]) && s.threads[u].cb < |s.cbs|
      ensures Spares(s, s', u, s.threads[u].cb)
    {
      assert s.cbs[s.threads[u].cb].owner == u by { assert WaitOk(s, u, s.threads[u]); }
    }
    assert forall u: nat | Watcher(s, t, u) ::
             KeepsWatch(s, s', s.threads[u].loads, s.threads[u].done.tx.log, s.threads[u].cb, s.threads[u].seen) by {
      hide WaitOk, CbOk;
    }
    hide WaitOk, CbOk, Spares, KeepsWatch;
    Assemble(s, s', t);
  }
}
