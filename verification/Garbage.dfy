/** Bounded garbage: how many dead waiters the list of a variable can hold. */
module Garbage {
  import opened Boxes
  import opened Sorting
  import opened Machine
  import opened WaitInvariant
  import opened WaitSteps

  /** Blocks on the list of `x` whose owner has already announced them dead to `x`. */
  ghost function GarbageOf(s: State, x: Var): set<CbId> {
    set c | c in List(s, x) && c < |s.cbs| && x in s.cbs[c].announced
  }

  /** Variables with which the thread has enlisted its block but to which it has not announced it. */
  function Owes(ph: Phase): set<Var> {
    match ph
    case Registering(_, _, _, _, _, seen) => set x | x in seen
    case Checking(_, _, _, _, todo, seen) =>
      var xs := if todo == [] then seen else seen + [todo[0]];
      set x | x in xs
    case Waiting(_, _, _, _, seen, _) => set x | x in seen
    case Cleaning(_, _, todo, gc) =>
      var xs := if gc.NoGc? || todo == [] then todo else todo[1..];
      set x | x in xs
    case _ => {}
  }

  ghost function Claimants(s: State, x: Var): set<Tid> {
    set t | 0 <= t < |s.threads| && Claims(s.threads[t], x)
  }

  /** Those that have not reset the counter yet. */
  ghost function Wanting(s: State, x: Var): set<Tid> {
    set t | 0 <= t < |s.threads| && Claims(s.threads[t], x) && s.threads[t].gc.WantGc?
  }

  /** A block is on the list of a variable at most once, and while it is alive its owner still has to
      announce it there or has done so. */
  ghost predicate EnlistedOk(s: State, x: Var) {
    && Distinct(List(s, x))
    && forall c :: c in List(s, x) ==>
         c < |s.cbs| && (s.cbs[c].alive ==>
           s.cbs[c].owner < |s.threads|
           && (x in Owes(s.threads[s.cbs[c].owner]) || x in s.cbs[c].announced))
  }

  ghost predicate OwnerOk(s: State, ph: Phase) {
    && (InWait(ph) ==> ph.cb < |s.cbs| && s.cbs[ph.cb].announced == {})
    && (ph.Cleaning? ==> Ascending(ph.todo))
  }

  /** While a sweep is under way, whoever has announced since the counter was reset owes nothing. */
  ghost predicate AnnouncersOk(s: State, x: Var) {
    forall t :: t in Announcers(s, x) ==>
      t < |s.threads| && (MutexFree(s, x) || x !in Owes(s.threads[t]))
  }

  ghost predicate OneSweeper(s: State, x: Var) {
    forall t, u :: 0 <= t < |s.threads| && 0 <= u < |s.threads| && t != u && Sweeping(s.threads[t], x) ==>
      !Sweeping(s.threads[u], x)
  }

  /** Blocks on the list of `x` that a sweep which has come to `pos` may still leave there: those it has
      kept, and those that can still be upgraded. */
  ghost function MayStay(s: State, x: Var, pos: nat): set<CbId> {
    set i | 0 <= i < |List(s, x)| && (i < pos || (List(s, x)[i] < |s.cbs| && Upgradable(s, List(s, x)[i])))
      :: List(s, x)[i]
  }

  /** A sweep under way leaves at most `limit` blocks, and tests the entry it has come to. */
  ghost predicate SweepOk(s: State, x: Var, limit: nat) {
    forall u :: 0 <= u < |s.threads| && Sweeping(s.threads[u], x) ==>
      var gc := s.threads[u].gc;
      && |MayStay(s, x, gc.pos)| <= limit
      && (gc.probing.Some? ==> gc.pos < |List(s, x)| && List(s, x)[gc.pos] == gc.probing.value)
  }

  ghost predicate CountOk(s: State, x: Var, limit: nat) {
    && Deads(s, x) <= 64 + |Wanting(s, x)|
    && |GarbageOf(s, x)| <= (if MutexFree(s, x) then limit + Deads(s, x)
                             else 64 + limit + |Claimants(s, x) + Announcers(s, x)|)
  }

  ghost predicate VarOk(s: State, x: Var, limit: nat) {
    && EnlistedOk(s, x) && AnnouncersOk(s, x) && OneSweeper(s, x)
    && SweepOk(s, x, limit) && CountOk(s, x, limit)
  }

  /** The invariant, where no sweep leaves more than `limit` blocks. */
  ghost predicate GarbageInv(s: State, limit: nat) {
    && WellFormed(s)
    && (forall x: Var :: VarOk(s, x, limit))
    && (forall t: nat :: t < |s.threads| ==> OwnerOk(s, s.threads[t]))
  }

  // Frames

  ghost predicate OnlyMoves(s: State, s': State, t: Tid) {
    && Moves(s, s', t)
    && (forall c: nat :: c < |s.cbs| ==>
          && (s'.cbs[c].alive ==> s.cbs[c].alive)
          && (s.cbs[c].owner != t ==> s'.cbs[c].announced == s.cbs[c].announced)
          && (HeldRef(s'.threads[t]) == Some(c) ==> Upgradable(s, c)))
  }

  /** Once every strong reference to a block is gone, there is no way to get another. */
  lemma UpgradableShrinks(s: State, s': State, t: Tid, c: CbId)
    requires OnlyMoves(s, s', t) && c < |s.cbs| && Upgradable(s', c)
    ensures Upgradable(s, c)
  {
    hide HeldRef;
  }

  /** As far as the list of `x` is concerned nothing happens. */
  ghost predicate Untouched(s: State, s': State, t: Tid, x: Var) {
    && OnlyMoves(s, s', t)
    && List(s', x) == List(s, x) && Deads(s', x) == Deads(s, x) && Announcers(s', x) == Announcers(s, x)
    && (forall c: nat :: c < |s.cbs| ==> (x in s'.cbs[c].announced <==> x in s.cbs[c].announced))
    && var ph, ph' := s.threads[t], s'.threads[t];
       && (x in Owes(ph') <==> x in Owes(ph))
       && (Claims(ph', x) <==> Claims(ph, x))
       && (Claims(ph, x) ==> ph'.gc == ph.gc)
  }

  /** Nobody starts or stops claiming a sweep of `x`. */
  ghost predicate ClaimsStay(s: State, s': State, t: Tid, x: Var) {
    && OnlyMoves(s, s', t)
    && (Claims(s'.threads[t], x) <==> Claims(s.threads[t], x))
    && (Claims(s.threads[t], x) ==> (s'.threads[t].gc.WantGc? <==> s.threads[t].gc.WantGc?))
  }

  lemma ClaimsSame(s: State, s': State, t: Tid, x: Var)
    requires ClaimsStay(s, s', t, x)
    ensures Claimants(s', x) == Claimants(s, x)
    ensures Wanting(s', x) == Wanting(s, x)
    ensures forall u :: 0 <= u < |s.threads| ==> (Sweeping(s'.threads[u], x) <==> Sweeping(s.threads[u], x))
    ensures MutexFree(s', x) <==> MutexFree(s, x)
  {
    hide Upgradable;
    assert forall u :: 0 <= u < |s.threads| ==> (Claims(s'.threads[u], x) <==> Claims(s.threads[u], x));
  }

  lemma UntouchedSame(s: State, s': State, t: Tid, x: Var)
    requires Untouched(s, s', t, x) && EnlistedOk(s, x)
    ensures GarbageOf(s', x) == GarbageOf(s, x)
    ensures Claimants(s', x) == Claimants(s, x)
    ensures Wanting(s', x) == Wanting(s, x)
    ensures forall u :: 0 <= u < |s.threads| ==> (Sweeping(s'.threads[u], x) <==> Sweeping(s.threads[u], x))
    ensures MutexFree(s', x) <==> MutexFree(s, x)
  {
    hide Owes, Claimants, Wanting, MutexFree, Sweeping;
    ClaimsSame(s, s', t, x);
  }

  lemma UntouchedEnlisted(s: State, s': State, t: Tid, x: Var)
    requires Untouched(s, s', t, x) && EnlistedOk(s, x)
    ensures EnlistedOk(s', x)
  {
    hide GarbageOf, Claims, List, Owes;
    assert forall u :: 0 <= u < |s.threads| ==> (x in Owes(s'.threads[u]) <==> x in Owes(s.threads[u]));
    assert Distinct(List(s', x));
    hide Distinct;
  }

  lemma UntouchedAnnouncers(s: State, s': State, t: Tid, x: Var)
    requires Untouched(s, s', t, x) && AnnouncersOk(s, x) && (MutexFree(s', x) <==> MutexFree(s, x))
    ensures AnnouncersOk(s', x)
  {
    hide MutexFree, Owes, Claims, List;
    assert forall u :: 0 <= u < |s.threads| ==> (x in Owes(s'.threads[u]) <==> x in Owes(s.threads[u]));
  }

  lemma StayShrinks(s: State, s': State, t: Tid, x: Var, pos: nat)
    requires OnlyMoves(s, s', t) && List(s', x) == List(s, x) && EnlistedOk(s, x)
    ensures MayStay(s', x, pos) <= MayStay(s, x, pos) && |MayStay(s', x, pos)| <= |MayStay(s, x, pos)|
  {
    hide OnlyMoves, List;
    forall c | c in MayStay(s', x, pos) ensures c in MayStay(s, x, pos) {
      var i :| 0 <= i < |List(s, x)| && List(s, x)[i] == c && (i < pos || (c < |s'.cbs| && Upgradable(s', c)));
      assert c in List(s, x);
      hide Upgradable;
      if i >= pos { UpgradableShrinks(s, s', t, c); }
    }
    Smaller(MayStay(s', x, pos), MayStay(s, x, pos));
  }

  lemma Smaller<T>(a: set<T>, b: set<T>)
    requires a <= b
    ensures |a| <= |b|
  {
    var rest := b - a;
    assert b == a + rest;
  }

  lemma UntouchedSweep(s: State, s': State, t: Tid, x: Var, limit: nat)
    requires Untouched(s, s', t, x) && EnlistedOk(s, x) && SweepOk(s, x, limit)
    ensures SweepOk(s', x, limit)
  {
    assert forall u :: 0 <= u < |s.threads| && Sweeping(s'.threads[u], x) ==>
             Sweeping(s.threads[u], x) && s'.threads[u].gc == s.threads[u].gc by { hide Owes, List; }
    forall u | 0 <= u < |s.threads| && Sweeping(s'.threads[u], x)
      ensures |MayStay(s', x, s'.threads[u].gc.pos)| <= limit
    {
      hide OnlyMoves, MayStay, Owes, Claims, EnlistedOk, List;
      StayShrinks(s, s', t, x, s.threads[u].gc.pos);
    }
    hide MayStay, Owes, Claims, OnlyMoves;
  }

  lemma UntouchedCount(s: State, s': State, t: Tid, x: Var, limit: nat)
    requires Untouched(s, s', t, x) && EnlistedOk(s, x) && CountOk(s, x, limit) && OneSweeper(s, x)
    ensures CountOk(s', x, limit) && OneSweeper(s', x)
  {
    assert |s'.threads| == |s.threads|;
    hide EnlistedOk, GarbageOf, Claimants, Wanting, Sweeping, MutexFree, List, OnlyMoves, Owes, Claims;
    UntouchedSame(s, s', t, x);
  }

  lemma UntouchedKeeps(s: State, s': State, t: Tid, x: Var, limit: nat)
    requires Untouched(s, s', t, x) && VarOk(s, x, limit)
    ensures VarOk(s', x, limit)
  {
    hide Untouched, EnlistedOk, AnnouncersOk, SweepOk, CountOk, OneSweeper, MutexFree;
    UntouchedEnlisted(s, s', t, x);
    UntouchedMutex(s, s', t, x);
    UntouchedAnnouncers(s, s', t, x);
    UntouchedSweep(s, s', t, x, limit);
    UntouchedCount(s, s', t, x, limit);
  }

  lemma UntouchedMutex(s: State, s': State, t: Tid, x: Var)
    requires Untouched(s, s', t, x) && EnlistedOk(s, x)
    ensures MutexFree(s', x) <==> MutexFree(s, x)
  {
    hide MutexFree, Untouched, EnlistedOk;
    UntouchedSame(s, s', t, x);
  }

  /** What the invariant says of the other threads survives. */
  lemma OwnersKeep(s: State, s': State, t: Tid, limit: nat)
    requires GarbageInv(s, limit) && WaitInv(s) && OnlyMoves(s, s', t) && OwnerOk(s', s'.threads[t])
    ensures forall u: nat :: u < |s'.threads| ==> OwnerOk(s', s'.threads[u])
  {
    hide VarOk, Ascending, CbOk, ListsOk;
    forall u: nat | u < |s'.threads| ensures OwnerOk(s', s'.threads[u]) {
      if u != t {
        assert OwnerOk(s, s.threads[u]);
        if InWait(s.threads[u]) {
          assert s.cbs[s.threads[u].cb].owner == u by { WaitFact(s, u); }
        }
      }
    }
  }

  /** Steps that touch no list at all. */
  lemma QuietKeepsGarbage(s: State, s': State, t: Tid, limit: nat)
    requires GarbageInv(s, limit) && WaitInv(s) && OnlyMoves(s, s', t) && OwnerOk(s', s'.threads[t])
    requires forall x: Var :: Untouched(s, s', t, x)
    ensures GarbageInv(s', limit)
  {
    assert WellFormed(s');
    hide VarOk, OwnerOk, OnlyMoves, Untouched;
    OwnersKeep(s, s', t, limit);
    hide WaitInv;
    forall x: Var ensures VarOk(s', x, limit) { UntouchedKeeps(s, s', t, x, limit); }
  }

  /** Steps that concern the list of one variable. */
  lemma OneListKeeps(s: State, s': State, t: Tid, x: Var, limit: nat)
    requires GarbageInv(s, limit) && WaitInv(s) && OnlyMoves(s, s', t) && OwnerOk(s', s'.threads[t])
    requires forall y: Var :: y != x ==> Untouched(s, s', t, y)
    requires VarOk(s', x, limit)
    ensures GarbageInv(s', limit)
  {
    assert WellFormed(s');
    hide VarOk, OwnerOk, OnlyMoves, Untouched;
    OwnersKeep(s, s', t, limit);
    hide WaitInv;
    forall y: Var ensures VarOk(s', y, limit) { if y != x { UntouchedKeeps(s, s', t, y, limit); } }
  }
}
