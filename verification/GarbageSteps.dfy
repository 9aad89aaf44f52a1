/** Every step keeps the garbage invariant, and what follows from it. */
module GarbageSteps {
  import opened Boxes
  import opened LogVars
  import opened Sorting
  import opened Machine
  import opened WaitInvariant
  import opened WaitSteps
  import opened Serializability
  import opened WakeTheorems
  import opened Garbage

  lemma OwnerFact(s: State, t: Tid, limit: nat)
    requires GarbageInv(s, limit) && t < |s.threads|
    ensures OwnerOk(s, s.threads[t])
  {
    hide VarOk, OwnerOk;
  }

  /** A step of a thread that has no block, before and after. */
  ghost predicate Outside(s: State, s': State, t: Tid) {
    && OnlyMoves(s, s', t)
    && !HasBlock(s.threads[t]) && !HasBlock(s'.threads[t])
    && s'.waiters == s.waiters && s'.dead == s.dead && s'.announcers == s.announcers
    && (forall c: nat :: c < |s.cbs| ==> s'.cbs[c].announced == s.cbs[c].announced)
  }

  lemma OutsideKeepsGarbage(s: State, s': State, t: Tid, limit: nat)
    requires GarbageInv(s, limit) && WaitInv(s) && Outside(s, s', t)
    ensures GarbageInv(s', limit)
  {
    hide GarbageInv, WaitInv;
    assert forall x: Var :: Untouched(s, s', t, x);
    hide OnlyMoves, Untouched;
    QuietKeepsGarbage(s, s', t, limit);
  }

  lemma RunningOutside(s: State, t: Tid, s': State)
    requires Loads(s, t, s') || StartsCommit(s, t, s') || GivesUp(s, t, s')
    ensures Outside(s, s', t)
  {
    hide RunOf, NoWriter;
  }

  lemma RestartingOutside(s: State, t: Tid, s': State)
    requires Reruns(s, t, s') || exists prog, depth :: Begins(s, t, prog, depth, s')
    ensures Outside(s, s', t)
  {
    hide RunOf;
  }

  lemma LocksNextOutside(s: State, t: Tid, s': State)
    requires LocksNext(s, t, s')
    ensures Outside(s, s', t)
  {
    hide CanLock;
    var ph := s.threads[t];
    if Stale(s, ph.done.tx.log[ph.todo[0]], ph.todo[0]) {
      hide Stale;
    } else {
      hide Stale, Again;
    }
  }

  lemma SerializesOutside(s: State, t: Tid, s': State)
    requires Serializes(s, t, s')
    ensures Outside(s, s', t)
  {
    hide Writes, InOrder;
  }

  lemma WritingOutside(s: State, t: Tid, s': State)
    requires WritesBack(s, t, s') || StartsWaking(s, t, s')
    ensures Outside(s, s', t)
  {
    hide Owes;
  }

  lemma SetsChangedOutside(s: State, t: Tid, s': State)
    requires SetsChanged(s, t, s')
    ensures Outside(s, s', t)
  {
    HeldIsUpgradable(s, t);
    hide Upgradable;
  }

  lemma WakingOutside(s: State, t: Tid, s': State)
    requires Unparks(s, t, s') || Releases(s, t, s') || Finishes(s, t, s')
    ensures Outside(s, s', t)
  {
    HeldIsUpgradable(s, t);
    hide Upgradable;
  }

  lemma UpgradesOutside(s: State, t: Tid, s': State)
    requires Upgrades(s, t, s')
    ensures Outside(s, s', t)
  {
    hide Upgradable;
  }

  lemma HeldIsUpgradable(s: State, t: Tid)
    requires t < |s.threads|
    ensures forall c: nat :: c < |s.cbs| && HeldRef(s.threads[t]) == Some(c) ==> Upgradable(s, c)
  {}

  lemma WritesAtomicOutside(s: State, t: Tid, s': State)
    requires exists x, v :: WritesAtomic(s, t, x, v, s')
    ensures Outside(s, s', t)
  {
    hide NoHolder;
  }

  lemma StartsWaitKeepsGarbage(s: State, t: Tid, s': State, limit: nat)
    requires GarbageInv(s, limit) && WaitInv(s) && StartsWait(s, t, s')
    ensures GarbageInv(s', limit)
  {
    hide GarbageInv, WaitInv, RunOf, WaitKeys;
    assert OnlyMoves(s, s', t);
    assert forall x: Var :: Untouched(s, s', t, x) by { hide OnlyMoves; }
    hide OnlyMoves, Untouched;
    QuietKeepsGarbage(s, s', t, limit);
  }

  /** Steps of a thread that keeps its block and neither enlists nor announces it. */
  lemma KeptBlockKeepsGarbage(s: State, s': State, t: Tid, limit: nat)
    requires GarbageInv(s, limit) && WaitInv(s) && KeepsBlock(s, s', t)
    ensures GarbageInv(s', limit)
  {
    OwnerFact(s, t, limit);
    assert OwnerOk(s', s'.threads[t]);
    hide GarbageInv, WaitInv, Owes, OwnerOk;
    assert forall x: Var :: Untouched(s, s', t, x) by { hide OnlyMoves; }
    hide OnlyMoves, Untouched;
    QuietKeepsGarbage(s, s', t, limit);
  }

  lemma AscendingPrefix(xs: seq<Var>, ys: seq<Var>)
    requires Ascending(xs + ys)
    ensures Ascending(xs)
  {
    assert forall i :: 0 <= i < |xs| ==> (xs + ys)[i] == xs[i];
  }

  /** A waiting thread that keeps its block and neither enlists nor announces it. */
  ghost predicate KeepsBlock(s: State, s': State, t: Tid) {
    && OnlyMoves(s, s', t)
    && s'.cbs == s.cbs && s'.waiters == s.waiters && s'.dead == s.dead && s'.announcers == s.announcers
    && var ph, ph' := s.threads[t], s'.threads[t];
       InWait(ph) && HasBlock(ph') && ph'.cb == ph.cb && Owes(ph') == Owes(ph)
       && (ph'.Cleaning? ==> ph'.gc.NoGc? && Ascending(ph'.todo))
  }

  lemma CheckedAscending(s: State, t: Tid)
    requires WaitInv(s) && t < |s.threads| && s.threads[t].Checking? && s.threads[t].todo != []
    ensures var ph := s.threads[t]; Ascending(ph.seen + [ph.todo[0]])
  {
    var ph := s.threads[t];
    WaitFact(s, t);
    hide WaitInv, Linked, Watched;
    assert ph.seen + ph.todo == (ph.seen + [ph.todo[0]]) + ph.todo[1..];
    AscendingPrefix(ph.seen + [ph.todo[0]], ph.todo[1..]);
  }

  lemma ChecksKeepsBlock(s: State, t: Tid, s': State)
    requires WaitInv(s) && Checks(s, t, s')
    ensures KeepsBlock(s, s', t)
  {
    hide WaitInv, NoWriter, Ascending, OnlyMoves, Owes;
    CheckedAscending(s, t);
    ChecksMoves(s, t, s');
    assert Owes(s'.threads[t]) == Owes(s.threads[t]) by { ChecksOwes(s, t, s'); }
  }

  lemma ChecksOwes(s: State, t: Tid, s': State)
    requires Checks(s, t, s')
    ensures Owes(s'.threads[t]) == Owes(s.threads[t])
  {
    hide NoWriter;
  }

  lemma ChecksMoves(s: State, t: Tid, s': State)
    requires Checks(s, t, s')
    ensures OnlyMoves(s, s', t)
  {
    hide CanCheck;
  }

  lemma BlocksKeepsBlock(s: State, t: Tid, s': State)
    requires Blocks(s, t, s') || exists spurious :: IsUnparked(s, t, spurious, s')
    ensures KeepsBlock(s, s', t)
  {}

  lemma PollsKeepsBlock(s: State, t: Tid, s': State)
    requires WaitInv(s) && Polls(s, t, s')
    ensures KeepsBlock(s, s', t)
  {
    assert Ascending(s.threads[t].seen) by {
      WaitFact(s, t);
      hide WaitInv, Linked, Watched;
    }
    hide WaitInv, Ascending;
  }

  lemma DropsBlockKeepsGarbage(s: State, t: Tid, s': State, limit: nat)
    requires GarbageInv(s, limit) && WaitInv(s) && DropsBlock(s, t, s')
    ensures GarbageInv(s', limit)
  {
    WaitFact(s, t);
    hide GarbageInv, WaitInv;
    assert OnlyMoves(s, s', t);
    assert forall x: Var :: Untouched(s, s', t, x) by { hide OnlyMoves; }
    hide OnlyMoves, Untouched;
    QuietKeepsGarbage(s, s', t, limit);
  }

  // Enlisting

  /** The block that is being enlisted is not on the list yet. */
  lemma NotYetEnlisted(s: State, t: Tid, limit: nat)
    requires GarbageInv(s, limit) && WaitInv(s) && t < |s.threads|
    requires s.threads[t].Registering? && s.threads[t].todo != []
    ensures var ph := s.threads[t];
            && ph.cb < |s.cbs| && s.cbs[ph.cb].owner == t && s.cbs[ph.cb].announced == {}
            && ph.todo[0] !in Owes(ph) && ph.cb !in List(s, ph.todo[0])
  {
    var ph := s.threads[t];
    var x := ph.todo[0];
    WaitFact(s, t);
    OwnerFact(s, t, limit);
    assert EnlistedOk(s, x) by { assert VarOk(s, x, limit); hide EnlistedOk; }
    hide GarbageInv, WaitInv, Linked, Watched, WaitKeys, Distinct, List;
    assert x !in ph.seen by {
      assert Ascending(ph.seen + ph.todo) by { AscendingKeys(ph.done.tx.log); }
      assert (ph.seen + ph.todo)[|ph.seen|] == x;
      assert forall i :: 0 <= i < |ph.seen| ==> (ph.seen + ph.todo)[i] == ph.seen[i];
    }
  }

  lemma AscendingKeys(log: Log)
    ensures Ascending(WaitKeys(log))
  {
    hide Ascending;
  }

  lemma RegistersKeepsGarbage(s: State, t: Tid, s': State, limit: nat)
    requires GarbageInv(s, limit) && WaitInv(s) && Registers(s, t, s')
    ensures GarbageInv(s', limit)
  {
    var x := s.threads[t].todo[0];
    NotYetEnlisted(s, t, limit);
    assert VarOk(s, x, limit);
    hide GarbageInv, WaitInv, VarOk, OnlyMoves, Untouched, OwnerOk, List, Owes;
    RegistersFrame(s, t, s');
    RegistersVar(s, t, s', limit);
    hide Registers;
    OneListKeeps(s, s', t, x, limit);
  }

  lemma RegistersFrame(s: State, t: Tid, s': State)
    requires Registers(s, t, s') && s.threads[t].cb < |s.cbs| && s.cbs[s.threads[t].cb].announced == {}
    ensures OnlyMoves(s, s', t) && OwnerOk(s', s'.threads[t])
    ensures forall y: Var :: y != s.threads[t].todo[0] ==> Untouched(s, s', t, y)
  {
    hide MutexFree;
    assert OnlyMoves(s, s', t);
    hide OnlyMoves;
  }

  lemma RegistersVar(s: State, t: Tid, s': State, limit: nat)
    requires Registers(s, t, s') && OnlyMoves(s, s', t)
    requires var ph := s.threads[t];
             && ph.cb < |s.cbs| && s.cbs[ph.cb].owner == t && s.cbs[ph.cb].announced == {}
             && ph.todo[0] !in Owes(ph) && ph.cb !in List(s, ph.todo[0])
             && VarOk(s, ph.todo[0], limit)
    ensures VarOk(s', s.threads[t].todo[0], limit)
  {
    var ph := s.threads[t];
    var x := ph.todo[0];
    assert x in Owes(s'.threads[t]);
    assert List(s', x) == List(s, x) + [ph.cb];
    assert EnlistedOk(s', x) by { hide Owes, List; }
    assert ClaimsStay(s, s', t, x);
    assert GarbageOf(s', x) == GarbageOf(s, x) by { hide List, Owes; }
    assert MutexFree(s, x) && Announcers(s', x) == Announcers(s, x) && Deads(s', x) == Deads(s, x);
    hide Registers, EnlistedOk, GarbageOf, Claimants, Wanting, MutexFree, Sweeping, Owes, Claims, List;
    ClaimsSame(s, s', t, x);
  }

  lemma TakesListKeepsGarbage(s: State, t: Tid, s': State, limit: nat)
    requires GarbageInv(s, limit) && WaitInv(s) && TakesList(s, t, s')
    ensures GarbageInv(s', limit)
  {
    var x := s.threads[t].todo[0];
    assert VarOk(s, x, limit);
    hide GarbageInv, WaitInv, VarOk, OnlyMoves, Untouched, OwnerOk;
    TakesListFrame(s, t, s');
    TakesListVar(s, t, s', limit);
    hide TakesList;
    OneListKeeps(s, s', t, x, limit);
  }

  lemma TakesListFrame(s: State, t: Tid, s': State)
    requires TakesList(s, t, s')
    ensures OnlyMoves(s, s', t) && OwnerOk(s', s'.threads[t])
    ensures forall y: Var :: y != s.threads[t].todo[0] ==> Untouched(s, s', t, y)
  {
    hide MutexFree;
    assert OnlyMoves(s, s', t);
    hide OnlyMoves;
  }

  lemma TakesListVar(s: State, t: Tid, s': State, limit: nat)
    requires TakesList(s, t, s') && OnlyMoves(s, s', t)
    requires VarOk(s, s.threads[t].todo[0], limit)
    ensures VarOk(s', s.threads[t].todo[0], limit)
  {
    var x := s.threads[t].todo[0];
    assert List(s', x) == [];
    assert EnlistedOk(s', x);
    assert ClaimsStay(s, s', t, x);
    assert GarbageOf(s', x) == {};
    assert MutexFree(s, x) && Announcers(s', x) == Announcers(s, x) && Deads(s', x) == Deads(s, x);
    hide TakesList, EnlistedOk, GarbageOf, Claimants, Wanting, MutexFree, Sweeping, Owes, Claims, List;
    ClaimsSame(s, s', t, x);
  }

  // Announcing

  lemma AnnouncesMoves(s: State, t: Tid, s': State)
    requires Announces(s, t, s') && s.cbs[s.threads[t].cb].owner == t
    ensures OnlyMoves(s, s', t)
  {}

  lemma AnnouncesOwner(s: State, t: Tid, s': State)
    requires Announces(s, t, s') && OwnerOk(s, s.threads[t])
    ensures OwnerOk(s', s'.threads[t])
  {}

  lemma AnnouncesElsewhere(s: State, t: Tid, s': State, y: Var)
    requires Announces(s, t, s') && OnlyMoves(s, s', t) && y != s.threads[t].todo[0]
    ensures Untouched(s, s', t, y)
  {
    hide OnlyMoves;
  }

  /** What an announcement to `x` changes. */
  ghost predicate AnnouncedTo(s: State, s': State, t: Tid, x: Var) {
    && OnlyMoves(s, s', t) && |s'.cbs| == |s.cbs|
    && var ph, ph' := s.threads[t], s'.threads[t];
       && ph.Cleaning? && ph.gc.NoGc? && ph.cb < |s.cbs| && s.cbs[ph.cb].owner == t
       && (forall c: nat :: c < |s.cbs| && s.cbs[c].alive && s.cbs[c].owner == t ==> c == ph.cb)
       && x in Owes(ph) && x !in Owes(ph') && ph'.Cleaning? && !ph'.gc.InGc?
       && (Claims(ph', x) <==> Deads(s, x) >= 64)
       && List(s', x) == List(s, x) && Deads(s', x) == Deads(s, x) + 1
       && Announcers(s', x) == Announcers(s, x) + {t}
       && (forall c: nat :: c < |s.cbs| ==>
             (x in s'.cbs[c].announced <==> x in s.cbs[c].announced || c == ph.cb))
  }

  lemma AnnouncesTo(s: State, t: Tid, s': State)
    requires Announces(s, t, s') && OnlyMoves(s, s', t) && OwnerOk(s, s.threads[t])
    requires WaitInv(s)
    ensures AnnouncedTo(s, s', t, s.threads[t].todo[0])
  {
    WaitFact(s, t);
    CbFacts(s);
    assert forall c: nat :: c < |s.cbs| && s.cbs[c].alive ==> CbOk(s, c);
    hide OnlyMoves, WaitInv, ListsOk;
  }

  lemma AnnouncedSweeping(s: State, s': State, t: Tid, x: Var)
    requires AnnouncedTo(s, s', t, x)
    ensures forall u :: 0 <= u < |s.threads| ==> (Sweeping(s'.threads[u], x) <==> Sweeping(s.threads[u], x))
    ensures MutexFree(s', x) <==> MutexFree(s, x)
  {
    hide Owes, Claims, List;
    assert !Sweeping(s.threads[t], x) && !Sweeping(s'.threads[t], x);
    assert forall u :: 0 <= u < |s.threads| ==> (Sweeping(s'.threads[u], x) <==> Sweeping(s.threads[u], x));
  }

  lemma AnnouncedEnlisted(s: State, s': State, t: Tid, x: Var)
    requires AnnouncedTo(s, s', t, x) && EnlistedOk(s, x)
    ensures EnlistedOk(s', x)
  {
    assert Distinct(List(s', x));
    hide Owes, Claims, List, Distinct;
  }

  lemma AnnouncedAnnouncers(s: State, s': State, t: Tid, x: Var)
    requires AnnouncedTo(s, s', t, x) && AnnouncersOk(s, x)
    ensures AnnouncersOk(s', x)
  {
    AnnouncedSweeping(s, s', t, x);
    hide Owes, Claims, List, MutexFree;
  }

  lemma AnnouncedClaims(s: State, s': State, t: Tid, x: Var)
    requires AnnouncedTo(s, s', t, x) && AnnouncersOk(s, x)
    ensures t !in Wanting(s, x) && t !in Claimants(s, x) && (!MutexFree(s, x) ==> t !in Announcers(s, x))
    ensures Wanting(s', x) == if Deads(s, x) >= 64 then Wanting(s, x) + {t} else Wanting(s, x)
    ensures Claimants(s', x) + Announcers(s', x) == Claimants(s, x) + Announcers(s, x) + {t}
  {
    hide Owes, List, MutexFree;
    assert forall u :: 0 <= u < |s.threads| && u != t ==> s'.threads[u] == s.threads[u];
  }

  /** One more block is garbage at most, and either it is counted, or there is one more claimant, or one
      more has announced since the counter was reset. */
  lemma AnnouncedCount(s: State, s': State, t: Tid, x: Var, limit: nat)
    requires AnnouncedTo(s, s', t, x) && AnnouncersOk(s, x) && CountOk(s, x, limit)
    ensures CountOk(s', x, limit)
  {
    AnnouncedSweeping(s, s', t, x);
    AnnouncedClaims(s, s', t, x);
    AnnouncedGarbage(s, s', t, x);
    assert |s'.threads| == |s.threads| && Deads(s', x) == Deads(s, x) + 1;
    hide AnnouncedTo, AnnouncersOk, GarbageOf, MutexFree, Claimants, Wanting, Sweeping;
  }

  lemma AnnouncedGarbage(s: State, s': State, t: Tid, x: Var)
    requires AnnouncedTo(s, s', t, x)
    ensures |GarbageOf(s', x)| <= |GarbageOf(s, x)| + 1
  {
    hide Owes, List, Claims;
    var cb := s.threads[t].cb;
    Smaller(GarbageOf(s', x), GarbageOf(s, x) + {cb});
  }

  lemma AnnouncedSweep(s: State, s': State, t: Tid, x: Var, limit: nat)
    requires AnnouncedTo(s, s', t, x) && EnlistedOk(s, x) && SweepOk(s, x, limit)
    ensures SweepOk(s', x, limit)
  {
    hide EnlistedOk, MayStay, Owes, List, Claims;
    AnnouncedSweeping(s, s', t, x);
    forall u | 0 <= u < |s.threads| && Sweeping(s'.threads[u], x)
      ensures s'.threads[u] == s.threads[u] && |MayStay(s', x, s'.threads[u].gc.pos)| <= limit
    {
      hide OnlyMoves;
      StayShrinks(s, s', t, x, s.threads[u].gc.pos);
    }
    hide AnnouncedTo;
  }

  lemma AnnouncedVar(s: State, s': State, t: Tid, x: Var, limit: nat)
    requires AnnouncedTo(s, s', t, x) && VarOk(s, x, limit)
    ensures VarOk(s', x, limit)
  {
    assert |s'.threads| == |s.threads|;
    hide AnnouncedTo, EnlistedOk, AnnouncersOk, SweepOk, CountOk, Sweeping, MutexFree;
    AnnouncedSweeping(s, s', t, x);
    AnnouncedEnlisted(s, s', t, x);
    AnnouncedAnnouncers(s, s', t, x);
    AnnouncedSweep(s, s', t, x, limit);
    AnnouncedCount(s, s', t, x, limit);
  }

  lemma AnnouncesKeepsGarbage(s: State, t: Tid, s': State, limit: nat)
    requires GarbageInv(s, limit) && WaitInv(s) && Announces(s, t, s')
    ensures GarbageInv(s', limit)
  {
    var x := s.threads[t].todo[0];
    OwnerFact(s, t, limit);
    WaitFact(s, t);
    assert VarOk(s, x, limit);
    hide GarbageInv, WaitInv, VarOk, OnlyMoves, Untouched, OwnerOk;
    AnnouncesMoves(s, t, s');
    AnnouncesOwner(s, t, s');
    forall y: Var | y != x ensures Untouched(s, s', t, y) { AnnouncesElsewhere(s, t, s', y); }
    AnnouncesTo(s, t, s');
    hide Announces, WaitOk, AnnouncedTo;
    AnnouncedVar(s, s', t, x, limit);
    OneListKeeps(s, s', t, x, limit);
  }

  // Sweeping

  lemma ResetsFrame(s: State, t: Tid, s': State)
    requires Resets(s, t, s') && OwnerOk(s, s.threads[t])
    ensures OnlyMoves(s, s', t) && OwnerOk(s', s'.threads[t])
    ensures forall y: Var :: y != s.threads[t].todo[0] ==> Untouched(s, s', t, y)
  {
    hide MutexFree;
    assert OnlyMoves(s, s', t);
    hide OnlyMoves;
  }

  lemma ResetsVar(s: State, t: Tid, s': State, limit: nat)
    requires WaitInv(s) && Resets(s, t, s') && OnlyMoves(s, s', t) && VarOk(s, s.threads[t].todo[0], limit)
    requires |s.threads| + |Probers(s)| <= limit
    ensures VarOk(s', s.threads[t].todo[0], limit)
  {
    var x := s.threads[t].todo[0];
    hide WaitInv, Resets, OnlyMoves, EnlistedOk, AnnouncersOk, OneSweeper, SweepOk, CountOk, Probers;
    ResetsTo(s, t, s');
    ResetEnlisted(s, s', t, x);
    ResetSweep(s, s', t, x, limit);
    ResetCount(s, s', t, x, limit);
  }

  /** What resetting the counter of `x` changes. */
  ghost predicate ResetOf(s: State, s': State, t: Tid, x: Var) {
    && OnlyMoves(s, s', t) && s'.cbs == s.cbs && MutexFree(s, x)
    && var ph, ph' := s.threads[t], s'.threads[t];
       && Owes(ph') == Owes(ph) && Claims(ph, x) && Claims(ph', x) && ph.gc.WantGc? && ph'.gc == InGc(0, None)
       && List(s', x) == List(s, x) && Deads(s', x) == 0 && Announcers(s', x) == {}
  }

  lemma ResetsTo(s: State, t: Tid, s': State)
    requires Resets(s, t, s') && OnlyMoves(s, s', t)
    ensures ResetOf(s, s', t, s.threads[t].todo[0])
  {
    hide OnlyMoves, MutexFree;
  }

  lemma ResetEnlisted(s: State, s': State, t: Tid, x: Var)
    requires ResetOf(s, s', t, x) && EnlistedOk(s, x)
    ensures EnlistedOk(s', x) && AnnouncersOk(s', x) && OneSweeper(s', x)
  {
    assert EnlistedOk(s', x) by { hide List, Owes, Distinct, MutexFree, Claims; }
    assert OneSweeper(s', x) by { hide List, Owes, EnlistedOk; }
    hide List, Owes, EnlistedOk, MutexFree, OneSweeper;
  }

  lemma ResetSweep(s: State, s': State, t: Tid, x: Var, limit: nat)
    requires WaitInv(s) && ResetOf(s, s', t, x) && EnlistedOk(s, x) && |s.threads| + |Probers(s)| <= limit
    ensures SweepOk(s', x, limit)
  {
    hide WaitInv, Probers, EnlistedOk;
    assert forall u :: 0 <= u < |s.threads| && Sweeping(s'.threads[u], x) ==> s'.threads[u].gc == InGc(0, None) by {
      hide List, Owes;
    }
    StayShrinks(s, s', t, x, 0) by { hide MutexFree, Owes, Claims; }
    FewUpgradable(s, MayStay(s, x, 0)) by {
      hide OnlyMoves, Owes, Claims, MutexFree;
    }
    hide OnlyMoves, MayStay, List, Owes, Claims, MutexFree;
  }

  lemma ResetCount(s: State, s': State, t: Tid, x: Var, limit: nat)
    requires ResetOf(s, s', t, x) && CountOk(s, x, limit)
    ensures CountOk(s', x, limit)
  {
    hide List, Owes;
    assert GarbageOf(s', x) == GarbageOf(s, x) by { hide MutexFree, OnlyMoves, Claims; }
    assert !MutexFree(s', x) by { assert Sweeping(s'.threads[t], x); }
    assert Claimants(s', x) == Claimants(s, x) by { hide MutexFree, GarbageOf; }
    assert Claimants(s, x) + Announcers(s', x) == Claimants(s, x);
    hide GarbageOf, MutexFree;
    Smaller(Wanting(s, x), Claimants(s, x));
  }

  lemma ResetsKeepsGarbage(s: State, t: Tid, s': State, limit: nat)
    requires GarbageInv(s, limit) && WaitInv(s) && Resets(s, t, s') && |s.threads| + |Probers(s)| <= limit
    ensures GarbageInv(s', limit)
  {
    var x := s.threads[t].todo[0];
    OwnerFact(s, t, limit);
    assert VarOk(s, x, limit);
    hide GarbageInv, WaitInv, VarOk, OnlyMoves, Untouched, OwnerOk;
    ResetsFrame(s, t, s');
    ResetsVar(s, t, s', limit);
    hide Resets;
    OneListKeeps(s, s', t, x, limit);
  }

  /** The block that a thread keeps alive, leaving aside the one that it may be testing: its own, or the
      one in its grip. */
  function BlockOf(ph: Phase): CbId {
    if HasBlock(ph) then ph.cb else if ph.Waking? && !ph.grip.NoGrip? then ph.grip.c else 0
  }

  ghost function BlocksOf(threads: seq<Phase>): set<CbId> {
    set t | 0 <= t < |threads| :: BlockOf(threads[t])
  }

  lemma {:induction false} FewBlocks(threads: seq<Phase>)
    ensures |BlocksOf(threads)| <= |threads|
  {
    if threads != [] {
      var n := |threads| - 1;
      FewBlocks(threads[..n]);
      assert BlocksOf(threads) == BlocksOf(threads[..n]) + {BlockOf(threads[n])} by {
        assert forall t :: 0 <= t < n ==> threads[..n][t] == threads[t];
        hide BlockOf;
      }
    }
  }

  predicate Probing(ph: Phase) {
    ph.Cleaning? && ph.gc.InGc? && ph.gc.probing.Some?
  }

  /** The threads whose sweep holds a reference to the block that it tests. */
  ghost function Probers(s: State): set<Tid> {
    set t | 0 <= t < |s.threads| && Probing(s.threads[t])
  }

  function ProbeOf(ph: Phase): CbId {
    if Probing(ph) then ph.gc.probing.value else 0
  }

  ghost function Images(threads: seq<Phase>, ts: set<Tid>): set<CbId> {
    set t | t in ts && t < |threads| :: ProbeOf(threads[t])
  }

  lemma {:induction false} FewImages(threads: seq<Phase>, ts: set<Tid>)
    ensures |Images(threads, ts)| <= |ts|
  {
    if ts != {} {
      var t :| t in ts;
      var rest := ts - {t};
      FewImages(threads, rest);
      hide ProbeOf;
      var more := if t < |threads| then {ProbeOf(threads[t])} else {};
      assert Images(threads, ts) == Images(threads, rest) + more;
    }
  }

  /** At any moment there are at most as many blocks with a strong reference as there are threads and
      sweeps that test one. */
  lemma FewUpgradable(s: State, cs: set<CbId>)
    requires WaitInv(s)
    requires forall c :: c in cs ==> c < |s.cbs| && Upgradable(s, c)
    ensures |cs| <= |s.threads| + |Probers(s)|
  {
    hide WaitInv, Probers;
    forall c | c in cs ensures c in BlocksOf(s.threads) + Images(s.threads, Probers(s)) {
      KeptAlive(s, c);
    }
    hide BlocksOf, Images, Upgradable;
    FewBlocks(s.threads);
    FewImages(s.threads, Probers(s));
    Smaller(cs, BlocksOf(s.threads) + Images(s.threads, Probers(s)));
  }

  lemma KeptAlive(s: State, c: CbId)
    requires WaitInv(s) && c < |s.cbs| && Upgradable(s, c)
    ensures c in BlocksOf(s.threads) + Images(s.threads, Probers(s))
  {
    hide WaitInv, CbOk, ListsOk;
    CbFacts(s);
    if s.cbs[c].alive {
      assert CbOk(s, c);
      KeptByOwner(s, c);
    } else {
      var u :| 0 <= u < |s.threads| && HeldRef(s.threads[u]) == Some(c);
      if s.threads[u].Waking? {
        assert BlockOf(s.threads[u]) == c;
      } else {
        assert u in Probers(s) && ProbeOf(s.threads[u]) == c;
      }
    }
  }

  lemma KeptByOwner(s: State, c: CbId)
    requires WellFormed(s) && c < |s.cbs| && s.cbs[c].alive && CbOk(s, c)
    ensures c in BlocksOf(s.threads)
  {
    assert BlockOf(s.threads[s.cbs[c].owner]) == c;
  }

  // One entry tested

  lemma ProbesFrames(s: State, t: Tid, s': State)
    requires Probes(s, t, s') && OwnerOk(s, s.threads[t])
    ensures OnlyMoves(s, s', t) && OwnerOk(s', s'.threads[t])
    ensures forall y: Var :: y != s.threads[t].todo[0] ==> Untouched(s, s', t, y)
  {
    hide Upgradable;
    assert OnlyMoves(s, s', t);
    hide OnlyMoves;
  }

  /** What testing an entry of the list of `x`, or having tested it, changes: an entry may go, and the
      blocks that may stay become no more. */
  ghost predicate TestedOf(s: State, s': State, t: Tid, x: Var) {
    && OnlyMoves(s, s', t) && s'.cbs == s.cbs
    && var ph, ph' := s.threads[t], s'.threads[t];
       && Owes(ph') == Owes(ph) && Claims(ph, x) && Claims(ph', x) && ph.gc.InGc? && ph'.gc.InGc?
       && Announcers(s', x) == Announcers(s, x) && Deads(s', x) == Deads(s, x)
       && Distinct(List(s', x)) && (forall c :: c in List(s', x) ==> c in List(s, x))
       && MayStay(s', x, ph'.gc.pos) <= MayStay(s, x, ph.gc.pos)
       && (ph'.gc.probing.Some? ==>
             ph'.gc.pos < |List(s', x)| && List(s', x)[ph'.gc.pos] == ph'.gc.probing.value)
  }

  lemma TestedClaims(s: State, s': State, t: Tid, x: Var)
    requires TestedOf(s, s', t, x)
    ensures ClaimsStay(s, s', t, x)
  {
    hide List, Owes, MayStay;
  }

  lemma TestedRest(s: State, s': State, t: Tid, x: Var)
    requires TestedOf(s, s', t, x) && EnlistedOk(s, x) && AnnouncersOk(s, x)
    requires MutexFree(s', x) <==> MutexFree(s, x)
    ensures EnlistedOk(s', x) && AnnouncersOk(s', x)
  {
    assert EnlistedOk(s', x) by { hide List, Owes, MayStay, Distinct, MutexFree, Claims; }
    hide List, Owes, MayStay, MutexFree, Claims, EnlistedOk;
  }

  lemma TestedSweep(s: State, s': State, t: Tid, x: Var, limit: nat)
    requires TestedOf(s, s', t, x) && OneSweeper(s, x) && SweepOk(s, x, limit)
    requires forall u :: 0 <= u < |s.threads| ==> (Sweeping(s'.threads[u], x) <==> Sweeping(s.threads[u], x))
    ensures SweepOk(s', x, limit)
  {
    hide List, Owes, MayStay;
    assert Sweeping(s.threads[t], x);
    Smaller(MayStay(s', x, s'.threads[t].gc.pos), MayStay(s, x, s.threads[t].gc.pos));
    assert forall u :: 0 <= u < |s.threads| && u != t ==> !Sweeping(s'.threads[u], x);
  }

  lemma TestedCount(s: State, s': State, t: Tid, x: Var, limit: nat)
    requires TestedOf(s, s', t, x) && CountOk(s, x, limit)
    requires Claimants(s', x) == Claimants(s, x) && Wanting(s', x) == Wanting(s, x)
    requires MutexFree(s', x) <==> MutexFree(s, x)
    ensures CountOk(s', x, limit)
  {
    hide Owes, MayStay, Claims, MutexFree, Claimants, Wanting, List;
    Smaller(GarbageOf(s', x), GarbageOf(s, x));
    hide GarbageOf;
  }

  lemma TestedVar(s: State, s': State, t: Tid, x: Var, limit: nat)
    requires TestedOf(s, s', t, x) && VarOk(s, x, limit)
    ensures VarOk(s', x, limit)
  {
    assert |s'.threads| == |s.threads|;
    hide TestedOf, EnlistedOk, AnnouncersOk, SweepOk, CountOk, ClaimsStay, MutexFree, Claimants, Wanting, Sweeping;
    TestedClaims(s, s', t, x);
    ClaimsSame(s, s', t, x);
    TestedRest(s, s', t, x);
    TestedSweep(s, s', t, x, limit);
    TestedCount(s, s', t, x, limit);
  }

  /** Removing an entry that cannot be upgraded. */
  lemma WithoutOne(cs: seq<CbId>, i: nat)
    requires Distinct(cs) && i < |cs|
    ensures Distinct(Without(cs, i)) && forall c :: c in Without(cs, i) ==> c in cs
    ensures forall j :: 0 <= j < |Without(cs, i)| ==> Without(cs, i)[j] == cs[if j < i then j else j + 1]
  {}

  lemma RemovalStays(s: State, s': State, x: Var, pos: nat)
    requires s'.cbs == s.cbs && s'.threads == s.threads && Distinct(List(s, x)) && pos < |List(s, x)|
    requires List(s', x) == Without(List(s, x), pos)
    ensures MayStay(s', x, pos) <= MayStay(s, x, pos)
  {
    var cs, cs' := List(s, x), List(s', x);
    WithoutOne(cs, pos);
    hide List, Without, Distinct;
    forall c | c in MayStay(s', x, pos) ensures c in MayStay(s, x, pos) {
      var i :| 0 <= i < |cs'| && cs'[i] == c && (i < pos || (c < |s.cbs| && Upgradable(s', c)));
      var j := if i < pos then i else i + 1;
      assert cs[j] == c;
      assert i >= pos ==> Upgradable(s, c);
    }
  }

  lemma ProbesOf(s: State, t: Tid, s': State)
    requires Probes(s, t, s') && OnlyMoves(s, s', t) && EnlistedOk(s, s.threads[t].todo[0])
    ensures TestedOf(s, s', t, s.threads[t].todo[0])
  {
    var ph := s.threads[t];
    var x, pos := ph.todo[0], ph.gc.pos;
    var cs := List(s, x);
    if Upgradable(s, cs[pos]) {
      assert List(s', x) == cs;
      StayShrinks(s, s', t, x, pos);
      hide OnlyMoves, MayStay, Upgradable, Distinct;
    } else {
      assert List(s', x) == Without(cs, pos) && s'.threads == s.threads && s'.cbs == s.cbs;
      WithoutOne(cs, pos);
      RemovalStays(s, s', x, pos);
      hide OnlyMoves, MayStay, Upgradable, Distinct, Without;
    }
  }

  lemma ProbesKeepsGarbage(s: State, t: Tid, s': State, limit: nat)
    requires GarbageInv(s, limit) && WaitInv(s) && Probes(s, t, s')
    ensures GarbageInv(s', limit)
  {
    var x := s.threads[t].todo[0];
    hide GarbageInv, WaitInv, VarOk, OnlyMoves, Untouched, OwnerOk, TestedOf, EnlistedOk;
    OwnerFact(s, t, limit);
    VarFact(s, x, limit);
    ProbesFrames(s, t, s');
    ProbesOf(s, t, s') by { assert VarOk(s, x, limit); }
    TestedVar(s, s', t, x, limit);
    hide Probes;
    OneListKeeps(s, s', t, x, limit);
  }

  lemma VarFact(s: State, x: Var, limit: nat)
    requires GarbageInv(s, limit)
    ensures VarOk(s, x, limit) && EnlistedOk(s, x)
  {
    hide EnlistedOk, AnnouncersOk, OneSweeper, SweepOk, CountOk, OwnerOk;
  }

  lemma UnprobesFrame(s: State, t: Tid, s': State)
    requires Unprobes(s, t, s') && OwnerOk(s, s.threads[t]) && s.threads[t].todo != []
    ensures OnlyMoves(s, s', t) && OwnerOk(s', s'.threads[t])
    ensures forall y: Var :: y != s.threads[t].todo[0] ==> Untouched(s, s', t, y)
  {
    assert OnlyMoves(s, s', t);
    hide OnlyMoves;
  }

  lemma UnprobesOf(s: State, t: Tid, s': State, limit: nat)
    requires Unprobes(s, t, s') && s.threads[t].todo != [] && OnlyMoves(s, s', t)
    requires EnlistedOk(s, s.threads[t].todo[0]) && SweepOk(s, s.threads[t].todo[0], limit)
    ensures TestedOf(s, s', t, s.threads[t].todo[0])
  {
    var ph := s.threads[t];
    var x, pos := ph.todo[0], ph.gc.pos;
    assert Sweeping(ph, x);
    assert List(s', x) == List(s, x) && s'.cbs == s.cbs;
    assert pos < |List(s, x)| && List(s, x)[pos] == ph.gc.probing.value by { hide MayStay, List, EnlistedOk; }
    StayMoves(s, t, x, pos);
    StayShrinks(s, s', t, x, pos + 1);
    hide OnlyMoves, MayStay, Distinct, SweepOk, List;
  }

  /** The entry being tested can be upgraded, so it may stay before and after. */
  lemma StayMoves(s: State, t: Tid, x: Var, pos: nat)
    requires t < |s.threads| && Probing(s.threads[t]) && EnlistedOk(s, x)
    requires pos < |List(s, x)| && List(s, x)[pos] == s.threads[t].gc.probing.value
    ensures MayStay(s, x, pos + 1) <= MayStay(s, x, pos)
  {
    var cs := List(s, x);
    assert cs[pos] in cs && Upgradable(s, cs[pos]) by { assert HeldRef(s.threads[t]) == Some(cs[pos]); }
    hide Upgradable, List, Distinct;
    forall c | c in MayStay(s, x, pos + 1) ensures c in MayStay(s, x, pos) {
      var i :| 0 <= i < |cs| && cs[i] == c && (i < pos + 1 || (c < |s.cbs| && Upgradable(s, c)));
    }
  }

  lemma UnprobesKeepsGarbage(s: State, t: Tid, s': State, limit: nat)
    requires GarbageInv(s, limit) && WaitInv(s) && Unprobes(s, t, s')
    ensures GarbageInv(s', limit)
  {
    hide GarbageInv, WaitInv, VarOk, OnlyMoves, Untouched, OwnerOk, TestedOf, EnlistedOk, SweepOk;
    NonEmptySweep(s, t);
    var x := s.threads[t].todo[0];
    OwnerFact(s, t, limit);
    VarFact(s, x, limit);
    UnprobesFrame(s, t, s');
    UnprobesOf(s, t, s', limit) by { assert VarOk(s, x, limit); SweepFact(s, x, limit); }
    TestedVar(s, s', t, x, limit);
    hide Unprobes;
    OneListKeeps(s, s', t, x, limit);
  }

  lemma SweepFact(s: State, x: Var, limit: nat)
    requires VarOk(s, x, limit)
    ensures SweepOk(s, x, limit) && EnlistedOk(s, x) && OneSweeper(s, x) && CountOk(s, x, limit)
    ensures AnnouncersOk(s, x)
  {
    hide EnlistedOk, AnnouncersOk, OneSweeper, SweepOk, CountOk;
  }

  lemma NonEmptySweep(s: State, t: Tid)
    requires WaitInv(s) && t < |s.threads| && s.threads[t].Cleaning? && !s.threads[t].gc.NoGc?
    ensures s.threads[t].todo != []
  {
    hide WaitInv;
    WaitFact(s, t);
  }

  // The end of a sweep

  lemma EndsSweepFrame(s: State, t: Tid, s': State)
    requires EndsSweep(s, t, s') && OwnerOk(s, s.threads[t])
    ensures OnlyMoves(s, s', t) && OwnerOk(s', s'.threads[t])
    ensures forall y: Var :: y != s.threads[t].todo[0] ==> Untouched(s, s', t, y)
  {
    assert OnlyMoves(s, s', t);
    hide OnlyMoves;
  }

  /** What the end of a sweep of the list of `x` changes. */
  ghost predicate SweptOf(s: State, s': State, t: Tid, x: Var) {
    && OnlyMoves(s, s', t) && s'.cbs == s.cbs
    && Owes(s'.threads[t]) == Owes(s.threads[t])
    && Announcers(s', x) == Announcers(s, x) && Deads(s', x) == Deads(s, x)
    && List(s', x) == List(s, x)
    && Sweeping(s.threads[t], x) && !Claims(s'.threads[t], x)
    && s.threads[t].gc.pos >= |List(s, x)|
  }

  lemma SweepsOf(s: State, t: Tid, s': State)
    requires EndsSweep(s, t, s') && OnlyMoves(s, s', t)
    ensures SweptOf(s, s', t, s.threads[t].todo[0])
  {
    hide OnlyMoves;
  }

  lemma SweptEnlisted(s: State, s': State, t: Tid, x: Var)
    requires SweptOf(s, s', t, x) && EnlistedOk(s, x)
    ensures EnlistedOk(s', x)
  {
    hide Owes, List, Distinct, Claims;
  }

  lemma SweptMutex(s: State, s': State, t: Tid, x: Var)
    requires SweptOf(s, s', t, x) && OneSweeper(s, x)
    ensures MutexFree(s', x) && Wanting(s', x) == Wanting(s, x)
  {
    hide Owes, List;
    assert forall u :: 0 <= u < |s.threads| && u != t ==> s'.threads[u] == s.threads[u];
  }

  lemma SweptAnnouncers(s: State, s': State, t: Tid, x: Var)
    requires SweptOf(s, s', t, x) && AnnouncersOk(s, x) && MutexFree(s', x)
    ensures AnnouncersOk(s', x)
  {
    hide Owes, List, Claims, MutexFree;
  }

  ghost function Listed(s: State, x: Var): set<CbId> {
    set c | c in List(s, x)
  }

  /** A sweep leaves at most `limit` blocks, dead or alive. */
  lemma SweptIsSmall(s: State, t: Tid, x: Var, limit: nat)
    requires SweepOk(s, x, limit) && t < |s.threads| && Sweeping(s.threads[t], x)
    requires s.threads[t].gc.pos >= |List(s, x)|
    ensures |Listed(s, x)| <= limit
  {
    var pos := s.threads[t].gc.pos;
    forall c | c in List(s, x) ensures c in MayStay(s, x, pos) {
      var i :| 0 <= i < |List(s, x)| && List(s, x)[i] == c;
    }
    hide MayStay, List;
    Smaller(Listed(s, x), MayStay(s, x, pos));
  }

  lemma SweptCount(s: State, s': State, t: Tid, x: Var, limit: nat)
    requires SweptOf(s, s', t, x) && SweepOk(s, x, limit) && CountOk(s, x, limit)
    requires MutexFree(s', x) && Wanting(s', x) == Wanting(s, x)
    ensures CountOk(s', x, limit) && OneSweeper(s', x) && SweepOk(s', x, limit)
  {
    SweptIsSmall(s, t, x, limit) by { hide Owes, MutexFree, Wanting; }
    Smaller(GarbageOf(s', x), Listed(s, x)) by { hide Owes, Claims, MutexFree, Wanting; }
    assert OneSweeper(s', x) && SweepOk(s', x, limit) by { hide List, Owes, MayStay, Wanting; }
    hide Owes, Wanting, GarbageOf, List, Claims, SweepOk, MutexFree, OneSweeper;
  }

  lemma SweptVar(s: State, s': State, t: Tid, x: Var, limit: nat)
    requires SweptOf(s, s', t, x) && VarOk(s, x, limit)
    ensures VarOk(s', x, limit)
  {
    hide SweptOf, EnlistedOk, AnnouncersOk, SweepOk, CountOk, OneSweeper, MutexFree, Wanting;
    SweptMutex(s, s', t, x);
    SweptEnlisted(s, s', t, x);
    SweptAnnouncers(s, s', t, x);
    SweptCount(s, s', t, x, limit);
  }

  lemma EndsSweepKeepsGarbage(s: State, t: Tid, s': State, limit: nat)
    requires GarbageInv(s, limit) && WaitInv(s) && EndsSweep(s, t, s')
    ensures GarbageInv(s', limit)
  {
    var x := s.threads[t].todo[0];
    hide GarbageInv, WaitInv, VarOk, OnlyMoves, Untouched, OwnerOk, SweptOf;
    OwnerFact(s, t, limit);
    VarFact(s, x, limit);
    EndsSweepFrame(s, t, s');
    SweepsOf(s, t, s');
    SweptVar(s, s', t, x, limit);
    hide EndsSweep;
    OneListKeeps(s, s', t, x, limit);
  }

  // Every run

  lemma InitGarbageInv(s: State, limit: nat)
    requires Init(s)
    ensures GarbageInv(s, limit)
  {
    forall x: Var ensures VarOk(s, x, limit) {
      assert List(s, x) == [] && GarbageOf(s, x) == {};
      assert MutexFree(s, x);
    }
  }

  lemma StepKeepsGarbageInv(s: State, a: Action, s': State, limit: nat)
    requires GarbageInv(s, limit) && WaitInv(s) && Step(s, a, s')
    requires a.Reset? ==> |s.threads| + |Probers(s)| <= limit
    ensures GarbageInv(s', limit)
  {
    hide GarbageInv, WaitInv, Outside, KeepsBlock, TouchesList, Probers, Step;
    if TouchesList(a) {
      ListStep(s, a, s', limit);
    } else if a.Check? || a.Block? || a.Poll? || a.Unparked? {
      KeptBlockStep(s, a, s');
      KeptBlockKeepsGarbage(s, s', a.t, limit);
    } else {
      OutsideStep(s, a, s');
      OutsideKeepsGarbage(s, s', a.t, limit);
    }
  }

  lemma KeptBlockStep(s: State, a: Action, s': State)
    requires WaitInv(s) && Step(s, a, s') && (a.Check? || a.Block? || a.Poll? || a.Unparked?)
    ensures KeepsBlock(s, s', a.t)
  {
    hide WaitInv, KeepsBlock, Checks, Blocks, Polls, IsUnparked;
    match a
    case Check(t) => ChecksKeepsBlock(s, t, s');
    case Poll(t) => PollsKeepsBlock(s, t, s');
    case _ => BlocksKeepsBlock(s, a.t, s');
  }

  predicate TouchesList(a: Action) {
    a.StartWait? || a.Register? || a.TakeList? || a.Announce? || a.Reset? || a.Probe? || a.Unprobe? || a.EndSweep?
    || a.DropBlock?
  }

  lemma ListStep(s: State, a: Action, s': State, limit: nat)
    requires GarbageInv(s, limit) && WaitInv(s) && Step(s, a, s') && TouchesList(a)
    requires a.Reset? ==> |s.threads| + |Probers(s)| <= limit
    ensures GarbageInv(s', limit)
  {
    hide GarbageInv, WaitInv, Probers, TakesList, StartsWait, Registers, Announces, Resets, Probes, Unprobes,
         EndsSweep, DropsBlock;
    if a.StartWait? {
      StartsWaitKeepsGarbage(s, a.t, s', limit);
    } else if a.Register? {
      RegistersKeepsGarbage(s, a.t, s', limit);
    } else if a.TakeList? {
      TakesListKeepsGarbage(s, a.t, s', limit);
    } else if a.Announce? {
      AnnouncesKeepsGarbage(s, a.t, s', limit);
    } else if a.Reset? {
      ResetsKeepsGarbage(s, a.t, s', limit);
    } else if a.Probe? {
      ProbesKeepsGarbage(s, a.t, s', limit);
    } else if a.Unprobe? {
      UnprobesKeepsGarbage(s, a.t, s', limit);
    } else if a.EndSweep? {
      EndsSweepKeepsGarbage(s, a.t, s', limit);
    } else {
      DropsBlockKeepsGarbage(s, a.t, s', limit);
    }
  }

  lemma OutsideStep(s: State, a: Action, s': State)
    requires Step(s, a, s')
    requires !TouchesList(a) && !a.Check? && !a.Block? && !a.Poll? && !a.Unparked?
    ensures Outside(s, s', a.t)
  {
    hide Outside, Begins, Loads, StartsCommit, LocksNext, Serializes, WritesBack, StartsWaking, Upgrades,
         SetsChanged, Unparks, Releases, Finishes, GivesUp, Reruns, WritesAtomic;
    match a
    case Begin(t, prog, depth) => RestartingOutside(s, t, s');
    case LoadVar(t) => RunningOutside(s, t, s');
    case StartCommit(t) => RunningOutside(s, t, s');
    case GiveUp(t) => RunningOutside(s, t, s');
    case Rerun(t) => RestartingOutside(s, t, s');
    case LockNext(t) => LocksNextOutside(s, t, s');
    case Upgrade(t) => UpgradesOutside(s, t, s');
    case SetChanged(t) => SetsChangedOutside(s, t, s');
    case Release(t) => WakingOutside(s, t, s');
    case Unpark(t) => WakingOutside(s, t, s');
    case WriteAtomic(t, x, v) => WritesAtomicOutside(s, t, s');
    case Serialize(t) => SerializesOutside(s, t, s');
    case WriteBack(t) => WritingOutside(s, t, s');
    case StartWaking(t) => WritingOutside(s, t, s');
    case Finish(t) => WakingOutside(s, t, s');
  }

  /** Whenever a sweep starts in this run, at most `k` others hold a reference to a block they test. */
  ghost predicate SweepsAmong(run: seq<State>, k: nat) {
    forall i :: 0 <= i < |run| - 1 && StartsSweep(run[i], run[i + 1]) ==> |Probers(run[i])| <= k
  }

  ghost predicate StartsSweep(s: State, s': State) {
    exists t :: Resets(s, t, s')
  }

  lemma {:induction false} RunKeepsGarbageInv(run: seq<State>, k: nat, i: nat)
    requires IsRun(run) && i < |run| && SweepsAmong(run, k)
    ensures |run[i].threads| == |run[0].threads| && GarbageInv(run[i], |run[0].threads| + k)
  {
    hide GarbageInv, WaitInv, Init, Step, Probers, Resets;
    if i == 0 {
      InitGarbageInv(run[0], |run[0].threads| + k);
    } else {
      RunKeepsGarbageInv(run, k, i - 1);
      RunKeepsWaitInv(run, i - 1);
      assert Next(run[i - 1], run[i]);
      var a :| Step(run[i - 1], a, run[i]);
      if a.Reset? {
        IsReset(run[i - 1], a, run[i]);
        assert StartsSweep(run[i - 1], run[i]);
      }
      StepExtends(run[i - 1], a, run[i]);
      StepKeepsGarbageInv(run[i - 1], a, run[i], |run[0].threads| + k);
    }
  }

  lemma IsReset(s: State, a: Action, s': State)
    requires Step(s, a, s') && a.Reset?
    ensures Resets(s, a.t, s')
  {
    hide Resets;
  }

  /** With N threads, in a run in which no sweep starts while more than `k` others test a block, the waiter
      list of a variable never holds more than 64 + 2N + k blocks that have been announced dead, each once,
      although the counter is increased while a sweep is under way, owners announce their blocks before they
      drop them, and a sweep keeps the block that it tests alive for another one. */
  lemma GarbageBoundAmong(run: seq<State>, k: nat, i: nat, x: Var)
    requires IsRun(run) && i < |run| && SweepsAmong(run, k)
    ensures Distinct(List(run[i], x))
    ensures |GarbageOf(run[i], x)| <= 64 + 2 * |run[i].threads| + k
  {
    hide IsRun, SweepsAmong, GarbageInv, VarOk;
    RunKeepsGarbageInv(run, k, i);
    VarFact(run[i], x, |run[0].threads| + k);
    CountBound(run[i], x, |run[0].threads| + k);
  }

  lemma CountBound(s: State, x: Var, limit: nat)
    requires VarOk(s, x, limit)
    ensures Distinct(List(s, x)) && |GarbageOf(s, x)| <= 64 + |s.threads| + limit
  {
    var tids := Tids(|s.threads|);
    assert Claimants(s, x) + Announcers(s, x) <= tids && Wanting(s, x) <= tids by {
      hide MutexFree, OneSweeper, GarbageOf, SweepOk, Distinct;
    }
    hide MutexFree, OneSweeper, GarbageOf, SweepOk, AnnouncersOk, Distinct, Tids, Claimants, Wanting;
    Smaller(Wanting(s, x), tids);
    Smaller(Claimants(s, x) + Announcers(s, x), tids);
  }

  /** In every reachable state there are at most 64 + 3N of them. */
  lemma GarbageBound(s: State, x: Var)
    requires Reachable(s)
    ensures Distinct(List(s, x))
    ensures |GarbageOf(s, x)| <= 64 + 3 * |s.threads|
  {
    var run := AnyRun(s);
    hide IsRun, SweepsAmong, Reachable;
    GarbageBoundAmong(run, |s.threads|, |run| - 1, x);
  }

  lemma AnyRun(s: State) returns (run: seq<State>)
    requires Reachable(s)
    ensures IsRun(run) && run[|run| - 1] == s && SweepsAmong(run, |s.threads|)
  {
    hide Init, Next;
    run :| IsRun(run) && run[|run| - 1] == s;
    hide StartsSweep;
    forall i | 0 <= i < |run| - 1 && StartsSweep(run[i], run[i + 1]) ensures |Probers(run[i])| <= |s.threads| {
      SameThreadCount(run, i, |run| - 1);
      FewProbers(run[i]);
    }
  }

  lemma FewProbers(s: State)
    ensures |Probers(s)| <= |s.threads|
  {
    Smaller(Probers(s), Tids(|s.threads|));
  }

  lemma {:induction false} SameThreadCount(run: seq<State>, i: nat, j: nat)
    requires IsRun(run) && i <= j < |run|
    ensures |run[i].threads| == |run[j].threads|
  {
    hide Init, Step;
    if i < j {
      SameThreadCount(run, i, j - 1);
      assert Next(run[j - 1], run[j]);
      var a :| Step(run[j - 1], a, run[j]);
      StepExtends(run[j - 1], a, run[j]);
    }
  }

  /** A sweep leaves at most 2N blocks on the list, and at most N + k in a run in which none starts while
      more than `k` others test a block. */
  lemma SweepLeavesFew(run: seq<State>, k: nat, i: nat, t: Tid)
    requires IsRun(run) && i < |run| - 1 && SweepsAmong(run, k) && EndsSweep(run[i], t, run[i + 1])
    ensures |Listed(run[i + 1], run[i].threads[t].todo[0])| <= |run[i].threads| + k
  {
    hide IsRun, SweepsAmong, GarbageInv, VarOk, SweepOk;
    var limit := |run[0].threads| + k;
    var x := run[i].threads[t].todo[0];
    RunKeepsGarbageInv(run, k, i);
    VarFact(run[i], x, limit);
    SweepFact(run[i], x, limit);
    SweptIsSmall(run[i], t, x, limit);
  }

  ghost function Tids(n: nat): (ts: set<Tid>)
    ensures |ts| == n
    ensures forall t :: t in ts <==> 0 <= t < n
  {
    if n == 0 then {} else Tids(n - 1) + {n - 1}
  }
}
