/** What whole runs deliver: each block is unparked once, each list of a commit is taken once, and sweeps
    wait for the counter. */
module Delivery {
  import opened Boxes
  import opened Sorting
  import opened Machine
  import opened CommitInvariant
  import CommitSteps
  import CommitUpdates
  import opened Serializability
  import opened WaitInvariant
  import opened StepLaws
  import opened Calls

  // One unpark per block

  /** At most one thread has to unpark a block, and that block is no longer blocked. */
  ghost predicate OneDuty(s: State) {
    && (forall u, v | 0 <= u < |s.threads| && 0 <= v < |s.threads| && u != v ::
          Unparking(s.threads[u]).Some? ==> Unparking(s.threads[v]) != Unparking(s.threads[u]))
    && (forall u | 0 <= u < |s.threads| && Unparking(s.threads[u]).Some? ::
          var c := Unparking(s.threads[u]).value; c < |s.cbs| && !s.cbs[c].blocked)
  }

  lemma StepKeepsOneDuty(s: State, a: Action, s': State)
    requires OneDuty(s) && Step(s, a, s')
    ensures OneDuty(s')
  {
    hide Step, Unparking, HeldRef, TokenLaw, ListLaw, CountLaw, CellLaw, HoldLaw;
    LawsHold(s, a, s');
  }

  lemma {:induction false} RunKeepsOneDuty(run: seq<State>, i: nat)
    requires IsRun(run) && i < |run|
    ensures OneDuty(run[i])
  {
    hide Step, OneDuty;
    if i == 0 {
      assert OneDuty(run[0]) by { NoDuties(run[0]); }
    } else {
      hide Init;
      RunKeepsOneDuty(run, i - 1);
      assert Next(run[i - 1], run[i]);
      var a :| Step(run[i - 1], a, run[i]);
      StepKeepsOneDuty(run[i - 1], a, run[i]);
    }
  }

  lemma NoDuties(s: State)
    requires Init(s)
    ensures OneDuty(s)
  {}

  /** The block has been informed, and nobody has to unpark its owner any more. */
  ghost predicate Served(s: State, c: CbId) {
    && c < |s.cbs| && !s.cbs[c].blocked
    && forall u | 0 <= u < |s.threads| :: Unparking(s.threads[u]) != Some(c)
  }

  lemma StepKeepsServed(s: State, a: Action, s': State, c: CbId)
    requires Served(s, c) && Step(s, a, s')
    ensures Served(s', c)
  {
    hide Step, Unparking, HeldRef, TokenLaw, ListLaw, CountLaw, CellLaw, HoldLaw;
    LawsHold(s, a, s');
  }

  lemma {:induction false} RunKeepsServed(run: seq<State>, i: nat, j: nat, c: CbId)
    requires IsRun(run) && i <= j < |run| && Served(run[i], c)
    ensures Served(run[j], c)
  {
    hide Step, Served, Init;
    if i < j {
      RunKeepsServed(run, i, j - 1, c);
      assert Next(run[j - 1], run[j]);
      var a :| Step(run[j - 1], a, run[j]);
      StepKeepsServed(run[j - 1], a, run[j], c);
    }
  }

  lemma UnparkServes(s: State, u: Tid, s': State)
    requires OneDuty(s) && Step(s, Unpark(u), s')
    ensures u < |s.threads| && Unparking(s.threads[u]).Some? && Served(s', Unparking(s.threads[u]).value)
  {
    hide Step, Unparking, HeldRef, TokenLaw, ListLaw, CountLaw, CellLaw, HoldLaw;
    LawsHold(s, Unpark(u), s');
    StepFits(s, Unpark(u), s');
  }

  /** In a whole run the owner of a block is unparked at most once on its account: no two unpark steps are
      for the same block, and at no time have two threads to do it. */
  lemma OneUnpark(run: seq<State>, i: nat, u: Tid, j: nat, v: Tid)
    requires IsRun(run) && i < j < |run| - 1
    requires Step(run[i], Unpark(u), run[i + 1]) && Step(run[j], Unpark(v), run[j + 1])
    ensures OneDuty(run[i]) && OneDuty(run[j]) && u < |run[i].threads| && v < |run[j].threads|
    ensures Unparking(run[i].threads[u]).Some? && Unparking(run[j].threads[v]).Some?
    ensures Unparking(run[i].threads[u]) != Unparking(run[j].threads[v])
  {
    hide IsRun, Step, Unparking, OneDuty;
    RunKeepsOneDuty(run, i);
    RunKeepsOneDuty(run, j);
    UnparkServes(run[i], u, run[i + 1]);
    UnparkServes(run[j], v, run[j + 1]);
    RunKeepsServed(run, i + 1, j, Unparking(run[i].threads[u]).value);
  }

  // Each list of a commit is taken once

  /** A committer sets out to take the lists of exactly the variables it wrote; each step of it takes one list,
      which is empty from then on, and crosses it off, or leaves what is to do alone; it is done when nothing
      is left. */
  ghost predicate WakeMove(s: State, a: Action, s': State) {
    var ph, ph' := Mover(s, a), Mover(s', a);
    && (a.StartWaking? ==>
          && ph.Writing? && ph.index < |s.history|
          && WakeVars(ph') == s.history[ph.index].writes.Keys && Taken(ph') == [])
    && (a.TakeList? ==>
          exists x | x in WakeVars(ph) ::
            WakeVars(ph') == WakeVars(ph) - {x} && Taken(ph) == [] && Taken(ph') == List(s, x) && List(s', x) == [])
    && (a.Upgrade? || a.SetChanged? || a.Unpark? || a.Release? ==> WakeVars(ph') == WakeVars(ph))
    && (a.Finish? ==> WakeVars(ph) == {} && Taken(ph) == [] && Unparking(ph) == None)
  }

  lemma StartsWakingMoves(s: State, t: Tid, s': State)
    requires CommitInv(s) && StartsWaking(s, t, s')
    ensures WakeMove(s, Action.StartWaking(t), s')
  {
    hide CommitInv, Ascending;
    CommitUpdates.WritingFact(s, t);
    var ph := s.threads[t];
    assert ph.written + ph.todo == ph.written;
  }

  lemma WakingAscends(s: State, t: Tid)
    requires CommitInv(s) && t < |s.threads| && s.threads[t].Waking?
    ensures Ascending(s.threads[t].todo)
  {
    hide CommitInv, FailuresOk, Ascending;
    CommitSteps.PhaseFact(s, t);
  }

  lemma TakesListMoves(s: State, t: Tid, s': State)
    requires CommitInv(s) && TakesList(s, t, s')
    ensures WakeMove(s, TakeList(t), s')
  {
    hide CommitInv, MutexFree;
    WakingAscends(s, t);
    var ph, ph' := s.threads[t], s'.threads[t];
    var x := ph.todo[0];
    assert ph.todo == [x] + ph.todo[1..] && x !in ph.todo[1..];
    assert WakeVars(ph') == WakeVars(ph) - {x};
    hide Ascending;
  }

  lemma InformsMoves(s: State, a: Action, s': State)
    requires a.SetChanged? ==> SetsChanged(s, a.t, s')
    requires a.Unpark? ==> Unparks(s, a.t, s')
    requires a.SetChanged? || a.Unpark?
    ensures WakeMove(s, a, s')
  {}

  lemma UpgradesMoves(s: State, a: Action, s': State)
    requires a.Upgrade? ==> Upgrades(s, a.t, s')
    requires a.Release? ==> Releases(s, a.t, s')
    requires a.Finish? ==> Finishes(s, a.t, s')
    requires a.Upgrade? || a.Release? || a.Finish?
    ensures WakeMove(s, a, s')
  {
    hide Upgradable;
  }

  lemma WakeMoves(s: State, a: Action, s': State)
    requires Reachable(s) && Step(s, a, s')
    ensures WakeMove(s, a, s')
  {
    hide Reachable, CommitInv, StartsWaking, TakesList, Upgrades, SetsChanged, Unparks, Releases, Finishes;
    ReachableCommitInv(s);
    if a.StartWaking? {
      hide WakeMove;
      StartsWakingMoves(s, a.t, s');
    } else if a.TakeList? {
      hide WakeMove;
      TakesListMoves(s, a.t, s');
    } else if a.SetChanged? || a.Unpark? {
      hide WakeMove;
      InformsMoves(s, a, s');
    } else if a.Upgrade? || a.Release? || a.Finish? {
      hide WakeMove;
      UpgradesMoves(s, a, s');
    } else {
      hide Step;
    }
  }

  // When sweeps start

  ghost predicate AnnouncedIn(s: State, s': State, x: Var) {
    exists t :: Step(s, Announce(t), s') && Mover(s, Announce(t)).Cleaning? && Mover(s, Announce(t)).todo != []
                && Mover(s, Announce(t)).todo[0] == x
  }

  ghost predicate ResetIn(s: State, s': State, x: Var) {
    exists t :: Step(s, Action.Reset(t), s') && Claims(Mover(s, Action.Reset(t)), x)
  }

  /** How many blocks have been announced dead to `x` since the last sweep of its list started. */
  ghost function SinceReset(run: seq<State>, x: Var, i: nat): nat
    requires i < |run|
  {
    if i == 0 then 0
    else if ResetIn(run[i - 1], run[i], x) then 0
    else SinceReset(run, x, i - 1) + if AnnouncedIn(run[i - 1], run[i], x) then 1 else 0
  }

  lemma CountStep(s: State, a: Action, s': State, x: Var)
    requires Step(s, a, s')
    ensures Deads(s', x) == if ResetIn(s, s', x) then 0
                            else Deads(s, x) + if AnnouncedIn(s, s', x) then 1 else 0
  {
    hide Step, Deads, TokenLaw, BlockLaw, DutyLaw, ListLaw, CellLaw, HoldLaw, Mover, Claims;
    LawsHold(s, a, s');
    if ResetIn(s, s', x) {
      var t :| Step(s, Action.Reset(t), s') && Claims(Mover(s, Action.Reset(t)), x);
      LawsHold(s, Action.Reset(t), s');
    } else if AnnouncedIn(s, s', x) {
      var t :| Step(s, Announce(t), s') && Mover(s, Announce(t)).Cleaning? && Mover(s, Announce(t)).todo != []
               && Mover(s, Announce(t)).todo[0] == x;
      LawsHold(s, Announce(t), s');
    }
  }

  /** The counter counts exactly that. */
  lemma {:induction false} CounterCounts(run: seq<State>, x: Var, i: nat)
    requires IsRun(run) && i < |run|
    ensures Deads(run[i], x) == SinceReset(run, x, i)
  {
    hide Step, AnnouncedIn, ResetIn;
    if i > 0 {
      hide Init;
      CounterCounts(run, x, i - 1);
      assert Next(run[i - 1], run[i]);
      var a :| Step(run[i - 1], a, run[i]);
      CountStep(run[i - 1], a, run[i], x);
    }
  }

  lemma AnnounceClaims(s: State, t: Tid, s': State, x: Var)
    requires Announces(s, t, s')
    ensures Claims(s'.threads[t], x) <==> s.threads[t].todo[0] == x && Deads(s, x) >= 64
  {}

  lemma OnlyAnnounceClaims(s: State, a: Action, s': State, x: Var)
    requires Step(s, a, s') && IsCleaning(a) && !a.Announce? && Claims(Mover(s', a), x)
    ensures Claims(Mover(s, a), x)
  {
    hide Resets, Probes, Unprobes, EndsSweep, DropsBlock, Claims;
    StepFits(s, a, s');
    StepExtends(s, a, s');
    if a.Reset? || a.Probe? {
      ResetOrProbeClaims(s, a.t, s', x);
    } else {
      UnprobeClaims(s, a.t, s', x);
    }
  }

  lemma ResetOrProbeClaims(s: State, t: Tid, s': State, x: Var)
    requires Resets(s, t, s') || Probes(s, t, s')
    ensures Claims(s'.threads[t], x) <==> Claims(s.threads[t], x)
  {
    hide MutexFree, Upgradable, List;
  }

  lemma UnprobeClaims(s: State, t: Tid, s': State, x: Var)
    requires Unprobes(s, t, s') || EndsSweep(s, t, s') || DropsBlock(s, t, s')
    ensures Claims(s'.threads[t], x) ==> Claims(s.threads[t], x)
  {
    hide List;
  }

  lemma OthersDoNotClaim(s: State, a: Action, s': State, x: Var)
    requires Step(s, a, s') && !Mover(s, a).Cleaning?
    ensures !Claims(Mover(s', a), x)
  {
    hide Step, Holds, RunOf, List;
    StepFits(s, a, s');
    StepExtends(s, a, s');
    if InWait(Mover(s, a)) {
      WaitMoves(s, a, s');
    } else {
      StaysOut(s, a, s');
    }
  }

  lemma StaysOut(s: State, a: Action, s': State)
    requires Step(s, a, s') && !Mover(s, a).Cleaning? && !InWait(Mover(s, a))
    ensures !Mover(s', a).Cleaning?
  {
    hide Step;
    StepFits(s, a, s');
    if a.Begin? || a.WriteAtomic? || a.LoadVar? || a.StartCommit? || a.GiveUp? || a.Rerun? || a.StartWait? {
      CallStaysOut(s, a, s');
    } else if a.LockNext? || a.Serialize? || a.WriteBack? || a.StartWaking? || a.TakeList? {
      CommitStaysOut(s, a, s');
    } else if a.Finish? || a.Release? || a.Upgrade? {
      WakingStaysOut(s, a, s');
    } else {
      InformingStaysOut(s, a, s');
    }
  }

  lemma CallStaysOut(s: State, a: Action, s': State)
    requires Step(s, a, s')
    requires a.Begin? || a.WriteAtomic? || a.LoadVar? || a.StartCommit? || a.GiveUp? || a.Rerun? || a.StartWait?
    ensures !Mover(s', a).Cleaning?
  {
    hide RunOf, NoWriter, NoHolder, WaitKeys;
  }

  lemma CommitStaysOut(s: State, a: Action, s': State)
    requires Step(s, a, s')
    requires a.LockNext? || a.Serialize? || a.WriteBack? || a.StartWaking? || a.TakeList?
    ensures !Mover(s', a).Cleaning?
  {
    hide MutexFree, CanLock, Stale, List;
  }

  lemma WakingStaysOut(s: State, a: Action, s': State)
    requires Step(s, a, s') && (a.Upgrade? || a.Release? || a.Finish?)
    ensures !Mover(s', a).Cleaning?
  {
    hide Upgradable, List;
  }

  lemma InformingStaysOut(s: State, a: Action, s': State)
    requires Step(s, a, s') && (a.SetChanged? || a.Unpark?)
    ensures !Mover(s', a).Cleaning?
  {}

  /** A thread sets out to sweep a list exactly when it announces a block dead and at least 64 have been
      announced before it since the last sweep started. */
  lemma SweepsWhenFull(run: seq<State>, i: nat, a: Action, x: Var)
    requires IsRun(run) && i < |run| - 1 && Step(run[i], a, run[i + 1]) && !Claims(Mover(run[i], a), x)
    ensures Claims(Mover(run[i + 1], a), x)
            <==> a.Announce? && Mover(run[i], a).Cleaning? && Mover(run[i], a).todo != []
                 && Mover(run[i], a).todo[0] == x && SinceReset(run, x, i) >= 64
  {
    hide IsRun, Announces, SinceReset, Claims, Deads;
    CounterCounts(run, x, i);
    StepFits(run[i], a, run[i + 1]);
    StepExtends(run[i], a, run[i + 1]);
    if a.Announce? {
      assert Announces(run[i], a.t, run[i + 1]);
      AnnounceFits(run[i], a.t, run[i + 1]);
      AnnounceClaims(run[i], a.t, run[i + 1], x);
    } else if Mover(run[i], a).Cleaning? {
      hide Step;
      FitsCleaning(a, Mover(run[i], a));
      if Claims(Mover(run[i + 1], a), x) { OnlyAnnounceClaims(run[i], a, run[i + 1], x); }
    } else {
      hide Step;
      OthersDoNotClaim(run[i], a, run[i + 1], x);
    }
  }

  lemma AnnounceFits(s: State, t: Tid, s': State)
    requires Announces(s, t, s')
    ensures t < |s.threads| && s.threads[t].Cleaning? && s.threads[t].todo != []
  {}

  lemma FitsCleaning(a: Action, ph: Phase)
    requires Fits(a, ph) && ph.Cleaning?
    ensures IsCleaning(a)
  {}
}
