/** What a single step may change, and when, told by its effect and not by the code of the step. */
module StepLaws {
  import opened Boxes
  import opened LogVars
  import opened Programs
  import opened Machine
  import opened WaitInvariant

  /** The phase of the thread that moves. */
  ghost function Mover(s: State, a: Action): Phase {
    if a.t < |s.threads| then s.threads[a.t] else Idle
  }

  /** Park tokens: one appears only by an unpark of a block of the thread, and goes only when the thread's
      park consumes it. */
  ghost predicate TokenLaw(s: State, a: Action, s': State) {
    && |s'.tokens| == |s.tokens|
    && (forall u :: 0 <= u < |s.tokens| && s'.tokens[u] && !s.tokens[u] ==>
          a.Unpark? && exists c :: 0 <= c < |s.cbs| && Unparking(Mover(s, a)) == Some(c) && s.cbs[c].owner == u)
    && (forall u :: 0 <= u < |s.tokens| && s.tokens[u] && !s'.tokens[u] ==> a == Unparked(u, false))
    && (a.Unparked? && !a.spurious && a.t < |s.tokens| ==> s.tokens[a.t] && !s'.tokens[a.t])
  }

  /** Blocks: one is made by its owner's retry, unblocked by a waker that has it in its grip, announced and
      dropped by its owner. */
  ghost predicate BlockLaw(s: State, a: Action, s': State) {
    && |s.cbs| <= |s'.cbs| <= |s.cbs| + (if a.StartWait? then 1 else 0)
    && (forall c :: 0 <= c < |s.cbs| ==> s'.cbs[c].owner == s.cbs[c].owner)
    && (forall c :: 0 <= c < |s.cbs| && s'.cbs[c].blocked != s.cbs[c].blocked ==>
          s.cbs[c].blocked && a.SetChanged? && HeldRef(Mover(s, a)) == Some(c))
    && (forall c :: 0 <= c < |s.cbs| && a.SetChanged? && HeldRef(Mover(s, a)) == Some(c) ==> !s'.cbs[c].blocked)
    && (forall c :: 0 <= c < |s.cbs| && s'.cbs[c].alive != s.cbs[c].alive ==>
          s.cbs[c].alive && a.DropBlock? && Mover(s, a).Cleaning? && Mover(s, a).cb == c && Mover(s, a).todo == [])
    && (forall c :: 0 <= c < |s.cbs| && s'.cbs[c].announced != s.cbs[c].announced ==>
          && a.Announce? && Mover(s, a).Cleaning? && Mover(s, a).cb == c && Mover(s, a).todo != []
          && s'.cbs[c].announced == s.cbs[c].announced + {Mover(s, a).todo[0]})
  }

  /** The duty to unpark: a waker takes it up exactly when its swap finds the block blocked. */
  ghost predicate DutyLaw(s: State, a: Action, s': State) {
    && |s'.threads| == |s.threads|
    && (forall u | 0 <= u < |s.threads| && Unparking(s'.threads[u]) != Unparking(s.threads[u]) ::
          && u == a.t
          && (Unparking(s'.threads[u]).Some? ==> TakesDuty(s, a, Unparking(s'.threads[u]).value))
          && (Unparking(s'.threads[u]).None? ==> a.Unpark?))
    && (forall c :: 0 <= c < |s.cbs| && TakesDuty(s, a, c) ==> Unparking(Mover(s', a)) == Some(c))
    && (a.Unpark? ==> Unparking(Mover(s, a)).Some? && Unparking(Mover(s', a)).None?)
  }

  /** The swap finds the block blocked. */
  ghost predicate TakesDuty(s: State, a: Action, c: CbId) {
    a.SetChanged? && HeldRef(Mover(s, a)) == Some(c) && c < |s.cbs| && s.cbs[c].blocked
  }

  /** Waiter lists, of which nobody else changes one that is being swept: registering appends the thread's
      block to one list, taking empties one, and a sweep removes from one the entry that it tests, exactly if
      no strong reference to it is left. */
  ghost predicate ListLaw(s: State, a: Action, s': State) {
    && (forall x: Var :: List(s', x) != List(s, x) ==>
          Enlists(s, a, s', x) || Empties(s, a, s', x) || Removes(s, a, s', x))
    && (a.Register? ==> exists x: Var :: Enlists(s, a, s', x))
    && (a.TakeList? ==> exists x: Var :: Empties(s, a, s', x))
    && (a.Probe? ==> exists x: Var :: Removes(s, a, s', x) || Keeps(s, a, s', x))
  }

  ghost predicate Enlists(s: State, a: Action, s': State, x: Var) {
    && MutexFree(s, x) && a.Register? && Mover(s, a).Registering?
    && Mover(s, a).todo != [] && Mover(s, a).todo[0] == x
    && List(s', x) == List(s, x) + [Mover(s, a).cb]
  }

  /** Everything that was on the list is in the hands of the committer, who wrote the variable. */
  ghost predicate Empties(s: State, a: Action, s': State, x: Var) {
    && MutexFree(s, x) && a.TakeList? && x in WakeVars(Mover(s, a))
    && List(s', x) == [] && Taken(Mover(s', a)) == List(s, x)
  }

  ghost predicate Removes(s: State, a: Action, s': State, x: Var) {
    && a.Probe? && Sweeping(Mover(s, a), x)
    && var i := Mover(s, a).gc.pos;
       && i < |List(s, x)| && List(s, x)[i] < |s.cbs| && !Upgradable(s, List(s, x)[i])
       && List(s', x) == List(s, x)[..i] + List(s, x)[i + 1..]
  }

  /** The entry that the sweep tests stays, and is kept alive meanwhile. */
  ghost predicate Keeps(s: State, a: Action, s': State, x: Var) {
    && a.Probe? && Sweeping(Mover(s, a), x)
    && var i := Mover(s, a).gc.pos;
       && i < |List(s, x)| && List(s, x)[i] < |s.cbs| && Upgradable(s, List(s, x)[i])
       && List(s', x) == List(s, x) && HeldRef(Mover(s', a)) == Some(List(s, x)[i])
  }

  /** Strong references other than the owner's: a waker gets one to the next block that it has taken exactly
      if there still is one, and nobody gets one otherwise but a sweep to the entry that it tests. */
  ghost predicate HoldLaw(s: State, a: Action, s': State) {
    var ph, ph' := Mover(s, a), Mover(s', a);
    && (a.Upgrade? ==>
          && ph.Waking? && ph.taken != [] && ph.taken[0] < |s.cbs|
          && HeldRef(ph') == if Upgradable(s, ph.taken[0]) then Some(ph.taken[0]) else None)
    && (HeldRef(ph').Some? && HeldRef(ph') != HeldRef(ph) ==>
          (a.Upgrade? || a.Probe?) && HeldRef(ph').value < |s.cbs| && Upgradable(s, HeldRef(ph').value))
    && (a.Release? || a.Unprobe? ==> HeldRef(ph).Some? && HeldRef(ph').None?)
    && (a.SetChanged? || a.Unpark? ==> HeldRef(ph).Some? && HeldRef(ph') == HeldRef(ph))
  }

  /** Dead counters: one goes up by one when a block is announced, and to zero when a sweep starts. */
  ghost predicate CountLaw(s: State, a: Action, s': State) {
    forall x: Var :: Deads(s', x)
      == if a.Announce? && Mover(s, a).Cleaning? && Mover(s, a).todo != [] && Mover(s, a).todo[0] == x then
           Deads(s, x) + 1
         else if a.Reset? && Claims(Mover(s, a), x) then 0
         else Deads(s, x)
  }

  /** Variables: only a write-back of a serialized update and a write outside transactions store anything,
      each what it has recorded. */
  ghost predicate CellLaw(s: State, a: Action, s': State) {
    forall x: Var :: s'.cells[x] != s.cells[x] ==>
      || (a.WriteBack? && x in Unwritten(Mover(s, a)) && Mover(s, a).index < |s.history|
          && x in s.history[Mover(s, a).index].writes && s'.cells[x] == s.history[Mover(s, a).index].writes[x])
      || (a.WriteAtomic? && a.x == x && s'.cells[x].val == a.v)
  }

  ghost predicate Laws(s: State, a: Action, s': State) {
    && TokenLaw(s, a, s') && BlockLaw(s, a, s') && DutyLaw(s, a, s')
    && ListLaw(s, a, s') && CountLaw(s, a, s') && CellLaw(s, a, s') && HoldLaw(s, a, s')
  }

  // The steps that touch each of these

  predicate TouchesLists(a: Action) { a.Register? || a.TakeList? || a.Probe? }

  predicate TouchesCounts(a: Action) { a.Announce? || a.Reset? }

  predicate TouchesBlocks(a: Action) { a.StartWait? || a.SetChanged? || a.Announce? || a.DropBlock? }

  predicate TouchesTokens(a: Action) { a.Unpark? || a.Unparked? }

  predicate TouchesCells(a: Action) { a.WriteBack? || a.WriteAtomic? }

  predicate TouchesDuties(a: Action) { a.SetChanged? || a.Unpark? }

  /** What the step does not touch it leaves alone. */
  ghost predicate Stays(s: State, a: Action, s': State) {
    && a.t < |s.threads| == |s'.threads| && |s'.tokens| == |s.tokens|
    && (forall u :: 0 <= u < |s.threads| && u != a.t ==> s'.threads[u] == s.threads[u])
    && (!TouchesLists(a) ==> s'.waiters == s.waiters) && (!TouchesCounts(a) ==> s'.dead == s.dead)
    && (!TouchesBlocks(a) ==> s'.cbs == s.cbs) && (!TouchesTokens(a) ==> s'.tokens == s.tokens)
    && (!TouchesCells(a) ==> s'.cells == s.cells)
    && (!TouchesDuties(a) ==> Unparking(s'.threads[a.t]) == Unparking(s.threads[a.t]))
  }

  lemma LoadVarStays(s: State, t: Tid, s': State)
    requires Machine.Loads(s, t, s')
    ensures Stays(s, Action.LoadVar(t), s')
  {
    hide RunOf, NoWriter;
  }

  lemma StartCommitStays(s: State, t: Tid, s': State)
    requires StartsCommit(s, t, s')
    ensures Stays(s, Action.StartCommit(t), s')
  {
    hide RunOf;
  }

  lemma GiveUpStays(s: State, t: Tid, s': State)
    requires GivesUp(s, t, s')
    ensures Stays(s, Action.GiveUp(t), s')
  {
    hide RunOf;
  }

  lemma RerunStays(s: State, t: Tid, s': State)
    requires Reruns(s, t, s')
    ensures Stays(s, Action.Rerun(t), s')
  {
    hide RunOf;
  }

  lemma StartWaitStays(s: State, t: Tid, s': State)
    requires StartsWait(s, t, s')
    ensures Stays(s, Action.StartWait(t), s')
  {
    hide RunOf, WaitKeys;
  }

  lemma LockNextStays(s: State, t: Tid, s': State)
    requires LocksNext(s, t, s')
    ensures Stays(s, Action.LockNext(t), s')
  {
    hide CanLock, Stale;
    assert Unparking(s.threads[t]) == None && Unparking(s'.threads[t]) == None;
    hide Unparking, Locked;
  }

  lemma SerializeStays(s: State, t: Tid, s': State)
    requires Serializes(s, t, s')
    ensures Stays(s, Action.Serialize(t), s')
  {
    hide Writes;
  }

  lemma WriteBackStays(s: State, t: Tid, s': State)
    requires WritesBack(s, t, s')
    ensures Stays(s, Action.WriteBack(t), s')
  {}

  lemma StartWakingStays(s: State, t: Tid, s': State)
    requires StartsWaking(s, t, s')
    ensures Stays(s, Action.StartWaking(t), s')
  {}

  lemma FinishStays(s: State, t: Tid, s': State)
    requires Finishes(s, t, s')
    ensures Stays(s, Action.Finish(t), s')
  {}

  lemma TakeListStays(s: State, t: Tid, s': State)
    requires TakesList(s, t, s')
    ensures Stays(s, Action.TakeList(t), s')
  {
    hide MutexFree;
  }

  lemma UpgradeStays(s: State, t: Tid, s': State)
    requires Upgrades(s, t, s')
    ensures Stays(s, Action.Upgrade(t), s')
  {
    hide Upgradable;
  }

  lemma SetChangedStays(s: State, t: Tid, s': State)
    requires SetsChanged(s, t, s')
    ensures Stays(s, Action.SetChanged(t), s')
  {}

  lemma UnparkStays(s: State, t: Tid, s': State)
    requires Unparks(s, t, s')
    ensures Stays(s, Action.Unpark(t), s')
  {}

  lemma ReleaseStays(s: State, t: Tid, s': State)
    requires Releases(s, t, s')
    ensures Stays(s, Action.Release(t), s')
  {}

  lemma RegisterStays(s: State, t: Tid, s': State)
    requires Registers(s, t, s')
    ensures Stays(s, Action.Register(t), s')
  {
    hide MutexFree;
  }

  lemma CheckStays(s: State, t: Tid, s': State)
    requires Checks(s, t, s')
    ensures Stays(s, Action.Check(t), s')
  {
    hide NoWriter, Observed;
  }

  lemma BlockStays(s: State, t: Tid, s': State)
    requires Machine.Blocks(s, t, s')
    ensures Stays(s, Action.Block(t), s')
  {}

  lemma PollStays(s: State, t: Tid, s': State)
    requires Polls(s, t, s')
    ensures Stays(s, Action.Poll(t), s')
  {}

  lemma AnnounceStays(s: State, t: Tid, s': State)
    requires Announces(s, t, s')
    ensures Stays(s, Action.Announce(t), s')
  {}

  lemma ResetStays(s: State, t: Tid, s': State)
    requires Resets(s, t, s')
    ensures Stays(s, Action.Reset(t), s')
  {
    hide MutexFree;
  }

  lemma ProbeStays(s: State, t: Tid, s': State)
    requires Probes(s, t, s')
    ensures Stays(s, Action.Probe(t), s')
  {
    hide Upgradable, Without;
  }

  lemma UnprobeStays(s: State, t: Tid, s': State)
    requires Unprobes(s, t, s')
    ensures Stays(s, Action.Unprobe(t), s')
  {}

  lemma EndSweepStays(s: State, t: Tid, s': State)
    requires EndsSweep(s, t, s')
    ensures Stays(s, Action.EndSweep(t), s')
  {
    hide List;
  }

  lemma DropBlockStays(s: State, t: Tid, s': State)
    requires DropsBlock(s, t, s')
    ensures Stays(s, Action.DropBlock(t), s')
  {}

  lemma BeginStays(s: State, t: Tid, prog: Prog, depth: nat, s': State)
    requires Begins(s, t, prog, depth, s')
    ensures Stays(s, Begin(t, prog, depth), s')
  {}

  lemma UnparkedStays(s: State, t: Tid, spurious: bool, s': State)
    requires IsUnparked(s, t, spurious, s')
    ensures Stays(s, Unparked(t, spurious), s')
  {}

  lemma WriteAtomicStays(s: State, t: Tid, x: Var, v: Val, s': State)
    requires WritesAtomic(s, t, x, v, s')
    ensures Stays(s, Action.WriteAtomic(t, x, v), s')
  {
    hide NoHolder;
  }

  lemma RunningStays(s: State, a: Action, s': State)
    requires Step(s, a, s')
    requires a.LoadVar? || a.StartCommit? || a.GiveUp? || a.Rerun? || a.StartWait?
    ensures Stays(s, a, s')
  {
    hide Stays, Loads, StartsCommit, GivesUp, Reruns, StartsWait;
    if a.LoadVar? {
      LoadVarStays(s, a.t, s');
    } else if a.StartCommit? {
      StartCommitStays(s, a.t, s');
    } else if a.GiveUp? {
      GiveUpStays(s, a.t, s');
    } else if a.Rerun? {
      RerunStays(s, a.t, s');
    } else {
      StartWaitStays(s, a.t, s');
    }
  }

  lemma CommittingStays(s: State, a: Action, s': State)
    requires Step(s, a, s')
    requires a.LockNext? || a.Serialize? || a.WriteBack? || a.StartWaking? || a.Finish?
    ensures Stays(s, a, s')
  {
    hide Stays, LocksNext, Serializes, WritesBack, StartsWaking, Finishes;
    if a.LockNext? {
      LockNextStays(s, a.t, s');
    } else if a.Serialize? {
      SerializeStays(s, a.t, s');
    } else if a.WriteBack? {
      WriteBackStays(s, a.t, s');
    } else if a.StartWaking? {
      StartWakingStays(s, a.t, s');
    } else {
      FinishStays(s, a.t, s');
    }
  }

  lemma WakingStays(s: State, a: Action, s': State)
    requires Step(s, a, s')
    requires a.TakeList? || a.Upgrade? || a.SetChanged? || a.Unpark? || a.Release?
    ensures Stays(s, a, s')
  {
    hide Stays, TakesList, Upgrades, SetsChanged, Unparks, Releases;
    if a.TakeList? {
      TakeListStays(s, a.t, s');
    } else if a.Upgrade? {
      UpgradeStays(s, a.t, s');
    } else if a.SetChanged? {
      SetChangedStays(s, a.t, s');
    } else if a.Unpark? {
      UnparkStays(s, a.t, s');
    } else {
      ReleaseStays(s, a.t, s');
    }
  }

  lemma WaitingStays(s: State, a: Action, s': State)
    requires Step(s, a, s')
    requires a.Register? || a.Check? || a.Block? || a.Poll?
    ensures Stays(s, a, s')
  {
    hide Stays, Registers, Checks, Blocks, Polls;
    if a.Register? {
      RegisterStays(s, a.t, s');
    } else if a.Check? {
      CheckStays(s, a.t, s');
    } else if a.Block? {
      BlockStays(s, a.t, s');
    } else {
      PollStays(s, a.t, s');
    }
  }

  lemma CleaningStays(s: State, a: Action, s': State)
    requires Step(s, a, s')
    requires a.Announce? || a.Reset? || a.Probe? || a.Unprobe? || a.EndSweep? || a.DropBlock?
    ensures Stays(s, a, s')
  {
    hide Stays, Announces, Resets, Probes, Unprobes, EndsSweep, DropsBlock;
    if a.Announce? {
      AnnounceStays(s, a.t, s');
    } else if a.Reset? {
      ResetStays(s, a.t, s');
    } else if a.Probe? {
      ProbeStays(s, a.t, s');
    } else if a.Unprobe? {
      UnprobeStays(s, a.t, s');
    } else if a.EndSweep? {
      EndSweepStays(s, a.t, s');
    } else {
      DropBlockStays(s, a.t, s');
    }
  }

  lemma OtherStays(s: State, a: Action, s': State)
    requires Step(s, a, s')
    requires a.Begin? || a.Unparked? || a.WriteAtomic?
    ensures Stays(s, a, s')
  {
    hide Stays, Begins, IsUnparked, WritesAtomic;
    if a.Begin? {
      BeginStays(s, a.t, a.prog, a.depth, s');
    } else if a.Unparked? {
      UnparkedStays(s, a.t, a.spurious, s');
    } else {
      WriteAtomicStays(s, a.t, a.x, a.v, s');
    }
  }

  lemma StepStays(s: State, a: Action, s': State)
    requires Step(s, a, s')
    ensures Stays(s, a, s')
  {
    hide Step, Stays;
    if a.LoadVar? || a.StartCommit? || a.GiveUp? || a.Rerun? || a.StartWait? {
      RunningStays(s, a, s');
    } else if a.LockNext? || a.Serialize? || a.WriteBack? || a.StartWaking? || a.Finish? {
      CommittingStays(s, a, s');
    } else if a.TakeList? || a.Upgrade? || a.SetChanged? || a.Unpark? || a.Release? {
      WakingStays(s, a, s');
    } else if a.Register? || a.Check? || a.Block? || a.Poll? {
      WaitingStays(s, a, s');
    } else if a.Announce? || a.Reset? || a.Probe? || a.Unprobe? || a.EndSweep? || a.DropBlock? {
      CleaningStays(s, a, s');
    } else {
      OtherStays(s, a, s');
    }
  }

  // One law at a time

  lemma Lists(s: State, a: Action, s': State)
    requires Step(s, a, s') && Stays(s, a, s')
    ensures ListLaw(s, a, s')
  {
    hide ListLaw, Registers, TakesList, Probes;
    if a.Register? {
      RegisterLists(s, a, s');
    } else if a.TakeList? {
      TakeLists(s, a, s');
    } else if a.Probe? {
      ProbeLists(s, a, s');
    } else {
      hide Step;
      ListsStay(s, a, s');
    }
  }

  lemma ListsStay(s: State, a: Action, s': State)
    requires Stays(s, a, s') && !TouchesLists(a)
    ensures ListLaw(s, a, s')
  {
    assert forall x: Var :: List(s', x) == List(s, x);
    hide List, Stays;
  }

  lemma RegisterLists(s: State, a: Action, s': State)
    requires a.Register? && Registers(s, a.t, s')
    ensures ListLaw(s, a, s')
  {
    assert MutexFree(s, Mover(s, a).todo[0]);
    hide MutexFree;
    assert Enlists(s, a, s', Mover(s, a).todo[0]);
  }

  lemma TakeLists(s: State, a: Action, s': State)
    requires a.TakeList? && TakesList(s, a.t, s')
    ensures ListLaw(s, a, s')
  {
    assert MutexFree(s, Mover(s, a).todo[0]);
    hide MutexFree;
    assert Empties(s, a, s', Mover(s, a).todo[0]);
  }

  lemma ProbeLists(s: State, a: Action, s': State)
    requires a.Probe? && Probes(s, a.t, s')
    ensures ListLaw(s, a, s')
  {
    hide Upgradable;
    var x := Mover(s, a).todo[0];
    assert Removes(s, a, s', x) || Keeps(s, a, s', x);
    assert forall y: Var :: y != x ==> List(s', y) == List(s, y);
    hide List, Removes, Keeps;
  }

  lemma Counts(s: State, a: Action, s': State)
    requires Step(s, a, s') && Stays(s, a, s')
    ensures CountLaw(s, a, s')
  {
    hide CountLaw, Announces, Resets;
    if a.Announce? {
      AnnounceCounts(s, a, s');
    } else if a.Reset? {
      ResetCounts(s, a, s');
    } else {
      hide Step;
      CountsStay(s, a, s');
    }
  }

  lemma CountsStay(s: State, a: Action, s': State)
    requires Stays(s, a, s') && !TouchesCounts(a)
    ensures CountLaw(s, a, s')
  {
    assert forall x: Var :: Deads(s', x) == Deads(s, x);
    hide Deads, Stays;
  }

  lemma AnnounceCounts(s: State, a: Action, s': State)
    requires a.Announce? && Announces(s, a.t, s')
    ensures CountLaw(s, a, s')
  {}

  lemma ResetCounts(s: State, a: Action, s': State)
    requires a.Reset? && Resets(s, a.t, s')
    ensures CountLaw(s, a, s')
  {
    hide MutexFree;
  }

  lemma Blockings(s: State, a: Action, s': State)
    requires Step(s, a, s') && Stays(s, a, s')
    ensures BlockLaw(s, a, s')
  {
    hide BlockLaw, StartsWait, SetsChanged, Announces, DropsBlock;
    if a.StartWait? {
      StartWaitBlocks(s, a, s');
    } else if a.SetChanged? {
      SetChangedBlocks(s, a, s');
    } else if a.Announce? {
      AnnounceBlocks(s, a, s');
    } else if a.DropBlock? {
      DropBlockBlocks(s, a, s');
    } else {
      hide Step;
      BlocksStay(s, a, s');
    }
  }

  lemma BlocksStay(s: State, a: Action, s': State)
    requires Stays(s, a, s') && !TouchesBlocks(a)
    ensures BlockLaw(s, a, s')
  {
    hide HeldRef;
  }

  lemma StartWaitBlocks(s: State, a: Action, s': State)
    requires a.StartWait? && StartsWait(s, a.t, s')
    ensures BlockLaw(s, a, s')
  {
    hide HeldRef, RunOf, WaitKeys;
  }

  lemma SetChangedBlocks(s: State, a: Action, s': State)
    requires a.SetChanged? && SetsChanged(s, a.t, s')
    ensures BlockLaw(s, a, s')
  {
    assert HeldRef(Mover(s, a)) == Some(s.threads[a.t].grip.c);
    hide HeldRef;
  }

  lemma AnnounceBlocks(s: State, a: Action, s': State)
    requires a.Announce? && Announces(s, a.t, s')
    ensures BlockLaw(s, a, s')
  {
    hide HeldRef;
  }

  lemma DropBlockBlocks(s: State, a: Action, s': State)
    requires a.DropBlock? && DropsBlock(s, a.t, s')
    ensures BlockLaw(s, a, s')
  {
    hide HeldRef;
  }

  lemma Tokens(s: State, a: Action, s': State)
    requires Step(s, a, s') && Stays(s, a, s')
    ensures TokenLaw(s, a, s')
  {
    hide TokenLaw, Unparks, IsUnparked;
    if a.Unpark? {
      UnparkTokens(s, a, s');
    } else if a.Unparked? {
      UnparkedTokens(s, a, s');
    } else {
      hide Step;
      TokensStay(s, a, s');
    }
  }

  lemma TokensStay(s: State, a: Action, s': State)
    requires Stays(s, a, s') && !TouchesTokens(a)
    ensures TokenLaw(s, a, s')
  {
    hide Unparking;
  }

  lemma UnparkTokens(s: State, a: Action, s': State)
    requires a.Unpark? && Unparks(s, a.t, s')
    ensures TokenLaw(s, a, s')
  {}

  lemma UnparkedTokens(s: State, a: Action, s': State)
    requires a.Unparked? && IsUnparked(s, a.t, a.spurious, s')
    ensures TokenLaw(s, a, s')
  {}

  lemma Values(s: State, a: Action, s': State)
    requires Step(s, a, s') && Stays(s, a, s')
    ensures CellLaw(s, a, s')
  {
    hide CellLaw, WritesBack, WritesAtomic;
    if a.WriteBack? {
      WriteBackValues(s, a, s');
    } else if a.WriteAtomic? {
      WriteAtomicValues(s, a, s');
    } else {
      hide Step;
      ValuesStay(s, a, s');
    }
  }

  lemma ValuesStay(s: State, a: Action, s': State)
    requires Stays(s, a, s') && !TouchesCells(a)
    ensures CellLaw(s, a, s')
  {
    hide Unwritten, Unparking;
  }

  lemma WriteBackValues(s: State, a: Action, s': State)
    requires a.WriteBack? && WritesBack(s, a.t, s')
    ensures CellLaw(s, a, s')
  {
    assert s.threads[a.t].todo[0] in Unwritten(s.threads[a.t]);
    hide Unwritten;
  }

  lemma WriteAtomicValues(s: State, a: Action, s': State)
    requires a.WriteAtomic? && WritesAtomic(s, a.t, a.x, a.v, s')
    ensures CellLaw(s, a, s')
  {
    hide NoHolder, Unwritten;
  }

  lemma Duties(s: State, a: Action, s': State)
    requires Step(s, a, s') && Stays(s, a, s')
    ensures DutyLaw(s, a, s')
  {
    hide DutyLaw, SetsChanged, Unparks;
    if a.SetChanged? {
      SetChangedDuties(s, a, s');
    } else if a.Unpark? {
      UnparkDuties(s, a, s');
    } else {
      hide Step;
      DutiesStay(s, a, s');
    }
  }

  lemma DutiesStay(s: State, a: Action, s': State)
    requires Stays(s, a, s') && !TouchesDuties(a)
    ensures DutyLaw(s, a, s')
  {
    hide Unparking, HeldRef;
  }

  lemma SetChangedDuties(s: State, a: Action, s': State)
    requires a.SetChanged? && SetsChanged(s, a.t, s')
    ensures DutyLaw(s, a, s')
  {
    assert HeldRef(Mover(s, a)) == Some(s.threads[a.t].grip.c);
    hide HeldRef;
  }

  lemma UnparkDuties(s: State, a: Action, s': State)
    requires a.Unpark? && Unparks(s, a.t, s')
    ensures DutyLaw(s, a, s')
  {
    hide HeldRef;
  }

  lemma Holdings(s: State, a: Action, s': State)
    requires Step(s, a, s') && Stays(s, a, s')
    ensures HoldLaw(s, a, s')
  {
    hide HoldLaw, Stays, Upgrades, SetsChanged, Unparks, Releases, Probes, Unprobes;
    if a.Upgrade? {
      UpgradeHolds(s, a, s');
    } else if a.SetChanged? {
      SetChangedHolds(s, a, s');
    } else if a.Unpark? || a.Release? {
      GripHolds(s, a, s');
    } else if a.Probe? {
      ProbeHolds(s, a, s');
    } else if a.Unprobe? {
      UnprobeHolds(s, a, s');
    } else {
      NothingHeld(s, a, s');
    }
  }

  lemma UpgradeHolds(s: State, a: Action, s': State)
    requires a.Upgrade? && Upgrades(s, a.t, s')
    ensures HoldLaw(s, a, s')
  {
    hide Upgradable;
  }

  lemma SetChangedHolds(s: State, a: Action, s': State)
    requires a.SetChanged? && SetsChanged(s, a.t, s')
    ensures HoldLaw(s, a, s')
  {}

  lemma GripHolds(s: State, a: Action, s': State)
    requires a.Unpark? ==> Unparks(s, a.t, s')
    requires a.Release? ==> Releases(s, a.t, s')
    requires a.Unpark? || a.Release?
    ensures HoldLaw(s, a, s')
  {}

  lemma ProbeHolds(s: State, a: Action, s': State)
    requires a.Probe? && Probes(s, a.t, s')
    ensures HoldLaw(s, a, s')
  {
    hide Upgradable;
  }

  lemma UnprobeHolds(s: State, a: Action, s': State)
    requires a.Unprobe? && Unprobes(s, a.t, s')
    ensures HoldLaw(s, a, s')
  {}

  lemma NothingHeld(s: State, a: Action, s': State)
    requires Step(s, a, s')
    requires !a.Upgrade? && !a.SetChanged? && !a.Unpark? && !a.Release? && !a.Probe? && !a.Unprobe?
    ensures HoldLaw(s, a, s')
  {
    hide Step, StartsCommit, Machine.Loads, GivesUp, Reruns, Begins, StartsWait, LocksNext, Serializes, WritesBack,
         StartsWaking, Finishes, TakesList, Registers, Checks, Machine.Blocks, Polls, IsUnparked, Announces, Resets,
         EndsSweep, DropsBlock, WritesAtomic;
    if a.Begin? || a.LoadVar? || a.Rerun? || a.LockNext? {
      RunningHolds(s, a, s');
    } else if a.StartCommit? || a.GiveUp? || a.StartWait? {
      EndingHolds(s, a, s');
    } else if a.Serialize? || a.WriteBack? || a.WriteAtomic? {
      CommittingHolds(s, a, s');
    } else if a.StartWaking? || a.Finish? || a.TakeList? {
      TakingHolds(s, a, s');
    } else if a.Register? || a.Check? {
      WaitingHolds(s, a, s');
    } else if a.Block? || a.Poll? || a.Unparked? {
      ParkingHolds(s, a, s');
    } else {
      CleaningHolds(s, a, s');
    }
  }

  lemma RunningHolds(s: State, a: Action, s': State)
    requires Step(s, a, s') && (a.Begin? || a.LoadVar? || a.Rerun? || a.LockNext?)
    ensures HoldLaw(s, a, s')
  {
    hide RunOf, NoWriter, CanLock, Stale, Upgradable;
  }

  lemma EndingHolds(s: State, a: Action, s': State)
    requires Step(s, a, s') && (a.StartCommit? || a.GiveUp? || a.StartWait?)
    ensures HoldLaw(s, a, s')
  {
    hide RunOf, WaitKeys, Upgradable;
  }

  lemma CommittingHolds(s: State, a: Action, s': State)
    requires Step(s, a, s') && (a.Serialize? || a.WriteBack? || a.WriteAtomic?)
    ensures HoldLaw(s, a, s')
  {
    hide NoHolder, Writes, Upgradable;
  }

  lemma TakingHolds(s: State, a: Action, s': State)
    requires Step(s, a, s') && (a.StartWaking? || a.Finish? || a.TakeList?)
    ensures HoldLaw(s, a, s')
  {
    hide MutexFree, List, Upgradable;
  }

  lemma WaitingHolds(s: State, a: Action, s': State)
    requires Step(s, a, s') && (a.Register? || a.Check?)
    ensures HoldLaw(s, a, s')
  {
    hide NoWriter, MutexFree, List, Observed, Upgradable;
  }

  lemma ParkingHolds(s: State, a: Action, s': State)
    requires Step(s, a, s') && (a.Block? || a.Poll? || a.Unparked?)
    ensures HoldLaw(s, a, s')
  {
    hide List, Upgradable;
  }

  lemma CleaningHolds(s: State, a: Action, s': State)
    requires Step(s, a, s') && (a.Announce? || a.Reset? || a.EndSweep? || a.DropBlock?)
    ensures HoldLaw(s, a, s')
  {
    hide MutexFree, List, Upgradable;
  }

  /** The laws hold of every step. */
  lemma LawsHold(s: State, a: Action, s': State)
    requires Step(s, a, s')
    ensures Laws(s, a, s')
  {
    hide *;
    StepStays(s, a, s');
    Lists(s, a, s');
    Counts(s, a, s');
    Blockings(s, a, s');
    Tokens(s, a, s');
    Values(s, a, s');
    Duties(s, a, s');
    Holdings(s, a, s');
    AllLaws(s, a, s');
  }

  lemma AllLaws(s: State, a: Action, s': State)
    requires TokenLaw(s, a, s') && BlockLaw(s, a, s') && DutyLaw(s, a, s')
    requires ListLaw(s, a, s') && CountLaw(s, a, s') && CellLaw(s, a, s') && HoldLaw(s, a, s')
    ensures Laws(s, a, s')
  {
    hide TokenLaw, BlockLaw, DutyLaw, ListLaw, CountLaw, CellLaw, HoldLaw;
  }
}
