/** The course of a call: what follows a body that has ended, and what a waiting thread goes through. */
module Calls {
  import opened Boxes
  import opened LogVars
  import opened Machine
  import opened History
  import opened CommitInvariant
  import CommitSteps
  import opened Serializability
  import opened WaitInvariant
  import opened WaitSteps
  import opened WakeTheorems
  import opened StepLaws

  /** The part of the code in which an action takes place. */
  predicate Fits(a: Action, ph: Phase) {
    match a
    case Begin(_, _, _) => ph.Idle?
    case WriteAtomic(_, _, _) => ph.Idle?
    case LoadVar(_) => ph.Running?
    case StartCommit(_) => ph.Running?
    case GiveUp(_) => ph.Running?
    case Rerun(_) => ph.Running?
    case StartWait(_) => ph.Running?
    case LockNext(_) => ph.Locking?
    case Serialize(_) => ph.Locking?
    case WriteBack(_) => ph.Writing?
    case StartWaking(_) => ph.Writing?
    case TakeList(_) => ph.Waking?
    case Upgrade(_) => ph.Waking?
    case SetChanged(_) => ph.Waking?
    case Unpark(_) => ph.Waking?
    case Release(_) => ph.Waking?
    case Finish(_) => ph.Waking?
    case Register(_) => ph.Registering?
    case Block(_) => ph.Registering?
    case Check(_) => ph.Checking?
    case Poll(_) => ph.Waiting?
    case Unparked(_, _) => ph.Waiting?
    case Announce(_) => ph.Cleaning?
    case Reset(_) => ph.Cleaning?
    case Probe(_) => ph.Cleaning?
    case Unprobe(_) => ph.Cleaning?
    case EndSweep(_) => ph.Cleaning?
    case DropBlock(_) => ph.Cleaning?
  }

  predicate OfBody(a: Action) {
    a.Begin? || a.WriteAtomic? || a.LoadVar? || a.StartCommit? || a.GiveUp? || a.Rerun? || a.StartWait?
  }

  predicate OfCommit(a: Action) {
    a.LockNext? || a.Serialize? || a.WriteBack? || a.StartWaking? || a.Finish?
  }

  predicate OfWakeUp(a: Action) {
    a.TakeList? || a.Upgrade? || a.SetChanged? || a.Unpark? || a.Release?
  }

  lemma BodyFits(s: State, a: Action, s': State)
    requires Step(s, a, s') && OfBody(a)
    ensures a.t < |s.threads| && Fits(a, s.threads[a.t])
  {
    hide RunOf, NoWriter, NoHolder, DoLoad, DoStartCommit, DoStartWait, DoWriteAtomic, Again, To;
  }

  lemma CommitFits(s: State, a: Action, s': State)
    requires Step(s, a, s') && OfCommit(a)
    ensures a.t < |s.threads| && Fits(a, s.threads[a.t])
  {
    hide CanLock, DoLockNext, DoSerialize, DoWriteBack, To;
  }

  lemma WakeUpFits(s: State, a: Action, s': State)
    requires Step(s, a, s') && OfWakeUp(a)
    ensures a.t < |s.threads| && Fits(a, s.threads[a.t])
  {
    hide MutexFree, DoTakeList, DoUpgrade, DoSetChanged, DoUnpark, To;
  }

  lemma WaitFits(s: State, a: Action, s': State)
    requires Step(s, a, s') && !OfBody(a) && !OfCommit(a) && !OfWakeUp(a)
    ensures a.t < |s.threads| && Fits(a, s.threads[a.t])
  {
    hide NoWriter, MutexFree, Upgradable, List, Observed;
    hide DoRegister, DoCheck, DoPoll, DoUnparked, DoAnnounce, DoReset, DoProbe, DoDropBlock, To;
  }

  lemma StepFits(s: State, a: Action, s': State)
    requires Step(s, a, s')
    ensures a.t < |s.threads| && Fits(a, s.threads[a.t])
  {
    hide *;
    if OfBody(a) {
      BodyFits(s, a, s');
    } else if OfCommit(a) {
      CommitFits(s, a, s');
    } else if OfWakeUp(a) {
      WakeUpFits(s, a, s');
    } else {
      WaitFits(s, a, s');
    }
  }

  // After the body

  /** What a step other than giving up makes of a thread whose body has ended: it commits exactly if the body
      returned, waits for a change exactly if it retried, and starts a new attempt exactly if it failed; and
      it commits or waits for what the body's run logged, from the beginning. */
  ghost predicate GoesOn(s: State, ph: Phase, ph': Phase)
    requires Ended(ph)
  {
    var r := RunOf(ph);
    && (ph'.Locking? <==> r.ending.Returned?)
    && (ph'.Registering? <==> r.ending.Retried?)
    && (ph'.Running? <==> r.ending.Failed?)
    && (ph'.Running? ==> ph'.loads == [] && ph'.job.tag != ph.job.tag && ph'.job.tag == s.nextTag)
    && (ph'.Locking? ==> ph'.done == r && ph'.loads == ph.loads && ph'.rlocks == {} && ph'.wlocks == {}
                         && forall x :: x in ph'.todo <==> x in r.tx.log)
    && (ph'.Registering? ==> ph'.done == r && ph'.loads == ph.loads && ph'.seen == []
                             && forall x :: x in ph'.todo <==> Observed(r.tx.log, x).Some?)
  }

  lemma CommitGoesOn(s: State, t: Tid, s': State)
    requires StartsCommit(s, t, s')
    ensures GoesOn(s, s.threads[t], s'.threads[t])
  {
    hide RunOf;
  }

  lemma RerunGoesOn(s: State, t: Tid, s': State)
    requires Reruns(s, t, s') && s.threads[t].job.tag < s.nextTag
    ensures GoesOn(s, s.threads[t], s'.threads[t])
  {
    hide RunOf;
  }

  lemma WaitGoesOn(s: State, t: Tid, s': State)
    requires StartsWait(s, t, s')
    ensures GoesOn(s, s.threads[t], s'.threads[t])
  {
    hide RunOf;
  }

  lemma RunningTag(s: State, t: Tid)
    requires CommitInv(s) && t < |s.threads| && s.threads[t].Running?
    ensures s.threads[t].job.tag < s.nextTag
  {
    hide CommitInv, JobRun, LoadsOk, Unpublished, FailuresOk;
    CommitSteps.PhaseFact(s, t);
  }

  lemma NotALoad(s: State, t: Tid, s': State)
    requires Machine.Loads(s, t, s')
    ensures !Ended(s.threads[t])
  {
    hide NoWriter;
  }

  /** After a body that has ended, a thread that is not given up does what the ending demands. */
  lemma AfterTheBody(s: State, a: Action, s': State)
    requires Reachable(s) && Step(s, a, s') && a.t < |s.threads| && Ended(s.threads[a.t]) && a != GiveUp(a.t)
    ensures a.t < |s'.threads| && GoesOn(s, s.threads[a.t], s'.threads[a.t])
  {
    hide Reachable, CommitInv, GoesOn, RunOf, Machine.Loads, StartsCommit, Reruns, StartsWait;
    ReachableCommitInv(s);
    StepFits(s, a, s');
    StepExtends(s, a, s');
    RunningTag(s, a.t);
    if a.StartCommit? {
      CommitGoesOn(s, a.t, s');
    } else if a.Rerun? {
      RerunGoesOn(s, a.t, s');
    } else if a.StartWait? {
      WaitGoesOn(s, a.t, s');
    } else {
      NotALoad(s, a.t, s');
    }
  }

  /** And it can: there is such a step whatever the ending. */
  lemma BodyGoesOn(s: State, t: Tid) returns (a: Action, s': State)
    requires Reachable(s) && t < |s.threads| && Ended(s.threads[t])
    ensures Step(s, a, s') && a.t == t && !a.GiveUp?
  {
    hide Reachable, CommitInv, RunOf, Step;
    ReachableCommitInv(s);
    CommitSteps.Basics(s);
    a, s' := EndedGoesOn(s, t);
  }

  lemma EndedGoesOn(s: State, t: Tid) returns (a: Action, s': State)
    requires WellFormed(s) && t < |s.threads| && Ended(s.threads[t])
    ensures Step(s, a, s') && a.t == t && !a.GiveUp? && !a.Unparked?
  {
    hide RunOf;
    var ph := s.threads[t];
    if RunOf(ph).ending.Returned? {
      a, s' := Action.StartCommit(t), DoStartCommit(s, t, ph);
      assert StartsCommit(s, t, s');
    } else if RunOf(ph).ending.Retried? {
      a, s' := Action.StartWait(t), DoStartWait(s, t, ph);
      assert StartsWait(s, t, s');
    } else {
      a, s' := Rerun(t), Again(s, t, ph.job);
      assert Reruns(s, t, s');
    }
  }

  // New attempts

  /** Where one attempt of a call is followed by another: after a body that failed, a validation that failed,
      and the end of a wait. */
  ghost predicate AttemptOver(s: State, ph: Phase) {
    || (Ended(ph) && RunOf(ph).ending.Failed?)
    || (ph.Locking? && ph.todo != [] && ph.done.Done?
        && Validated(ph.done.tx.log, ph.todo[0]).Some?
        && !PtrEq(s.cells[ph.todo[0]], Validated(ph.done.tx.log, ph.todo[0]).value))
    || (ph.Cleaning? && ph.todo == [])
  }

  lemma TagKept(s: State, t: Tid)
    requires CommitInv(s) && t < |s.threads| && (Active(s.threads[t]) || s.threads[t].Cleaning?)
    ensures s.threads[t].job.tag < s.nextTag
  {
    hide CommitInv, JobRun, LoadsOk, Unpublished, FailuresOk, LocksOk;
    CommitSteps.PhaseFact(s, t);
  }

  /** A step of a thread that stays in its call starts a new attempt, under a new tag and with no loads,
      exactly there. */
  ghost predicate Renews(s: State, ph: Phase, ph': Phase) {
    && !ph.Idle? && !ph'.Idle?
    && (ph'.job.tag != ph.job.tag <==> AttemptOver(s, ph))
    && (AttemptOver(s, ph) ==>
          ph'.Running? && ph'.loads == [] && ph'.job.tag == s.nextTag && ph'.job.born == |s.history|)
  }

  lemma LocksRenews(s: State, t: Tid, s': State)
    requires LocksNext(s, t, s') && s.threads[t].job.tag < s.nextTag
    ensures Renews(s, s.threads[t], s'.threads[t])
  {
    hide CanLock;
  }

  lemma EndedRenews(s: State, t: Tid, s': State)
    requires StartsCommit(s, t, s') || StartsWait(s, t, s')
             || (Reruns(s, t, s') && s.threads[t].job.tag < s.nextTag)
    ensures Renews(s, s.threads[t], s'.threads[t])
  {
    hide RunOf, WaitKeys;
  }

  lemma LoadsRenews(s: State, t: Tid, s': State)
    requires Machine.Loads(s, t, s')
    ensures Renews(s, s.threads[t], s'.threads[t])
  {
    hide NoWriter;
  }

  lemma SerializesRenews(s: State, t: Tid, s': State)
    requires Serializes(s, t, s')
    ensures Renews(s, s.threads[t], s'.threads[t])
  {
    hide Writes;
  }

  lemma CleansRenews(s: State, t: Tid, s': State)
    requires DropsBlock(s, t, s') && s.threads[t].job.tag < s.nextTag
    ensures Renews(s, s.threads[t], s'.threads[t])
  {}

  lemma SweepsRenews(s: State, t: Tid, s': State)
    requires Announces(s, t, s') || Resets(s, t, s') || Unprobes(s, t, s') || EndsSweep(s, t, s')
             || Probes(s, t, s')
    requires s.threads[t].Cleaning? ==> s.threads[t].todo != []
    ensures Renews(s, s.threads[t], s'.threads[t])
  {
    hide MutexFree, Upgradable, List;
  }

  lemma OtherRenews(s: State, t: Tid, s': State)
    requires WritesBack(s, t, s') || StartsWaking(s, t, s') || TakesList(s, t, s') || Releases(s, t, s')
    ensures Renews(s, s.threads[t], s'.threads[t])
  {
    hide MutexFree, List;
  }

  lemma InformsRenews(s: State, t: Tid, s': State)
    requires Upgrades(s, t, s') || SetsChanged(s, t, s') || Unparks(s, t, s')
    ensures Renews(s, s.threads[t], s'.threads[t])
  {
    hide Upgradable;
  }

  lemma RegistersRenews(s: State, t: Tid, s': State)
    requires Registers(s, t, s') || Machine.Blocks(s, t, s')
    ensures Renews(s, s.threads[t], s'.threads[t])
  {
    hide MutexFree, List;
  }

  lemma ChecksRenews(s: State, t: Tid, s': State)
    requires Checks(s, t, s')
    ensures Renews(s, s.threads[t], s'.threads[t])
  {
    hide NoWriter, Observed;
  }

  lemma ParksRenews(s: State, t: Tid, s': State)
    requires Polls(s, t, s') || exists spurious :: IsUnparked(s, t, spurious, s')
    ensures Renews(s, s.threads[t], s'.threads[t])
  {}

  lemma SweepNotEmpty(s: State, t: Tid)
    requires WaitInv(s) && t < |s.threads| && s.threads[t].Cleaning? && !s.threads[t].gc.NoGc?
    ensures s.threads[t].todo != []
  {
    hide WaitInv;
    WaitFact(s, t);
  }

  lemma UnprobesRenews(s: State, t: Tid, s': State)
    requires WaitInv(s) && Unprobes(s, t, s')
    ensures Renews(s, s.threads[t], s'.threads[t])
  {
    hide WaitInv;
    SweepNotEmpty(s, t);
    SweepsRenews(s, t, s');
  }

  lemma RunningRenews(s: State, a: Action, s': State)
    requires CommitInv(s) && Step(s, a, s')
    requires a.LoadVar? || a.StartCommit? || a.Rerun? || a.StartWait? || a.LockNext? || a.Serialize?
    ensures Renews(s, Mover(s, a), Mover(s', a))
  {
    hide CommitInv, Renews, Machine.Loads, StartsCommit, Reruns, StartsWait, LocksNext, Serializes;
    StepFits(s, a, s');
    StepExtends(s, a, s');
    if a.Rerun? || a.LockNext? { TagKept(s, a.t); }
    if a.LoadVar? {
      LoadsRenews(s, a.t, s');
    } else if a.LockNext? {
      LocksRenews(s, a.t, s');
    } else if a.Serialize? {
      SerializesRenews(s, a.t, s');
    } else {
      EndedRenews(s, a.t, s');
    }
  }

  lemma CommittingRenews(s: State, a: Action, s': State)
    requires Step(s, a, s')
    requires a.WriteBack? || a.StartWaking? || OfWakeUp(a)
    ensures Renews(s, Mover(s, a), Mover(s', a))
  {
    hide Renews, WritesBack, StartsWaking, TakesList, Releases, Upgrades, SetsChanged, Unparks;
    StepFits(s, a, s');
    StepExtends(s, a, s');
    if a.Upgrade? || a.SetChanged? || a.Unpark? {
      InformsRenews(s, a.t, s');
    } else {
      OtherRenews(s, a.t, s');
    }
  }

  lemma WaitingRenews(s: State, a: Action, s': State)
    requires Step(s, a, s') && (a.Register? || a.Check? || a.Block? || a.Poll? || a.Unparked?)
    ensures Renews(s, Mover(s, a), Mover(s', a))
  {
    hide Renews, Registers, Checks, Machine.Blocks, Polls, IsUnparked;
    StepFits(s, a, s');
    StepExtends(s, a, s');
    if a.Check? {
      ChecksRenews(s, a.t, s');
    } else if a.Register? || a.Block? {
      RegistersRenews(s, a.t, s');
    } else {
      ParksRenews(s, a.t, s');
    }
  }

  lemma CleaningRenews(s: State, a: Action, s': State)
    requires CommitInv(s) && WaitInv(s) && Step(s, a, s') && IsCleaning(a)
    ensures Renews(s, Mover(s, a), Mover(s', a))
  {
    hide CommitInv, WaitInv, Renews, Announces, Resets, Probes, Unprobes, EndsSweep, DropsBlock;
    StepFits(s, a, s');
    StepExtends(s, a, s');
    if a.DropBlock? {
      TagKept(s, a.t);
      CleansRenews(s, a.t, s');
    } else if a.Unprobe? {
      UnprobesRenews(s, a.t, s');
    } else {
      OthersRenew(s, a, s');
    }
  }

  lemma OthersRenew(s: State, a: Action, s': State)
    requires Step(s, a, s') && (a.Announce? || a.Reset? || a.Probe? || a.EndSweep?)
    ensures Renews(s, Mover(s, a), Mover(s', a))
  {
    hide Renews, MutexFree, Upgradable, List;
    StepFits(s, a, s');
    StepExtends(s, a, s');
    SweepsRenews(s, a.t, s');
  }

  /** Within a call a new attempt is started exactly after a failed body, a failed validation or a wait. */
  lemma NewAttempt(s: State, a: Action, s': State)
    requires Reachable(s) && Step(s, a, s') && !Mover(s, a).Idle? && !Mover(s', a).Idle?
    ensures Renews(s, Mover(s, a), Mover(s', a))
  {
    hide Reachable, CommitInv, WaitInv, Step, Renews, Mover, Fits;
    ReachableCommitInv(s);
    ReachableWaitInv(s);
    StepFits(s, a, s');
    NotEdge(s, a, s');
    if a.LoadVar? || a.StartCommit? || a.Rerun? || a.StartWait? || a.LockNext? || a.Serialize? {
      RunningRenews(s, a, s');
    } else if a.WriteBack? || a.StartWaking? || OfWakeUp(a) {
      CommittingRenews(s, a, s');
    } else if a.Register? || a.Check? || a.Block? || a.Poll? || a.Unparked? {
      WaitingRenews(s, a, s');
    } else {
      CleaningRenews(s, a, s');
    }
  }

  lemma NotEdge(s: State, a: Action, s': State)
    requires Step(s, a, s') && !Mover(s, a).Idle? && !Mover(s', a).Idle?
    ensures !a.Begin? && !a.WriteAtomic? && !a.GiveUp? && !a.Finish?
  {
    hide Step, RunOf;
    StepFits(s, a, s');
    StepExtends(s, a, s');
  }

  // In wait_for_change

  /** The moves of a thread in wait_for_change.  Having registered its block with the next variable it checks
      it.  It gives up waiting exactly if what it finds is not what it observed, or, once it waits, if its
      block has been informed; it waits once it has found everything that it observed unchanged. */
  ghost predicate WaitMove(s: State, s': State, ph: Phase, ph': Phase)
    requires InWait(ph)
  {
    match ph
    case Registering(job, loads, done, cb, todo, seen) =>
      if todo == [] then ph' == Waiting(job, loads, done, cb, seen, false)
      else ph' == Checking(job, loads, done, cb, todo, seen) && cb in List(s', todo[0])
    case Checking(job, loads, done, cb, todo, seen) =>
      && todo != []
      && (if done.Done? && Holds(s.cells, done.tx.log, todo[0]) then
            ph' == Registering(job, loads, done, cb, todo[1..], seen + [todo[0]])
          else ph' == Cleaning(job, cb, seen + [todo[0]], NoGc))
    case Waiting(job, loads, done, cb, seen, parked) =>
      if parked then ph' == Waiting(job, loads, done, cb, seen, false)
      else if cb < |s.cbs| && s.cbs[cb].blocked then ph' == Waiting(job, loads, done, cb, seen, true)
      else ph' == Cleaning(job, cb, seen, NoGc)
  }

  lemma RegistersMove(s: State, t: Tid, s': State)
    requires Registers(s, t, s') || Machine.Blocks(s, t, s')
    ensures WaitMove(s, s', s.threads[t], s'.threads[t])
  {
    hide MutexFree;
  }

  lemma ChecksMove(s: State, t: Tid, s': State)
    requires Checks(s, t, s')
    ensures WaitMove(s, s', s.threads[t], s'.threads[t])
  {
    hide NoWriter, Observed;
  }

  lemma ParksMove(s: State, t: Tid, s': State)
    requires Polls(s, t, s') || exists spurious :: IsUnparked(s, t, spurious, s')
    ensures WaitMove(s, s', s.threads[t], s'.threads[t])
  {}

  lemma WaitMoves(s: State, a: Action, s': State)
    requires Step(s, a, s') && InWait(Mover(s, a))
    ensures WaitMove(s, s', Mover(s, a), Mover(s', a))
  {
    hide WaitMove, Step;
    StepFits(s, a, s');
    StepExtends(s, a, s');
    WaitingMoves(s, a, s');
  }

  lemma WaitingMoves(s: State, a: Action, s': State)
    requires Step(s, a, s') && (a.Register? || a.Check? || a.Block? || a.Poll? || a.Unparked?)
    requires a.t < |s.threads| == |s'.threads| && Fits(a, Mover(s, a))
    ensures WaitMove(s, s', Mover(s, a), Mover(s', a))
  {
    hide WaitMove, Registers, Checks, Machine.Blocks, Polls, IsUnparked;
    if a.Check? {
      ChecksMove(s, a.t, s');
    } else if a.Register? || a.Block? {
      RegistersMove(s, a.t, s');
    } else {
      ParksMove(s, a.t, s');
    }
  }

  /** A thread leaves wait_for_change only if its block has been informed, or the variable that it registered
      with last does not hold what was observed of it. */
  lemma WhyWaitsEnd(s: State, a: Action, s': State, t: Tid)
    requires Step(s, a, s') && t < |s.threads| && InWait(s.threads[t])
    requires t < |s'.threads| ==> !InWait(s'.threads[t])
    ensures a.t == t && t < |s'.threads| && s'.threads[t].Cleaning?
    ensures var ph := s.threads[t];
            || (ph.Waiting? && (ph.cb < |s.cbs| ==> !s.cbs[ph.cb].blocked))
            || (ph.Checking? && ph.todo != [] && (ph.done.Done? ==> !Holds(s.cells, ph.done.tx.log, ph.todo[0])))
  {
    hide Step, Holds, List;
    StepExtends(s, a, s');
    if a.t == t { WaitMoves(s, a, s'); }
  }

  /** A thread whose observations all hold goes on to wait: it stays in wait_for_change with every step. */
  lemma UnchangedWaits(s: State, a: Action, s': State, t: Tid)
    requires Reachable(s) && Step(s, a, s') && Uninformed(s, t)
    requires var done := s.threads[t].done;
             done.Done? ==> forall x :: Observed(done.tx.log, x).Some? ==> Holds(s.cells, done.tx.log, x)
    ensures t < |s'.threads| && InWait(s'.threads[t])
  {
    hide Step, Holds, List, Reachable, WaitInv, WaitOk;
    ReachableWaitInv(s);
    StepExtends(s, a, s');
    if s.threads[t].Checking? { CheckedObserved(s, t); }
    if !InWait(s'.threads[t]) { WhyWaitsEnd(s, a, s', t); }
  }

  /** What a variable is compared with is what the updates serialized so far have left in it: the check waits
      for a committer that has still to store. */
  lemma CheckIsLogical(s: State, t: Tid, s': State)
    requires Reachable(s) && Step(s, Check(t), s')
    ensures t < |s'.threads| && s.threads[t].Checking? && s.threads[t].todo != [] && s.stores != []
    ensures s'.threads[t].Registering? <==> Holds(Now(s), s.threads[t].done.tx.log, s.threads[t].todo[0])
  {
    hide Reachable, Step, WaitInv, NoWriter, Observed;
    ReachableWaitInv(s);
    StepFits(s, Check(t), s');
    StepExtends(s, Check(t), s');
    CheckedObserved(s, t);
    ChecksUnlocked(s, t, s');
    ReadIsLogical(s, t, s.threads[t].todo[0]);
    WaitMoves(s, Check(t), s');
  }

  lemma ChecksUnlocked(s: State, t: Tid, s': State)
    requires Step(s, Check(t), s') && t < |s.threads| && s.threads[t].Checking? && s.threads[t].todo != []
    ensures NoWriter(s, t, s.threads[t].todo[0]) && Unwritten(s.threads[t]) == {}
  {
    hide NoWriter, Observed;
  }

  lemma CheckedObserved(s: State, t: Tid)
    requires WaitInv(s) && t < |s.threads| && s.threads[t].Checking?
    ensures var ph := s.threads[t];
            ph.done.Done? && ph.todo != [] && Observed(ph.done.tx.log, ph.todo[0]).Some?
  {
    hide WaitInv, Linked, Watched;
    WaitFact(s, t);
    var ph := s.threads[t];
    assert (ph.seen + ph.todo)[|ph.seen|] == ph.todo[0];
    assert ph.todo[0] in WaitKeys(ph.done.tx.log);
  }

  /** A waiting thread that has been informed leaves: unless its informer is yet to unpark it, it either
      returns from `park` by its token or, not being parked, finds its block unblocked and cleans up. */
  lemma InformedLeaves(s: State, t: Tid) returns (a: Action, s': State)
    requires Reachable(s) && t < |s.threads| && s.threads[t].Waiting?
    requires s.threads[t].cb < |s.cbs| ==> !s.cbs[s.threads[t].cb].blocked
    requires !BeingUnparked(s, s.threads[t].cb)
    ensures Step(s, a, s') && a == if s.threads[t].parked then Unparked(t, false) else Poll(t)
    ensures t < |s'.threads|
    ensures s'.threads[t] == Leaving(s.threads[t])
  {
    hide Reachable, WaitInv, BeingUnparked, Linked, Watched, WaitKeys, Step;
    ReachableWaitInv(s);
    WaitFact(s, t);
    var ph := s.threads[t];
    if ph.parked {
      a, s' := Unparked(t, false), DoUnparked(s, t, ph, false);
      assert IsUnparked(s, t, false, s');
      UnparkedIsStep(s, t, s');
    } else {
      a, s' := Poll(t), DoPoll(s, t, ph);
      assert Polls(s, t, s');
      PollIsStep(s, t, s');
    }
  }

  function Leaving(ph: Phase): Phase
    requires ph.Waiting?
  {
    if ph.parked then Waiting(ph.job, ph.loads, ph.done, ph.cb, ph.seen, false)
    else Cleaning(ph.job, ph.cb, ph.seen, NoGc)
  }

  lemma UnparkedIsStep(s: State, t: Tid, s': State)
    requires IsUnparked(s, t, false, s')
    ensures Step(s, Unparked(t, false), s')
  {}

  lemma PollIsStep(s: State, t: Tid, s': State)
    requires Polls(s, t, s')
    ensures Step(s, Poll(t), s')
  {}
}
