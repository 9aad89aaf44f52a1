/** What holds of commits in every reachable state. */
module Serializability {
  import opened Boxes
  import opened LogVars
  import opened Programs
  import opened Engine
  import opened Sequential
  import opened Attempts
  import opened Machine
  import opened History
  import opened CommitInvariant
  import opened CommitSteps
  import opened CommitUpdates

  lemma InitCommitInv(s: State)
    requires Init(s)
    ensures CommitInv(s)
  {}

  predicate IsCommitting(a: Action) {
    a.LockNext? || a.Serialize? || a.WriteBack? || a.StartWaking? || a.TakeList? || a.Upgrade?
    || a.SetChanged? || a.Unpark? || a.Release? || a.Finish? || a.WriteAtomic?
  }

  predicate IsWaiting(a: Action) {
    a.StartWait? || a.Register? || a.Check? || a.Block? || a.Poll? || a.Unparked?
  }

  predicate IsCleaning(a: Action) {
    a.Announce? || a.Reset? || a.Probe? || a.Unprobe? || a.EndSweep? || a.DropBlock?
  }

  lemma StepKeepsCommitInv(s: State, a: Action, s': State)
    requires CommitInv(s) && Step(s, a, s')
    ensures CommitInv(s')
  {
    hide CommitInv, Step;
    if IsCommitting(a) {
      CommittingKeepsCommit(s, a, s');
    } else if IsWaiting(a) {
      WaitingKeepsCommit(s, a, s');
    } else if IsCleaning(a) {
      CleaningKeepsCommit(s, a, s');
    } else {
      RunningKeepsCommit(s, a, s');
    }
  }

  lemma RunningKeepsCommit(s: State, a: Action, s': State)
    requires CommitInv(s) && Step(s, a, s') && !IsCommitting(a) && !IsWaiting(a) && !IsCleaning(a)
    ensures CommitInv(s')
  {
    hide CommitInv, Begins, Loads, StartsCommit, GivesUp, Reruns;
    if a.Begin? {
      BeginsKeeps(s, a.t, a.prog, a.depth, s');
    } else if a.LoadVar? {
      LoadsKeeps(s, a.t, s');
    } else if a.StartCommit? {
      StartsCommitKeeps(s, a.t, s');
    } else if a.GiveUp? {
      GivesUpKeeps(s, a.t, s');
    } else if a.Rerun? {
      RerunsKeeps(s, a.t, s');
    }
  }

  lemma CommittingKeepsCommit(s: State, a: Action, s': State)
    requires CommitInv(s) && Step(s, a, s') && IsCommitting(a)
    ensures CommitInv(s')
  {
    hide CommitInv, LocksNext, Serializes, WritesBack, StartsWaking, TakesList, Upgrades, SetsChanged, Unparks,
         Releases, Finishes, WritesAtomic;
    if a.LockNext? {
      LocksNextKeeps(s, a.t, s');
    } else if a.Serialize? {
      SerializesKeeps(s, a.t, s');
    } else if a.WriteBack? {
      WritesBackKeeps(s, a.t, s');
    } else if a.StartWaking? {
      StartsWakingKeeps(s, a.t, s');
    } else if a.TakeList? {
      TakesListKeeps(s, a.t, s');
    } else if a.Upgrade? {
      UpgradesKeeps(s, a.t, s');
    } else if a.SetChanged? {
      SetsChangedKeeps(s, a.t, s');
    } else if a.Unpark? {
      UnparksKeeps(s, a.t, s');
    } else if a.Release? {
      ReleasesKeeps(s, a.t, s');
    } else if a.Finish? {
      FinishesKeeps(s, a.t, s');
    } else if a.WriteAtomic? {
      WritesAtomicKeeps(s, a.t, a.x, a.v, s');
    }
  }

  lemma WaitingKeepsCommit(s: State, a: Action, s': State)
    requires CommitInv(s) && Step(s, a, s') && IsWaiting(a)
    ensures CommitInv(s')
  {
    hide CommitInv, StartsWait, Registers, Checks, Blocks, Polls, IsUnparked;
    if a.StartWait? {
      StartsWaitKeeps(s, a.t, s');
    } else if a.Register? {
      RegistersKeeps(s, a.t, s');
    } else if a.Check? {
      ChecksKeeps(s, a.t, s');
    } else if a.Block? {
      BlocksKeeps(s, a.t, s');
    } else if a.Poll? {
      PollsKeeps(s, a.t, s');
    } else {
      IsUnparkedKeeps(s, a.t, a.spurious, s');
    }
  }

  lemma CleaningKeepsCommit(s: State, a: Action, s': State)
    requires CommitInv(s) && Step(s, a, s') && IsCleaning(a)
    ensures CommitInv(s')
  {
    hide CommitInv, Announces, Resets, Probes, Unprobes, EndsSweep, DropsBlock;
    if a.Probe? {
      ProbesKeeps(s, a.t, s');
    } else if a.DropBlock? {
      DropsBlockKeeps(s, a.t, s');
    } else {
      CleaningKeeps(s, a.t, s');
    }
  }

  lemma {:induction false} RunKeepsCommitInv(run: seq<State>, i: nat)
    requires IsRun(run) && i < |run|
    ensures CommitInv(run[i])
  {
    hide CommitInv, Init, Step;
    if i == 0 {
      InitCommitInv(run[0]);
    } else {
      RunKeepsCommitInv(run, i - 1);
      assert Next(run[i - 1], run[i]);
      var a :| Step(run[i - 1], a, run[i]);
      StepKeepsCommitInv(run[i - 1], a, run[i]);
    }
  }

  /** The commit invariant holds in every reachable state. */
  lemma ReachableCommitInv(s: State)
    requires Reachable(s)
    ensures CommitInv(s)
  {
    hide CommitInv, Init, Next;
    var run :| IsRun(run) && run[|run| - 1] == s;
    RunKeepsCommitInv(run, |run| - 1);
  }

  // Serializability

  /** Every commit of every interleaving is, at its place in the serial order, the atomic run of its
      surviving branches: on the store its predecessors left it produces the result that was
      returned and the store its successors find.  In particular nothing that an abandoned branch
      wrote ever reaches the store. */
  lemma Serializable(s: State, e: nat)
    requires Reachable(s) && e < |s.history| && s.history[e].Commit?
    ensures |s.stores| == |s.history| + 1
    ensures var ev := s.history[e];
            && ev.done.Done? && ev.done.ending.Returned?
            && Along(ev.job.prog, ev.job.depth, Payloads(s.stores[e]), ev.done.path)
               == Committed(ev.done.ending.v, Payloads(s.stores[e + 1]))
  {
    ReachableCommitInv(s);
    assert EventOk(s, e) && Explained(s.history[e], s.stores[e], e);
    var ev := s.history[e];
    hide CommitInv, Reachable, Along, Valid, Exec, Payloads, Overwrite, FreshWrites;
    AttemptReplays(ev.job.prog, ev.job.depth, ev.job.tag, ev.loads, s.stores[e]);
  }

  /** An attempt that fell through no `or` is the atomic run of its whole body. */
  lemma StrictlySerializable(s: State, e: nat)
    requires Reachable(s) && e < |s.history| && s.history[e].Commit?
    requires s.history[e].done.Done? ==> FirstBranches(s.history[e].done.path)
    ensures |s.stores| == |s.history| + 1
    ensures var ev := s.history[e];
            && ev.done.Done? && ev.done.ending.Returned?
            && Direct(ev.job.prog, ev.job.depth, Payloads(s.stores[e]))
               == Committed(ev.done.ending.v, Payloads(s.stores[e + 1]))
  {
    Serializable(s, e);
    var ev := s.history[e];
    var vals := Payloads(s.stores[e]);
    hide Reachable, Along, Direct, Payloads, Forced;
    FirstBranchesForced(ev.job.prog, ev.job.depth, vals, ev.done.path);
    ForcedIsDirect(ev.job.prog, ev.job.depth, vals, ev.done.path);
  }

  /** Strict serializability of bodies without `or`: every commit of such a body is, at its place in the
      serial order, the atomic run of the body. */
  lemma OrFreeSerializable(s: State, e: nat)
    requires Reachable(s) && e < |s.history| && s.history[e].Commit?
    requires OrFree(s.history[e].job.prog, s.history[e].job.depth)
    ensures |s.stores| == |s.history| + 1
    ensures var ev := s.history[e];
            && ev.done.Done? && ev.done.ending.Returned?
            && Direct(ev.job.prog, ev.job.depth, Payloads(s.stores[e]))
               == Committed(ev.done.ending.v, Payloads(s.stores[e + 1]))
  {
    Serializable(s, e);
    ReachableCommitInv(s);
    assert Explained(s.history[e], s.stores[e], e);
    var ev := s.history[e];
    hide CommitInv, Reachable, Direct, Payloads, Exec, OrFree, Valid;
    OrFreeRun(ev.job.prog, ev.job.depth, ev.job.tag, Recorded(ev.loads), EMPTY);
    StrictlySerializable(s, e);
  }

  /** With fall-through, the commit is the left-biased run of its program, branch by branch, exactly when
      every first branch that it abandoned blocks at its place in the serial order too. */
  lemma LeftBiasedIff(s: State, e: nat)
    requires Reachable(s) && e < |s.history| && s.history[e].Commit?
    ensures |s.stores| == |s.history| + 1
    ensures var ev := s.history[e];
            && ev.done.Done? && ev.done.ending.Returned?
            && var p, depth, vals := ev.job.prog, ev.job.depth, Payloads(s.stores[e]);
               Forced(p, depth, vals, ev.done.path)
               <==> Direct(p, depth, vals) == Committed(ev.done.ending.v, Payloads(s.stores[e + 1]))
                    && DirectPath(p, depth, vals) == ev.done.path
  {
    Serializable(s, e);
    var ev := s.history[e];
    hide Reachable, Along, Direct, Payloads, Forced, DirectPath;
    ForcedIff(ev.job.prog, ev.job.depth, Payloads(s.stores[e]), ev.done.path);
  }

  /** That is the case when agreement held at every merge and everything the attempt observed on any
      branch is still there at its place in the serial order. */
  lemma SerializableLeftBiased(s: State, e: nat)
    requires Reachable(s) && e < |s.history| && s.history[e].Commit?
    requires var ev := s.history[e];
             ev.done.Done? && e < |s.stores| ==> ev.done.agreed && Unchanged(ev.done.tx.log, s.stores[e])
    ensures |s.stores| == |s.history| + 1
    ensures var ev := s.history[e];
            && ev.done.Done? && ev.done.ending.Returned?
            && Direct(ev.job.prog, ev.job.depth, Payloads(s.stores[e]))
               == Committed(ev.done.ending.v, Payloads(s.stores[e + 1]))
  {
    ReachableCommitInv(s);
    CommittedBoxes(s, e);
    assert EventOk(s, e) && Explained(s.history[e], s.stores[e], e);
    var ev := s.history[e];
    hide CommitInv, Reachable, Direct, Valid, Exec, Payloads, Overwrite, FreshWrites, Unchanged, SameBoxes;
    CurrentIsLeftBiased(ev.job.prog, ev.job.depth, ev.job.tag, ev.loads, s.stores[e]);
  }

  /** Boxes that a commit loaded and those the store held at its place are told apart by identity. */
  lemma CommittedBoxes(s: State, e: nat)
    requires CommitInv(s) && e < |s.history| && s.history[e].Commit?
    ensures SameBoxes(s.history[e].loads, s.stores[e])
  {
    var ls := s.history[e].loads;
    assert HistoryOk(s) && LoadedBy(s.stores, s.history[e].job, ls, e);
    hide CommitInv, HistoryOk;
    forall m | 0 <= m < |ls| && PtrEq(s.stores[e][ls[m].x], ls[m].arc) ensures s.stores[e][ls[m].x] == ls[m].arc {
      IdentityMeansUnchanged(s, ls[m].x, ls[m].at, e);
    }
  }

  /** When no committer has anything left to store, the variables hold the outcome of the whole
      serial order. */
  lemma QuiescentStore(s: State)
    requires Reachable(s) && forall t :: 0 <= t < |s.threads| ==> Unwritten(s.threads[t]) == {}
    ensures s.stores != [] && s.cells == Now(s)
  {
    ReachableCommitInv(s);
    hide Reachable, PhaseOk, FailuresOk, HistoryOk, AllExplained, Exclusive, TagsDistinct;
    assert forall x: Var :: Settled(s, x);
    assert forall x: Var :: s.cells[x] == Now(s)[x];
  }

  /** Two moments of one call. */
  ghost predicate SameCall(ph: Phase, ph': Phase) {
    && !ph.Idle? && !ph'.Idle?
    && ph'.job.prog == ph.job.prog && ph'.job.depth == ph.job.depth && ph'.job.called == ph.job.called
  }

  /** A step moves one thread, within its call unless the call begins or ends. */
  ghost predicate Local(s: State, a: Action, s': State) {
    && a.t < |s.threads| == |s'.threads|
    && (forall u :: 0 <= u < |s.threads| && u != a.t ==> s'.threads[u] == s.threads[u])
    && var ph, ph' := s.threads[a.t], s'.threads[a.t];
       if a.WriteAtomic? then ph.Idle? && ph' == ph
       else if a.Begin? then ph.Idle?
       else if a.Finish? then ph.Waking? && ph'.Idle?
       else if a.GiveUp? then Ended(ph) && !RunOf(ph).ending.Returned? && ph'.Idle?
       else SameCall(ph, ph')
  }

  lemma StepExtends(s: State, a: Action, s': State)
    requires Step(s, a, s')
    ensures s.history <= s'.history && s.stores <= s'.stores && Local(s, a, s')
  {
    hide Step;
    if a.Serialize? || a.WriteAtomic? {
      UpdateExtends(s, a, s');
    } else {
      OtherExtends(s, a, s');
    }
  }

  lemma UpdateExtends(s: State, a: Action, s': State)
    requires Step(s, a, s') && (a.Serialize? || a.WriteAtomic?)
    ensures s.history <= s'.history && s.stores <= s'.stores && Local(s, a, s')
  {
    hide NoHolder;
  }

  lemma OtherExtends(s: State, a: Action, s': State)
    requires Step(s, a, s') && !a.Serialize? && !a.WriteAtomic?
    ensures s'.history == s.history && s'.stores == s.stores && Local(s, a, s')
  {
    hide Step, Local, Inside;
    if a.Begin? || a.Finish? || a.GiveUp? {
      EdgeExtends(s, a, s');
    } else {
      if IsWaiting(a) {
        WaitingExtends(s, a, s');
      } else if IsCleaning(a) {
        CleaningExtends(s, a, s');
      } else {
        RunningExtends(s, a, s');
      }
      InsideIsLocal(s, a, s');
    }
  }

  lemma InsideIsLocal(s: State, a: Action, s': State)
    requires Inside(s, a.t, s')
    requires !a.Serialize? && !a.WriteAtomic? && !a.Begin? && !a.Finish? && !a.GiveUp?
    ensures s'.history == s.history && s'.stores == s.stores && Local(s, a, s')
  {
    hide SameCall, Ended, RunOf;
  }

  lemma EdgeExtends(s: State, a: Action, s': State)
    requires Step(s, a, s') && (a.Begin? || a.Finish? || a.GiveUp?)
    ensures s'.history == s.history && s'.stores == s.stores && Local(s, a, s')
  {
    hide RunOf;
  }

  /** A step that records nothing and stays within the call. */
  ghost predicate Inside(s: State, t: Tid, s': State) {
    && t < |s.threads| == |s'.threads| && s'.history == s.history && s'.stores == s.stores
    && (forall u :: 0 <= u < |s.threads| && u != t ==> s'.threads[u] == s.threads[u])
    && SameCall(s.threads[t], s'.threads[t])
  }

  lemma LoadsInside(s: State, t: Tid, s': State)
    requires Loads(s, t, s') || StartsCommit(s, t, s') || Reruns(s, t, s')
    ensures Inside(s, t, s')
  {
    hide RunOf, NoWriter;
  }

  lemma LocksNextInside(s: State, t: Tid, s': State)
    requires LocksNext(s, t, s')
    ensures Inside(s, t, s')
  {
    hide CanLock, Stale;
  }

  lemma WritingInside(s: State, t: Tid, s': State)
    requires WritesBack(s, t, s') || StartsWaking(s, t, s')
    ensures Inside(s, t, s')
  {}

  lemma TakesListInside(s: State, t: Tid, s': State)
    requires TakesList(s, t, s')
    ensures Inside(s, t, s')
  {
    hide MutexFree;
  }

  lemma SetsChangedInside(s: State, t: Tid, s': State)
    requires SetsChanged(s, t, s')
    ensures Inside(s, t, s')
  {
  }

  lemma UpgradesInside(s: State, t: Tid, s': State)
    requires Upgrades(s, t, s')
    ensures Inside(s, t, s')
  {
    hide Upgradable;
  }

  lemma UnparksInside(s: State, t: Tid, s': State)
    requires Unparks(s, t, s') || Releases(s, t, s')
    ensures Inside(s, t, s')
  {}

  lemma StartsWaitInside(s: State, t: Tid, s': State)
    requires StartsWait(s, t, s')
    ensures Inside(s, t, s')
  {
    hide RunOf, WaitKeys;
  }

  lemma RegistersInside(s: State, t: Tid, s': State)
    requires Registers(s, t, s')
    ensures Inside(s, t, s')
  {
    hide MutexFree;
  }

  lemma ChecksInside(s: State, t: Tid, s': State)
    requires Checks(s, t, s')
    ensures Inside(s, t, s')
  {
    hide NoWriter, Observed;
  }

  lemma BlocksInside(s: State, t: Tid, s': State)
    requires Blocks(s, t, s') || Polls(s, t, s')
    ensures Inside(s, t, s')
  {}

  lemma IsUnparkedInside(s: State, t: Tid, s': State)
    requires exists spurious :: IsUnparked(s, t, spurious, s')
    ensures Inside(s, t, s')
  {}

  lemma AnnouncesInside(s: State, t: Tid, s': State)
    requires Announces(s, t, s')
    ensures Inside(s, t, s')
  {}

  lemma SweepsInside(s: State, t: Tid, s': State)
    requires Resets(s, t, s') || Unprobes(s, t, s') || EndsSweep(s, t, s') || DropsBlock(s, t, s')
    ensures Inside(s, t, s')
  {
    hide MutexFree;
  }

  lemma ProbesInside(s: State, t: Tid, s': State)
    requires Probes(s, t, s')
    ensures Inside(s, t, s')
  {
    hide Upgradable;
  }

  lemma RunningExtends(s: State, a: Action, s': State)
    requires Step(s, a, s') && !IsWaiting(a) && !IsCleaning(a) && !a.Serialize? && !a.WriteAtomic?
    requires !a.Begin? && !a.Finish? && !a.GiveUp?
    ensures Inside(s, a.t, s')
  {
    hide Inside, Loads, StartsCommit, LocksNext, WritesBack, StartsWaking, TakesList, Upgrades,
         SetsChanged, Unparks, Releases, Reruns;
    if a.LockNext? {
      LocksNextInside(s, a.t, s');
    } else if a.WriteBack? {
      WritingInside(s, a.t, s');
    } else if a.StartWaking? {
      WritingInside(s, a.t, s');
    } else if a.TakeList? {
      TakesListInside(s, a.t, s');
    } else if a.Upgrade? {
      UpgradesInside(s, a.t, s');
    } else if a.SetChanged? {
      SetsChangedInside(s, a.t, s');
    } else if a.Unpark? || a.Release? {
      UnparksInside(s, a.t, s');
    } else {
      LoadsInside(s, a.t, s');
    }
  }

  lemma WaitingExtends(s: State, a: Action, s': State)
    requires Step(s, a, s') && IsWaiting(a)
    ensures Inside(s, a.t, s')
  {
    hide Inside, StartsWait, Registers, Checks, Blocks, Polls, IsUnparked;
    if a.StartWait? {
      StartsWaitInside(s, a.t, s');
    } else if a.Register? {
      RegistersInside(s, a.t, s');
    } else if a.Check? {
      ChecksInside(s, a.t, s');
    } else if a.Unparked? {
      IsUnparkedInside(s, a.t, s');
    } else {
      BlocksInside(s, a.t, s');
    }
  }

  lemma CleaningExtends(s: State, a: Action, s': State)
    requires Step(s, a, s') && IsCleaning(a)
    ensures Inside(s, a.t, s')
  {
    hide Inside, Announces, Resets, Probes, Unprobes, EndsSweep, DropsBlock;
    if a.Announce? {
      AnnouncesInside(s, a.t, s');
    } else if a.Probe? {
      ProbesInside(s, a.t, s');
    } else {
      SweepsInside(s, a.t, s');
    }
  }

  lemma {:induction false} RunExtends(run: seq<State>, i: nat, j: nat)
    requires IsRun(run) && i <= j < |run|
    ensures run[i].history <= run[j].history && run[i].stores <= run[j].stores
  {
    hide Init, Step;
    if i < j {
      RunExtends(run, i, j - 1);
      assert Next(run[j - 1], run[j]);
      var a :| Step(run[j - 1], a, run[j]);
      StepExtends(run[j - 1], a, run[j]);
    }
  }

  /** The serial order respects real time.  `called` is the number of updates serialized when a call
      began; an update that some state has already seen precedes every commit whose call had not
      begun by then, and keeps its place for ever. */
  lemma RealTimeOrder(run: seq<State>, i: nat, j: nat, e: nat, f: nat)
    requires IsRun(run) && i <= j < |run|
    requires e < |run[i].history| && f < |run[j].history| && run[j].history[f].Commit?
    requires |run[i].history| <= run[j].history[f].job.called
    ensures e < f && run[j].history[e] == run[i].history[e]
  {
    RunExtends(run, i, j);
    RunKeepsCommitInv(run, j);
    hide IsRun, PhaseOk, FailuresOk, HistoryOk, Exclusive, TagsDistinct, Logical, JobRun, Valid;
    assert Explained(run[j].history[f], run[j].stores[f], f);
  }

  /** While a thread is not idle, it stays within one call. */
  lemma {:induction false} CallKept(run: seq<State>, j: nat, k: nat, t: Tid)
    requires IsRun(run) && j <= k < |run|
    requires forall m :: j <= m <= k ==> t < |run[m].threads| && !run[m].threads[t].Idle?
    ensures SameCall(run[j].threads[t], run[k].threads[t])
  {
    hide Init, Step;
    if j < k {
      CallKept(run, j, k - 1, t);
      assert Next(run[k - 1], run[k]);
      var a :| Step(run[k - 1], a, run[k]);
      StepExtends(run[k - 1], a, run[k]);
    }
  }

  /** Calls are serialized in real time.  A call that has returned is in the history; and if another one
      begins after that, its commit comes later in the serial order, and is recorded as begun at that very
      moment. */
  lemma CallsInRealTime(run: seq<State>, i: nat, u: Tid, j: nat, t: Tid, prog: Prog, depth: nat, k: nat)
    requires IsRun(run) && i < j < k < |run| - 1
    requires Finishes(run[i], u, run[i + 1])
    requires Begins(run[j], t, prog, depth, run[j + 1])
    requires forall m :: j < m <= k ==> t < |run[m].threads| && !run[m].threads[t].Idle?
    requires Serializes(run[k], t, run[k + 1])
    ensures var e, f, h := run[i].threads[u].index, |run[k].history|, run[k + 1].history;
            && e < |run[i].history| <= f < |h|
            && h[e].Commit? && h[e].tid == u && h[e].job == run[i].threads[u].job
            && h[f].Commit? && h[f].tid == t && h[f].job.prog == prog && h[f].job.depth == depth
            && h[f].job.called == |run[j].history|
  {
    hide IsRun, CommitInv, Begins, Finishes, Serializes, SameCall;
    RunKeepsCommitInv(run, i);
    ReturnedEvent(run[i], u, run[i + 1]);
    BegunCall(run[j], t, prog, depth, run[j + 1]);
    SerializedEvent(run[k], t, run[k + 1]);
    RunExtends(run, i, k);
    RunExtends(run, i, k + 1);
    RunExtends(run, i, j);
    CallKept(run, j + 1, k, t);
    assert var job := run[k].threads[t].job;
           job.prog == prog && job.depth == depth && job.called == |run[j].history| by {
      assert SameCall(run[j + 1].threads[t], run[k].threads[t]);
      CallOf(run[j + 1].threads[t], run[k].threads[t]);
    }
  }

  lemma CallOf(ph: Phase, ph': Phase)
    requires SameCall(ph, ph')
    ensures !ph.Idle? && !ph'.Idle? && ph'.job.prog == ph.job.prog && ph'.job.called == ph.job.called
    ensures ph'.job.depth == ph.job.depth
  {}

  lemma BegunCall(s: State, t: Tid, prog: Prog, depth: nat, s': State)
    requires Begins(s, t, prog, depth, s')
    ensures t < |s'.threads| && s'.threads[t].Running?
    ensures var job := s'.threads[t].job;
            job.prog == prog && job.depth == depth && job.called == |s.history|
  {}

  lemma ReturnedEvent(s: State, u: Tid, s': State)
    requires CommitInv(s) && Finishes(s, u, s')
    ensures u < |s.threads| && s.threads[u].Waking? && Published(s, u, s.threads[u].job, s.threads[u].index)
  {
    hide CommitInv;
    PhaseFact(s, u);
  }

  lemma SerializedEvent(s: State, t: Tid, s': State)
    requires Serializes(s, t, s')
    ensures t < |s.threads| && |s'.history| == |s.history| + 1 && !s.threads[t].Idle?
    ensures var ev := s'.history[|s.history|]; ev.Commit? && ev.tid == t && ev.job == s.threads[t].job
  {}

  // How calls end

  /** A step ends a call exactly if it is the last one of a commit that has succeeded and woken the waiters,
      or the one by which `control` gives up. */
  lemma HowCallsEnd(s: State, a: Action, s': State, t: Tid)
    requires Step(s, a, s') && t < |s.threads| && !s.threads[t].Idle?
    ensures t < |s'.threads|
    ensures s'.threads[t].Idle? <==> a == Finish(t) || a == GiveUp(t)
    ensures a == Finish(t) ==> s.threads[t].Waking?
  {
    hide Step, RunOf;
    StepExtends(s, a, s');
  }

  /** `control` can give a call up exactly where its body has ended without a result: not while it runs,
      commits, waits or has failed to commit. */
  lemma WhenControlIsAsked(s: State, t: Tid)
    requires Reachable(s) && t < |s.threads|
    ensures (exists s' :: Step(s, GiveUp(t), s'))
            <==> Ended(s.threads[t]) && !RunOf(s.threads[t]).ending.Returned?
  {
    hide Reachable, RunOf, CommitInv;
    ReachableCommitInv(s);
    Basics(s);
    if Ended(s.threads[t]) && !RunOf(s.threads[t]).ending.Returned? {
      assert Step(s, GiveUp(t), To(s, t, Idle));
    }
  }

  /** A failed validation is not among them: the call goes on with a new attempt at its body, with an
      empty log, and the failure is counted. */
  lemma FailedCommitStartsOver(s: State, t: Tid, s': State)
    requires LocksNext(s, t, s')
    requires var ph := s.threads[t]; Stale(s, ph.done.tx.log[ph.todo[0]], ph.todo[0])
    ensures t < |s'.threads| && s'.threads[t].Running? && s'.threads[t].loads == []
    ensures SameCall(s.threads[t], s'.threads[t])
    ensures s'.threads[t].job.tag == s.nextTag && s'.failures[t] == s.failures[t] + 1
  {
    hide Stale, CanLock;
  }

  // Loads

  /** Every load of an attempt that has neither committed nor been given up returned what the logical store
      held at the moment of the load, which lies within the attempt. */
  lemma LoadsAreLogical(s: State, t: Tid, m: nat)
    requires Reachable(s) && t < |s.threads| && (Active(s.threads[t]) || InWait(s.threads[t]))
    requires m < |s.threads[t].loads|
    ensures var ph := s.threads[t];
            var l := ph.loads[m];
            ph.job.born <= l.at <= |s.history| && l.at < |s.stores| && s.stores[l.at][l.x] == l.arc
  {
    hide CommitInv, Reachable;
    ReachableCommitInv(s);
    LoadsFact(s, t);
  }

  lemma LoadsFact(s: State, t: Tid)
    requires CommitInv(s) && t < |s.threads| && (Active(s.threads[t]) || InWait(s.threads[t]))
    ensures LoadsOk(s, s.threads[t].job, s.threads[t].loads)
  {
    hide CommitInv, JobRun, Unpublished, LocksOk, LoadsOk, FailuresOk;
    PhaseFact(s, t);
  }

  /** So did every load of an attempt that has committed, and the moment is not after its place in the
      serial order. */
  lemma CommittedLoadsAreLogical(s: State, e: nat, m: nat)
    requires Reachable(s) && e < |s.history| && s.history[e].Commit? && m < |s.history[e].loads|
    ensures var ev := s.history[e];
            var l := ev.loads[m];
            ev.job.born <= l.at <= e && l.at < |s.stores| && s.stores[l.at][l.x] == l.arc
  {
    ReachableCommitInv(s);
    assert LoadedBy(s.stores, s.history[e].job, s.history[e].loads, e);
    hide CommitInv, Reachable;
  }

  /** A read of a variable that nobody write-locks, inside or outside a transaction, returns what the
      logical store holds now. */
  lemma ReadIsLogical(s: State, t: Tid, x: Var)
    requires Reachable(s) && t < |s.threads| && Unwritten(s.threads[t]) == {} && NoWriter(s, t, x)
    ensures s.stores != [] && s.cells[x] == Now(s)[x]
  {
    ReachableCommitInv(s);
    Basics(s);
    hide CommitInv, Reachable;
    LoadIsLogical(s, t, x);
  }

  /** In the logical store: once it has held a box that update `e` installed, at time `i`, it never again
      holds a box that the update overwrote, of any variable. */
  lemma NoHalfCommit(s: State, e: nat, x: Var, i: nat, y: Var, before: nat, j: nat)
    requires Reachable(s) && e < |s.history| && before <= e && i <= j <= |s.history|
    requires x in s.history[e].writes && y in s.history[e].writes
    requires i < |s.stores| ==> PtrEq(s.stores[i][x], s.history[e].writes[x])
    ensures |s.stores| == |s.history| + 1
    ensures e < j && !PtrEq(s.stores[j][y], s.stores[before][y])
  {
    hide CommitInv, Reachable, HistoryOk, Writer;
    ReachableCommitInv(s);
    Basics(s);
    HistoryFact(s);
    WroteIt(s, e, x, i);
    IdentityMeansUnchanged(s, y, before, j);
  }

  lemma WroteIt(s: State, e: nat, x: Var, i: nat)
    requires HistoryOk(s) && e < |s.history| && i <= |s.history| && x in s.history[e].writes
    requires PtrEq(s.stores[i][x], s.history[e].writes[x])
    ensures e < i
  {
    assert EventOk(s, e);
    hide Writer;
    BoxOrigin(s, x, i);
    assert Writer(s, x, i) == e;
  }

  lemma HistoryFact(s: State)
    requires CommitInv(s)
    ensures HistoryOk(s)
  {
    hide HistoryOk, AllExplained, PhaseOk, FailuresOk, Exclusive, TagsDistinct, Logical;
  }

  /** A thread can read `x` now: it does not hold a commit up, and nobody write-locks the variable. */
  ghost predicate Readable(s: State, t: Tid, x: Var) {
    t < |s.threads| && Unwritten(s.threads[t]) == {} && NoWriter(s, t, x)
  }

  /** No half of a commit is ever visible: when a load, by any thread, has returned a box that update `e`
      installed, no load from then on, by any thread, returns a box that the update overwrote, of any
      variable. */
  lemma ReadsSeeWholeCommits(run: seq<State>, i: nat, t: Tid, x: Var, j: nat, u: Tid, y: Var, e: nat, before: nat)
    requires IsRun(run) && i <= j < |run| && Readable(run[i], t, x) && Readable(run[j], u, y)
    requires e < |run[j].history|
    requires x in run[j].history[e].writes && y in run[j].history[e].writes && before <= e
    requires PtrEq(run[i].cells[x], run[j].history[e].writes[x])
    ensures |run[j].stores| == |run[j].history| + 1
    ensures !PtrEq(run[j].cells[y], run[j].stores[before][y])
  {
    hide IsRun, Readable;
    RunExtends(run, i, j);
    ReadableNow(run, i, t, x);
    ReadableNow(run, j, u, y);
    assert run[i].stores[|run[i].history|] == run[j].stores[|run[i].history|];
    RunReaches(run, j);
    hide Reachable;
    NoHalfCommit(run[j], e, x, |run[i].history|, y, before, |run[j].history|);
  }

  lemma RunReaches(run: seq<State>, i: nat)
    requires IsRun(run) && i < |run|
    ensures Reachable(run[i])
  {
    hide Init, Next;
    var prefix := run[..i + 1];
    assert IsRun(prefix) && prefix[|prefix| - 1] == run[i];
  }

  lemma ReadableNow(run: seq<State>, i: nat, t: Tid, x: Var)
    requires IsRun(run) && i < |run| && Readable(run[i], t, x)
    ensures |run[i].stores| == |run[i].history| + 1
    ensures run[i].cells[x] == run[i].stores[|run[i].history|][x]
  {
    RunReaches(run, i);
    hide IsRun, Reachable, CommitInv, NoWriter, Unwritten;
    ReachableCommitInv(run[i]);
    Basics(run[i]);
    ReadIsLogical(run[i], t, x);
  }

  // Contention

  /** A thread has failed to commit at most as often as other threads have made updates. */
  lemma ContentionBound(s: State, t: Tid)
    requires Reachable(s) && t < |s.threads|
    ensures WellFormed(s)
    ensures s.failures[t] <= Others(s.history, |s.history|, t)
  {
    hide CommitInv, Reachable;
    ReachableCommitInv(s);
    Basics(s);
    ChargedByAll(s, t);
  }

  /** A commit that is about to fail was interfered with: after the load of the variable that no longer
      holds what the attempt validates, another thread's update wrote that variable. */
  lemma FailureNeedsInterference(s: State, t: Tid)
    requires Reachable(s) && t < |s.threads|
    requires var ph := s.threads[t];
             CanLockNext(s, t, ph) && Stale(s, ph.done.tx.log[ph.todo[0]], ph.todo[0])
    ensures var ph := s.threads[t];
            var x := ph.todo[0];
            Interfered(s, t, ph.job, ph.loads, x, ph.done.tx.log[x].Checked().value)
  {
    ReachableCommitInv(s);
    hide CommitInv, Reachable;
    FailureHasCause(s, t);
  }
}
