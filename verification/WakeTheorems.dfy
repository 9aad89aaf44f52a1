/** What holds of waiting and waking in every reachable state. */
module WakeTheorems {
  import opened Boxes
  import opened LogVars
  import opened Programs
  import opened Engine
  import opened Sequential
  import opened Attempts
  import opened Machine
  import opened History
  import opened CommitInvariant
  import CommitSteps
  import CommitUpdates
  import opened Serializability
  import opened WaitInvariant
  import opened WaitSteps

  lemma InitWaitInv(s: State)
    requires Init(s)
    ensures WaitInv(s)
  {}

  lemma StepKeepsWaitInv(s: State, a: Action, s': State)
    requires CommitInv(s) && WaitInv(s) && Step(s, a, s')
    ensures WaitInv(s')
  {
    hide CommitInv, WaitInv, Step;
    if IsCommitting(a) {
      CommittingKeepsWait(s, a, s');
    } else if IsWaiting(a) {
      WaitingKeepsWait(s, a, s');
    } else if IsCleaning(a) {
      CleaningKeepsWait(s, a, s');
    } else {
      RunningKeepsWait(s, a, s');
    }
  }

  lemma RunningKeepsWait(s: State, a: Action, s': State)
    requires WaitInv(s) && Step(s, a, s') && !IsCommitting(a) && !IsWaiting(a) && !IsCleaning(a)
    ensures WaitInv(s')
  {
    hide WaitInv, Begins, Loads, StartsCommit, GivesUp, Reruns;
    if a.Begin? {
      RestartingKeeps(s, a.t, s');
    } else if a.LoadVar? {
      RunningKeeps(s, a.t, s');
    } else if a.StartCommit? {
      RunningKeeps(s, a.t, s');
    } else if a.GiveUp? {
      RunningKeeps(s, a.t, s');
    } else if a.Rerun? {
      RestartingKeeps(s, a.t, s');
    }
  }

  lemma CommittingKeepsWait(s: State, a: Action, s': State)
    requires CommitInv(s) && WaitInv(s) && Step(s, a, s') && IsCommitting(a)
    ensures WaitInv(s')
  {
    hide CommitInv, WaitInv, Watcher, Dated, LocksNext, Serializes, WritesBack, StartsWaking, TakesList,
         Upgrades, SetsChanged, Unparks, Releases, Finishes, WritesAtomic;
    if a.LockNext? {
      LocksNextKeeps(s, a.t, s');
    } else if a.Serialize? {
      SerializesKeeps(s, a.t, s');
    } else if a.WriteBack? {
      WritesBackKeeps(s, a.t, s');
    } else if a.StartWaking? {
      FinishingKeeps(s, a.t, s');
    } else if a.TakeList? {
      TakesListKeeps(s, a.t, s');
    } else if a.Upgrade? {
      UpgradesKeeps(s, a.t, s');
    } else if a.SetChanged? {
      SetsChangedKeeps(s, a.t, s');
    } else if a.Unpark? {
      UnparksKeeps(s, a.t, s');
    } else if a.Release? {
      ReleasesKeeps(s, a.t, s');
    } else if a.Finish? {
      FinishingKeeps(s, a.t, s');
    } else if a.WriteAtomic? {
      WatchersDated(s, a.t);
      WritesAtomicKeeps(s, a.t, a.x, a.v, s');
    }
  }

  lemma WaitingKeepsWait(s: State, a: Action, s': State)
    requires WaitInv(s) && Step(s, a, s') && IsWaiting(a)
    ensures WaitInv(s')
  {
    hide WaitInv, StartsWait, Registers, Checks, Blocks, Polls, IsUnparked;
    if a.StartWait? {
      StartsWaitKeeps(s, a.t, s');
    } else if a.Register? {
      RegistersKeeps(s, a.t, s');
    } else if a.Check? {
      ChecksKeeps(s, a.t, s');
    } else if a.Block? {
      BlocksKeeps(s, a.t, s');
    } else if a.Poll? {
      PollsKeeps(s, a.t, s');
    } else {
      IsUnparkedKeeps(s, a.t, a.spurious, s');
    }
  }

  lemma CleaningKeepsWait(s: State, a: Action, s': State)
    requires WaitInv(s) && Step(s, a, s') && IsCleaning(a)
    ensures WaitInv(s')
  {
    hide WaitInv, Announces, Resets, Probes, Unprobes, EndsSweep, DropsBlock;
    if a.Announce? {
      AnnouncesKeeps(s, a.t, s');
    } else if a.Reset? {
      ResetsKeeps(s, a.t, s');
    } else if a.Probe? {
      ProbesKeeps(s, a.t, s');
    } else if a.DropBlock? {
      DropsBlockKeeps(s, a.t, s');
    } else {
      SweepingKeeps(s, a.t, s');
    }
  }

  lemma WatchersDated(s: State, t: Tid)
    requires CommitInv(s)
    ensures forall u: nat | Watcher(s, t, u) :: Dated(s, s.threads[u].loads)
  {
    hide CommitInv;
    forall u: nat | Watcher(s, t, u) ensures Dated(s, s.threads[u].loads) {
      hide JobRun;
      CommitSteps.PhaseFact(s, u);
    }
  }

  lemma {:induction false} RunKeepsWaitInv(run: seq<State>, i: nat)
    requires IsRun(run) && i < |run|
    ensures WaitInv(run[i])
  {
    hide CommitInv, WaitInv, Init, Step;
    if i == 0 {
      InitWaitInv(run[0]);
    } else {
      RunKeepsWaitInv(run, i - 1);
      RunKeepsCommitInv(run, i - 1);
      assert Next(run[i - 1], run[i]);
      var a :| Step(run[i - 1], a, run[i]);
      StepKeepsWaitInv(run[i - 1], a, run[i]);
    }
  }

  /** The wait invariant holds in every reachable state. */
  lemma ReachableWaitInv(s: State)
    requires Reachable(s)
    ensures WaitInv(s)
  {
    hide WaitInv, Init, Next;
    var run :| IsRun(run) && run[|run| - 1] == s;
    RunKeepsWaitInv(run, |run| - 1);
  }

  /** A thread in wait_for_change whose block has not been informed. */
  ghost predicate Uninformed(s: State, t: Tid) {
    t < |s.threads| && InWait(s.threads[t]) && s.threads[t].cb < |s.cbs| && s.cbs[s.threads[t].cb].blocked
  }

  /** One that has registered with everything it observed, and is in `wait`. */
  ghost predicate Sleeping(s: State, t: Tid) {
    Uninformed(s, t) && s.threads[t].Waiting?
  }

  /** A committer that has stored a new value of `x` is yet to take its list, or one that has taken
      the thread's block is yet to inform it. */
  ghost predicate WakeUpComing(s: State, t: Tid, x: Var)
    requires t < |s.threads| && InWait(s.threads[t])
  {
    WillWake(s, x) || InFlight(s, s.threads[t].cb)
  }

  /** The m-th load returned what the attempt's log observed of `x`. */
  ghost predicate ObservedAt(ph: Phase, x: Var, m: nat)
    requires InWait(ph)
  {
    && m < |ph.loads| && ph.loads[m].x == x
    && ph.done.Done? && Observed(ph.done.tx.log, x) == Some(ph.loads[m].arc)
  }

  /** No lost wake-up, exactly: as long as a thread is not informed and no wake-up is on the way, a
      variable that it has registered with and checked still holds what it observed if and only if nobody
      has written it outside transactions since it was loaded. */
  lemma NoLostWakeUp(s: State, t: Tid, x: Var, m: nat)
    requires Reachable(s) && Uninformed(s, t) && x in s.threads[t].seen && ObservedAt(s.threads[t], x, m)
    requires !WakeUpComing(s, t, x)
    ensures Holds(s.cells, s.threads[t].done.tx.log, x)
            <==> !BareSince(s.history, x, s.threads[t].loads[m].at)
  {
    ReachableWaitInv(s);
    ReachableCommitInv(s);
    hide CommitInv, WaitInv, Reachable, InFlight, WillWake, BareSince, Holds;
    WaitFact(s, t);
    hide WaitOk;
    if BareSince(s.history, x, s.threads[t].loads[m].at) {
      BareEndsIt(s, t, x, m);
    }
  }

  /** The other half of it in terms of the store alone: a value written outside transactions since the
      load is never undone. */
  lemma BareEndsIt(s: State, t: Tid, x: Var, m: nat)
    requires CommitInv(s) && t < |s.threads| && InWait(s.threads[t]) && ObservedAt(s.threads[t], x, m)
    requires BareSince(s.history, x, s.threads[t].loads[m].at)
    ensures !Holds(s.cells, s.threads[t].done.tx.log, x)
  {
    WaiterFacts(s, t);
    var at := s.threads[t].loads[m].at;
    var e: nat :| at <= e < |s.history| && s.history[e].Bare? && x in s.history[e].writes;
    hide HistoryOk, JobRun;
    var i := CellsAreLogical(s, x);
    IdentityMeansUnchanged(s, x, at, i);
  }

  /** Everything a sleeper observed it has registered with and checked. */
  lemma SleeperSeen(s: State, t: Tid, x: Var) returns (m: nat)
    requires Reachable(s) && Sleeping(s, t)
    requires s.threads[t].done.Done? ==> Observed(s.threads[t].done.tx.log, x).Some?
    ensures x in s.threads[t].seen && ObservedAt(s.threads[t], x, m)
  {
    ReachableWaitInv(s);
    ReachableCommitInv(s);
    hide CommitInv, WaitInv, Reachable;
    var ph := s.threads[t];
    assert x in ph.seen by {
      WaitFact(s, t);
      hide Linked, Watched, BeingUnparked;
      assert x in WaitKeys(ph.done.tx.log);
    }
    WaiterFacts(s, t);
    hide JobRun;
    m := CommitUpdates.ObservedWasLoaded(ph.job, ph.loads, x, Observed(ph.done.tx.log, x).value);
  }

  /** What a variable holds is what the logical store held at some moment, since when nobody has written
      it outside transactions. */
  lemma CellsAreLogical(s: State, x: Var) returns (i: nat)
    requires CommitInv(s)
    ensures |s.stores| == |s.history| + 1 && i <= |s.history| && s.stores[i][x] == s.cells[x]
    ensures forall e :: i <= e < |s.history| && s.history[e].Bare? ==> x !in s.history[e].writes
  {
    assert WellFormed(s) && (Settled(s, x) ==> s.cells[x] == s.stores[|s.history|][x]) by {
      hide FailuresOk, HistoryOk, AllExplained, Exclusive, TagsDistinct, PhaseOk;
    }
    hide CommitInv, Unwritten;
    if Settled(s, x) {
      i := |s.history|;
    } else {
      var t: nat :| t < |s.threads| && x in Unwritten(s.threads[t]);
      UnwrittenCell(s, t, x);
      i := s.threads[t].index;
    }
  }

  lemma UnwrittenCell(s: State, t: Tid, x: Var)
    requires CommitInv(s) && t < |s.threads| && x in Unwritten(s.threads[t])
    ensures s.threads[t].Writing?
    ensures var i := s.threads[t].index;
            && i < |s.history| && |s.stores| == |s.history| + 1 && s.stores[i][x] == s.cells[x]
            && forall e :: i <= e < |s.history| && s.history[e].Bare? ==> x !in s.history[e].writes
  {
    hide CommitInv, HistoryOk, WritingOk;
    HistoryFact(s);
    WriterFact(s, t);
    WritingAt(s, t, x);
    OnlyOneWrite(s, x, s.threads[t].index);
  }

  lemma WritingAt(s: State, t: Tid, x: Var)
    requires WellFormed(s) && t < |s.threads| && x in Unwritten(s.threads[t]) && WritingOk(s, t, s.threads[t])
    ensures var i := s.threads[t].index;
            && i < |s.history| && s.history[i].Commit? && x in s.history[i].writes
            && s.stores[|s.history|][x] == s.history[i].writes[x] && s.cells[x] == s.stores[i][x]
  {
    var ph := s.threads[t];
    assert x in ph.todo && x in ph.written + ph.todo;
    hide *;
  }

  lemma OnlyOneWrite(s: State, x: Var, i: nat)
    requires HistoryOk(s) && i < |s.history| && x in s.history[i].writes
    requires s.stores[|s.history|][x] == s.history[i].writes[x]
    ensures forall e :: i < e < |s.history| ==> x !in s.history[e].writes
  {
    assert EventOk(s, i);
    hide HistoryOk;
    IdentityMeansUnchanged(s, x, i + 1, |s.history|);
  }

  lemma WriterFact(s: State, t: Tid)
    requires CommitInv(s) && t < |s.threads| && s.threads[t].Writing?
    ensures WellFormed(s) && WritingOk(s, t, s.threads[t])
  {
    hide CommitInv, WritingOk;
    CommitSteps.PhaseFact(s, t);
  }

  lemma WaiterFacts(s: State, t: Tid)
    requires CommitInv(s) && t < |s.threads| && InWait(s.threads[t])
    ensures HistoryOk(s)
    ensures var ph := s.threads[t];
            && ph.done == JobRun(ph.job, ph.loads) && ph.done.Done? && ph.done.ending.Retried?
            && LoadsOk(s, ph.job, ph.loads)
  {
    assert HistoryOk(s);
    hide CommitInv, FailuresOk, HistoryOk, JobRun, LoadsOk;
    CommitSteps.PhaseFact(s, t);
  }

  /** The boxes a waiting thread has loaded and those the variables hold are told apart by their
      identities. */
  lemma WaiterBoxes(s: State, t: Tid)
    requires CommitInv(s) && t < |s.threads| && InWait(s.threads[t])
    ensures SameBoxes(s.threads[t].loads, s.cells)
  {
    WaiterFacts(s, t);
    hide CommitInv, HistoryOk, JobRun;
    var ls := s.threads[t].loads;
    forall m | 0 <= m < |ls| && PtrEq(s.cells[ls[m].x], ls[m].arc) ensures s.cells[ls[m].x] == ls[m].arc {
      var i := CellsAreLogical(s, ls[m].x);
      var at := ls[m].at;
      if i <= at {
        IdentityMeansUnchanged(s, ls[m].x, i, at);
      } else {
        IdentityMeansUnchanged(s, ls[m].x, at, i);
      }
    }
  }

  /** Retry soundness: if a thread sleeps, no wake-up is on the way, nobody has written outside
      transactions what it observed since it was loaded, and agreement held at every merge of its attempt,
      then running its body atomically on what the variables hold now would block again. */
  lemma RetrySound(s: State, t: Tid)
    requires Reachable(s) && Sleeping(s, t) && (s.threads[t].done.Done? ==> s.threads[t].done.agreed)
    requires forall x, m: nat :: ObservedAt(s.threads[t], x, m) ==>
               !WakeUpComing(s, t, x) && !BareSince(s.history, x, s.threads[t].loads[m].at)
    ensures var job := s.threads[t].job;
            Direct(job.prog, job.depth, Payloads(s.cells)) == Blocked
  {
    var ph := s.threads[t];
    ReachableCommitInv(s);
    assert Unchanged(ph.done.tx.log, s.cells) by {
      hide Reachable, CommitInv, BareSince, WakeUpComing;
      forall x | Observed(ph.done.tx.log, x).Some? ensures PtrEq(s.cells[x], Observed(ph.done.tx.log, x).value) {
        var m := SleeperSeen(s, t, x);
        NoLostWakeUp(s, t, x, m);
      }
    }
    hide Reachable, Unchanged, SameBoxes, CommitInv;
    WaiterBoxes(s, t);
    WaiterFacts(s, t);
    hide Exec, Direct;
    RetryReplays(ph.job.prog, ph.job.depth, ph.job.tag, ph.loads, s.cells);
  }

  /** For bodies without `or` agreement is never in question. */
  lemma RetrySoundOrFree(s: State, t: Tid)
    requires Reachable(s) && Sleeping(s, t) && OrFree(s.threads[t].job.prog, s.threads[t].job.depth)
    requires forall x, m: nat :: ObservedAt(s.threads[t], x, m) ==>
               !WakeUpComing(s, t, x) && !BareSince(s.history, x, s.threads[t].loads[m].at)
    ensures var job := s.threads[t].job;
            Direct(job.prog, job.depth, Payloads(s.cells)) == Blocked
  {
    var ph := s.threads[t];
    hide Reachable, CommitInv, WakeUpComing, BareSince, Exec, Direct, OrFree, HistoryOk, LoadsOk;
    ReachableCommitInv(s);
    WaiterFacts(s, t);
    OrFreeRun(ph.job.prog, ph.job.depth, ph.job.tag, Recorded(ph.loads), EMPTY);
    RetrySound(s, t);
  }

  /** `write_atomic` wakes nobody: a waiting thread that no wake-up was on the way to waits on, with none
      on the way, although the variable no longer holds what it observed. */
  lemma WriteAtomicWakesNobody(s: State, u: Tid, x: Var, v: Val, s': State, t: Tid)
    requires Reachable(s) && Uninformed(s, t) && WritesAtomic(s, u, x, v, s') && !WakeUpComing(s, t, x)
    requires s.threads[t].done.Done? ==> Observed(s.threads[t].done.tx.log, x).Some?
    ensures s.threads[t].done.Done?
    ensures Uninformed(s', t) && s'.threads[t] == s.threads[t] && !WakeUpComing(s', t, x)
    ensures !Holds(s'.cells, s.threads[t].done.tx.log, x)
  {
    ReachableCommitInv(s);
    assert s.threads[t].done.Done? by { WaiterFacts(s, t); }
    ObservedIsOld(s, t, x);
    hide CommitInv, Reachable, NoHolder, WakeUpComing;
    assert s'.threads == s.threads && s'.cbs == s.cbs;
    assert s'.cells[x].id == Box(s.nextTag, 0);
    SameWakeUps(s, s', t, x);
  }

  lemma SameWakeUps(s: State, s': State, t: Tid, x: Var)
    requires s'.threads == s.threads && t < |s.threads| && InWait(s.threads[t])
    ensures WakeUpComing(s', t, x) <==> WakeUpComing(s, t, x)
  {}

  /** What a waiting thread observed was allocated before the next allocation. */
  lemma ObservedIsOld(s: State, t: Tid, x: Var)
    requires CommitInv(s) && t < |s.threads| && InWait(s.threads[t]) && s.threads[t].done.Done?
    requires Observed(s.threads[t].done.tx.log, x).Some?
    ensures Observed(s.threads[t].done.tx.log, x).value.id != Box(s.nextTag, 0)
  {
    var ph := s.threads[t];
    WaiterFacts(s, t);
    hide CommitInv, HistoryOk, JobRun, Writer, EventOk;
    var m := CommitUpdates.ObservedWasLoaded(ph.job, ph.loads, x, Observed(ph.done.tx.log, x).value);
    OldTags(s, x, ph.loads[m].at);
  }

  lemma OldTags(s: State, x: Var, i: nat)
    requires HistoryOk(s) && i <= |s.history|
    ensures s.stores[i][x].id != Box(s.nextTag, 0)
  {
    hide Writer;
    BoxOrigin(s, x, i);
    var w := Writer(s, x, i);
    if w >= 0 { assert EventOk(s, w); }
  }

  // Park and unpark

  /** A parked thread whose block has been informed has a token, or its informer is about to unpark
      it; so a thread that is parked for good has not been informed. */
  lemma ParkedIsUnparked(s: State, t: Tid)
    requires Reachable(s) && t < |s.threads| && s.threads[t].Waiting? && s.threads[t].parked
    requires (t < |s.tokens| ==> !s.tokens[t]) && !BeingUnparked(s, s.threads[t].cb)
    ensures Sleeping(s, t)
  {
    ReachableWaitInv(s);
    hide WaitInv, Reachable, BeingUnparked, Linked, Watched;
    WaitFact(s, t);
  }

  /** `wait` returns only after `set_changed`: when a thread leaves it, exactly one swap has found its
      block blocked; and no block ever sees a second one. */
  lemma WaitReturnsInformed(s: State, t: Tid, s': State)
    requires Reachable(s) && Polls(s, t, s')
    ensures s'.threads[t].Cleaning? <==> s.cbs[s.threads[t].cb].wakers == 1
  {
    ReachableWaitInv(s);
    hide WaitInv, Reachable;
    CbFacts(s);
    assert CbOk(s, s.threads[t].cb);
  }

  lemma OneWaker(s: State, c: CbId)
    requires Reachable(s) && c < |s.cbs|
    ensures s.cbs[c].wakers <= 1
    ensures s.cbs[c].wakers == 0 <==> s.cbs[c].blocked
  {
    ReachableWaitInv(s);
    hide WaitInv, Reachable;
    CbFacts(s);
    assert CbOk(s, c);
  }

  /** A cleanup never removes a thread that is still inside wait_for_change from a list. */
  lemma SweepSparesWaiters(s: State, u: Tid, s': State, t: Tid, x: Var)
    requires Reachable(s) && Probes(s, u, s') && t < |s.threads| && HasBlock(s.threads[t])
    requires s.threads[t].cb in List(s, x)
    ensures s.threads[t].cb in List(s', x)
  {
    hide WaitInv, Reachable, Probes, List;
    ReachableWaitInv(s);
    assert BlockOk(s, t, s.threads[t].cb) by {
      WaitFact(s, t);
      hide Linked, Watched, BeingUnparked, WaitKeys;
    }
    ProbesList(s, u, s', s.threads[t].cb);
  }
}
