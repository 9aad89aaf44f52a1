/** Every step keeps the commit invariant. */
module CommitSteps {
  import opened Boxes
  import opened LogVars
  import opened Programs
  import opened Engine
  import opened Sequential
  import opened Suspension
  import opened Attempts
  import opened Sorting
  import opened Machine
  import opened History
  import opened CommitInvariant

  lemma Basics(s: State)
    requires CommitInv(s)
    ensures WellFormed(s)
  {}

  // New attempts

  lemma NewAttemptOk(s: State, s': State, t: Tid, job: Job)
    requires CommitInv(s) && t < |s.threads|
    requires WellFormed(s') && s'.history == s.history && s'.stores == s.stores
    requires s'.nextTag == s.nextTag + 1 && job.tag == s.nextTag
    requires job.called <= job.born == |s.history|
    ensures PhaseOk(s', t, Running(job, []))
  {
    hide FailuresOk, AllExplained, Exclusive, TagsDistinct, Logical, Exec;
    Exhausted(job.prog, job.depth, job.tag, [], EMPTY);
    assert !JobRun(job, []).OffTrack?;
    hide JobRun;
    assert Unpublished(s', t, job) by {
      forall e: nat | e < |s.history| ensures s.history[e].Tag() != job.tag { assert EventOk(s, e); }
    }
    hide Unpublished, HistoryOk;
  }

  ghost predicate StartsOver(s: State, s': State, t: Tid, job: Job, failed: nat) {
    && WellFormed(s) && t < |s.threads| && WellFormed(s')
    && s'.cells == s.cells && s'.history == s.history && s'.stores == s.stores
    && s'.nextTag == s.nextTag + 1
    && s'.threads == s.threads[t := Running(job, [])] && s'.failures == s.failures[t := failed]
    && job.tag == s.nextTag && job.called <= job.born == |s.history|
  }

  lemma StartsOverQuiet(s: State, s': State, t: Tid, job: Job, failed: nat)
    requires StartsOver(s, s', t, job, failed) && Unwritten(s.threads[t]) == {}
    ensures Quiet(s, s', t)
  {}

  /** Clearing the log and starting over, from a phase that has nothing left to store. */
  lemma AgainKeeps(s: State, s': State, t: Tid, job: Job, failed: nat)
    requires CommitInv(s) && StartsOver(s, s', t, job, failed)
    requires failed <= Others(s.history, |s.history|, t)
    requires Unwritten(s.threads[t]) == {}
    ensures CommitInv(s')
  {
    NewAttemptOk(s, s', t, job);
    StartsOverQuiet(s, s', t, job, failed);
    hide PhaseOk, CommitInv, Quiet;
    assert FailuresOk(s', t);
    QuietKeeps(s, s', t);
  }

  /** A thread outside an attempt has been charged by all of the history at most. */
  lemma ChargedByAll(s: State, t: Tid)
    requires CommitInv(s) && t < |s.threads|
    ensures s.failures[t] <= Others(s.history, |s.history|, t)
  {
    hide PhaseOk, HistoryOk, AllExplained, Exclusive, TagsDistinct, Logical;
    assert FailuresOk(s, t);
    OthersMonotone(s.history, Limit(s, t), |s.history|, t);
  }

  /** A step that leaves the thread outside an attempt. */
  lemma LeavesAttempt(s: State, s': State, t: Tid)
    requires CommitInv(s) && Quiet(s, s', t) && !Active(s'.threads[t]) && s'.failures[t] == s.failures[t]
    requires PhaseOk(s', t, s'.threads[t])
    ensures CommitInv(s')
  {
    hide PhaseOk, HistoryOk, AllExplained, Exclusive, TagsDistinct, Logical, CommitInv, Quiet;
    QuietSame(s, s', t);
    ChargedByAll(s, t);
    QuietKeeps(s, s', t);
  }

  lemma QuietSame(s: State, s': State, t: Tid)
    requires Quiet(s, s', t)
    ensures s'.history == s.history && s'.nextTag >= s.nextTag
    ensures WellFormed(s') && t < |s.threads| == |s'.threads|
  {}

  lemma BeginsKeeps(s: State, t: Tid, prog: Prog, depth: nat, s': State)
    requires CommitInv(s) && Begins(s, t, prog, depth, s')
    ensures CommitInv(s')
  {
    hide CommitInv;
    ChargedByAll(s, t);
    AgainKeeps(s, s', t, Job(prog, depth, |s.history|, s.nextTag, |s.history|), s.failures[t]);
  }

  lemma RerunsKeeps(s: State, t: Tid, s': State)
    requires CommitInv(s) && Reruns(s, t, s')
    ensures CommitInv(s')
  {
    var job := s.threads[t].job;
    assert job.called <= |s.history| by { assert PhaseOk(s, t, s.threads[t]); }
    hide CommitInv, RunOf;
    ChargedByAll(s, t);
    AgainKeeps(s, s', t, job.(tag := s.nextTag, born := |s.history|), s.failures[t]);
  }

  lemma CleaningJob(s: State, t: Tid)
    requires CommitInv(s) && t < |s.threads| && s.threads[t].Cleaning?
    ensures s.threads[t].job.called <= |s.history|
  {
    hide FailuresOk, HistoryOk, AllExplained, Exclusive, TagsDistinct, Logical;
    assert PhaseOk(s, t, s.threads[t]);
  }

  lemma DropsBlockKeeps(s: State, t: Tid, s': State)
    requires CommitInv(s) && DropsBlock(s, t, s')
    ensures CommitInv(s')
  {
    hide CommitInv;
    var job := s.threads[t].job;
    CleaningJob(s, t);
    ChargedByAll(s, t);
    assert StartsOver(s, s', t, job.(tag := s.nextTag, born := |s.history|), s.failures[t]);
    hide DropsBlock, StartsOver;
    AgainKeeps(s, s', t, job.(tag := s.nextTag, born := |s.history|), s.failures[t]);
  }

  /** A load of a variable that nobody write-locks returns what the logical store holds. */
  lemma LoadIsLogical(s: State, t: Tid, x: Var)
    requires CommitInv(s) && t < |s.threads| && Unwritten(s.threads[t]) == {} && NoWriter(s, t, x)
    ensures s.cells[x] == Now(s)[x]
  {
    hide PhaseOk, FailuresOk, HistoryOk, AllExplained, Exclusive, TagsDistinct;
    assert Settled(s, x) by {
      forall u | 0 <= u < |s.threads| ensures x !in Unwritten(s.threads[u]) {
        assert u != t ==> x !in HeldWrites(s.threads[u]);
      }
    }
  }

  lemma PhaseFact(s: State, t: Tid)
    requires CommitInv(s) && t < |s.threads|
    ensures WellFormed(s) && PhaseOk(s, t, s.threads[t]) && FailuresOk(s, t)
  {
    hide PhaseOk, FailuresOk;
  }

  lemma LoadsOkMore(s: State, job: Job, loads: seq<Load>, l: Load)
    requires WellFormed(s) && LoadsOk(s, job, loads)
    requires job.born <= l.at <= |s.history| && s.stores[l.at][l.x] == l.arc
    ensures LoadsOk(s, job, loads + [l])
  {}

  lemma LoadsMoved(s: State, s': State, job: Job, loads: seq<Load>)
    requires s'.history == s.history && s'.stores == s.stores && LoadsOk(s, job, loads)
    ensures LoadsOk(s', job, loads)
  {}

  lemma LoadResumes(job: Job, loads: seq<Load>, l: Load)
    requires JobRun(job, loads).NeedLoad? && JobRun(job, loads).x == l.x
    ensures !JobRun(job, loads + [l]).OffTrack?
  {
    hide Exec;
    Resume(job.prog, job.depth, job.tag, loads, l, EMPTY);
  }

  lemma RunningStep(s: State, s': State, t: Tid, loads: seq<Load>)
    requires PhaseFacts(s, t) && s.threads[t].Running?
    requires s' == To(s, t, Running(s.threads[t].job, loads))
    requires LoadsOk(s', s.threads[t].job, loads) && !JobRun(s.threads[t].job, loads).OffTrack?
    ensures Quiet(s, s', t) && PhaseOk(s', t, s'.threads[t]) && FailuresOk(s', t)
  {
    hide LoadsOk, JobRun;
  }

  ghost predicate PhaseFacts(s: State, t: Tid) {
    WellFormed(s) && t < |s.threads| && PhaseOk(s, t, s.threads[t]) && FailuresOk(s, t)
  }

  lemma LoadsKeeps(s: State, t: Tid, s': State)
    requires CommitInv(s) && Loads(s, t, s')
    ensures CommitInv(s')
  {
    hide CommitInv, Attempt, NoWriter;
    var ph := s.threads[t];
    var x := RunOf(ph).x;
    var l := Load(x, s.cells[x], |s.history|);
    PhaseFact(s, t);
    LoadIsLogical(s, t, x);
    LoadResumes(ph.job, ph.loads, l);
    assert LoadsOk(s, ph.job, ph.loads) && ph.job.born <= |s.history|;
    hide PhaseOk, FailuresOk, LoadsOk;
    LoadsOkMore(s, ph.job, ph.loads, l);
    LoadsMoved(s, s', ph.job, ph.loads + [l]);
    RunningStep(s, s', t, ph.loads + [l]);
    hide Loads, Quiet;
    QuietKeeps(s, s', t);
  }

  lemma LocksStart(cells: Store, log: Log)
    ensures LocksOk(cells, log, InOrder(log.Keys), {}, {})
  {}

  lemma StartsCommitKeeps(s: State, t: Tid, s': State)
    requires CommitInv(s) && StartsCommit(s, t, s')
    ensures CommitInv(s')
  {
    hide CommitInv, Attempt, LocksOk;
    var ph := s.threads[t];
    PhaseFact(s, t);
    LocksStart(s.cells, RunOf(ph).tx.log);
    assert PhaseOk(s', t, s'.threads[t]) by {
      LoadsMoved(s, s', ph.job, ph.loads);
      hide LoadsOk;
    }
    assert Quiet(s, s', t) && FailuresOk(s', t) by { hide PhaseOk; }
    hide PhaseOk, Quiet, FailuresOk;
    QuietKeeps(s, s', t);
  }

  lemma IdleQuiet(s: State, s': State, t: Tid)
    requires WellFormed(s) && t < |s.threads| && s' == To(s, t, Idle) && Unwritten(s.threads[t]) == {}
    ensures Quiet(s, s', t) && PhaseOk(s', t, s'.threads[t])
  {}

  lemma GivesUpKeeps(s: State, t: Tid, s': State)
    requires CommitInv(s) && GivesUp(s, t, s')
    ensures CommitInv(s')
  {
    hide CommitInv, RunOf, PhaseOk, Quiet;
    IdleQuiet(s, s', t);
    assert s'.failures == s.failures;
    hide GivesUp;
    LeavesAttempt(s, s', t);
  }

  lemma StartsWaitKeeps(s: State, t: Tid, s': State)
    requires CommitInv(s) && StartsWait(s, t, s')
    ensures CommitInv(s')
  {
    hide CommitInv, Attempt, WaitKeys;
    var ph := s.threads[t];
    PhaseFact(s, t);
    assert PhaseOk(s', t, s'.threads[t]) by {
      LoadsMoved(s, s', ph.job, ph.loads);
      hide LoadsOk, FailuresOk;
    }
    hide PhaseOk, FailuresOk;
    LeavesAttempt(s, s', t);
  }

  /** A step inside wait_for_change, or out of it. */
  lemma WaitStep(s: State, s': State, t: Tid)
    requires CommitInv(s) && Quiet(s, s', t) && s'.failures[t] == s.failures[t]
    requires var ph, ph' := s.threads[t], s'.threads[t];
             && InWait(ph)
             && ((ph'.Cleaning? && ph'.job == ph.job)
                 || (InWait(ph') && ph'.job == ph.job && ph'.loads == ph.loads && ph'.done == ph.done))
    ensures CommitInv(s')
  {
    hide CommitInv;
    QuietSame(s, s', t);
    var ph, ph' := s.threads[t], s'.threads[t];
    PhaseFact(s, t);
    assert PhaseOk(s', t, ph') by {
      hide FailuresOk, JobRun;
      assert s'.stores == s.stores by { hide PhaseOk; }
      hide Quiet;
      LoadsMoved(s, s', ph.job, ph.loads);
      hide LoadsOk;
    }
    hide PhaseOk, Quiet, FailuresOk;
    LeavesAttempt(s, s', t);
  }

  lemma RegistersKeeps(s: State, t: Tid, s': State)
    requires CommitInv(s) && Registers(s, t, s')
    ensures CommitInv(s')
  {
    hide CommitInv, MutexFree;
    WaitStep(s, s', t);
  }

  lemma ChecksKeeps(s: State, t: Tid, s': State)
    requires CommitInv(s) && Checks(s, t, s')
    ensures CommitInv(s')
  {
    hide CommitInv, NoWriter;
    WaitStep(s, s', t);
  }

  lemma BlocksKeeps(s: State, t: Tid, s': State)
    requires CommitInv(s) && Blocks(s, t, s')
    ensures CommitInv(s')
  {
    hide CommitInv;
    WaitStep(s, s', t);
  }

  lemma PollsKeeps(s: State, t: Tid, s': State)
    requires CommitInv(s) && Polls(s, t, s')
    ensures CommitInv(s')
  {
    hide CommitInv;
    WaitStep(s, s', t);
  }

  lemma IsUnparkedKeeps(s: State, t: Tid, spurious: bool, s': State)
    requires CommitInv(s) && IsUnparked(s, t, spurious, s')
    ensures CommitInv(s')
  {
    hide CommitInv;
    WaitStep(s, s', t);
  }

  /** A step of a cleanup. */
  lemma CleanStep(s: State, s': State, t: Tid)
    requires CommitInv(s) && Quiet(s, s', t) && s'.failures[t] == s.failures[t]
    requires s.threads[t].Cleaning? && s'.threads[t].Cleaning? && s'.threads[t].job == s.threads[t].job
    ensures CommitInv(s')
  {
    hide CommitInv;
    QuietSame(s, s', t);
    PhaseFact(s, t);
    hide Quiet, FailuresOk;
    LeavesAttempt(s, s', t);
  }

  lemma CleaningKeeps(s: State, t: Tid, s': State)
    requires CommitInv(s) && (Announces(s, t, s') || Resets(s, t, s') || Unprobes(s, t, s') || EndsSweep(s, t, s'))
    ensures CommitInv(s')
  {
    hide CommitInv;
    CleanStep(s, s', t);
  }

  lemma ProbesKeeps(s: State, t: Tid, s': State)
    requires CommitInv(s) && Probes(s, t, s')
    ensures CommitInv(s')
  {
    hide CommitInv, Upgradable;
    CleanStep(s, s', t);
  }

  lemma StartsWakingKeeps(s: State, t: Tid, s': State)
    requires CommitInv(s) && StartsWaking(s, t, s')
    ensures CommitInv(s')
  {
    hide CommitInv;
    var ph := s.threads[t];
    PhaseFact(s, t);
    assert PhaseOk(s', t, s'.threads[t]) by {
      assert ph.written + ph.todo == ph.written;
      hide Ascending, FailuresOk;
    }
    hide PhaseOk, FailuresOk;
    LeavesAttempt(s, s', t);
  }

  /** A step of the wake-up. */
  lemma WakeStep(s: State, s': State, t: Tid)
    requires CommitInv(s) && Quiet(s, s', t) && s'.failures[t] == s.failures[t]
    requires var ph, ph' := s.threads[t], s'.threads[t];
             && ph.Waking?
             && (ph'.Idle?
                 || (ph'.Waking? && ph'.job == ph.job && ph'.index == ph.index
                     && (ph'.todo == ph.todo || (ph.todo != [] && ph'.todo == ph.todo[1..]))))
    ensures CommitInv(s')
  {
    hide CommitInv;
    QuietSame(s, s', t);
    PhaseFact(s, t);
    hide Quiet, FailuresOk;
    LeavesAttempt(s, s', t);
  }

  lemma TakesListKeeps(s: State, t: Tid, s': State)
    requires CommitInv(s) && TakesList(s, t, s')
    ensures CommitInv(s')
  {
    hide CommitInv, MutexFree;
    WakeStep(s, s', t);
  }

  lemma UpgradesKeeps(s: State, t: Tid, s': State)
    requires CommitInv(s) && Upgrades(s, t, s')
    ensures CommitInv(s')
  {
    hide CommitInv, Upgradable;
    WakeStep(s, s', t);
  }

  lemma ReleasesKeeps(s: State, t: Tid, s': State)
    requires CommitInv(s) && Releases(s, t, s')
    ensures CommitInv(s')
  {
    hide CommitInv;
    WakeStep(s, s', t);
  }

  lemma SetsChangedKeeps(s: State, t: Tid, s': State)
    requires CommitInv(s) && SetsChanged(s, t, s')
    ensures CommitInv(s')
  {
    hide CommitInv, Upgradable;
    WakeStep(s, s', t);
  }

  lemma UnparksKeeps(s: State, t: Tid, s': State)
    requires CommitInv(s) && Unparks(s, t, s')
    ensures CommitInv(s')
  {
    hide CommitInv;
    WakeStep(s, s', t);
  }

  lemma FinishesKeeps(s: State, t: Tid, s': State)
    requires CommitInv(s) && Finishes(s, t, s')
    ensures CommitInv(s')
  {
    hide CommitInv;
    WakeStep(s, s', t);
  }
}
