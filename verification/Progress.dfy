/** Deadlock freedom: as long as some thread is busy, some busy thread can step. */
module Progress {
  import opened Boxes
  import opened Attempts
  import opened Machine
  import opened History
  import opened CommitInvariant
  import CommitSteps
  import CommitUpdates
  import opened WaitInvariant
  import opened WaitSteps
  import opened Serializability
  import opened WakeTheorems
  import Calls

  /** Idle threads that have called `write_atomic`, and on which variable; any of them may have. */
  type Callers = map<Tid, Var>

  /** A thread that has something to do: a load, what its body's ending demands, a commit, one of the
      wait-list operations, leaving a wait of which it has been informed, or `write_atomic`. */
  ghost predicate Busy(s: State, q: Callers, t: Tid) {
    t < |s.threads|
    && match s.threads[t]
       case Idle => t in q
       case Running(_, _) => RunOf(s.threads[t]).NeedLoad? || RunOf(s.threads[t]).Done?
       case Waiting(_, _, _, cb, _, _) => cb < |s.cbs| && !s.cbs[cb].blocked
       case _ => true
  }

  datatype Need = NoLock | ReadLock(x: Var) | WriteLock(x: Var) | Mutex(x: Var) | Token

  /** What the next step of the thread has to acquire. */
  ghost function Needs(ph: Phase): Need {
    match ph
    case Running(_, _) => if RunOf(ph).NeedLoad? then ReadLock(RunOf(ph).x) else NoLock
    case Locking(_, _, done, todo, _, _) =>
      if !done.Done? || todo == [] || todo[0] !in done.tx.log then NoLock else (
        match done.tx.log[todo[0]]
        case ReadObsolete(_) => NoLock
        case Read(_) => ReadLock(todo[0])
        case _ => WriteLock(todo[0]))
    case Waking(_, _, todo, taken, grip) =>
      if taken == [] && grip.NoGrip? && todo != [] then Mutex(todo[0]) else NoLock
    case Registering(_, _, _, _, todo, _) => if todo != [] then Mutex(todo[0]) else NoLock
    case Checking(_, _, _, _, todo, _) => if todo != [] then ReadLock(todo[0]) else NoLock
    case Waiting(_, _, _, _, _, parked) => if parked then Token else NoLock
    case Cleaning(_, _, todo, gc) => if gc.WantGc? && todo != [] then Mutex(todo[0]) else NoLock
    case _ => NoLock
  }

  ghost function Wants(s: State, q: Callers, t: Tid): Need
    requires t < |s.threads|
  {
    if s.threads[t].Idle? && t in q then WriteLock(q[t]) else Needs(s.threads[t])
  }

  ghost predicate Queued(s: State, q: Callers, t: Tid, x: Var) {
    exists u :: 0 <= u < |s.threads| && u != t && Wants(s, q, u) == WriteLock(x)
  }

  /** The lock can be granted even if writers that may be queueing for it keep new readers out. */
  ghost predicate Granted(s: State, q: Callers, t: Tid)
    requires t < |s.threads|
  {
    match Wants(s, q, t)
    case NoLock => true
    case Token => t < |s.tokens| && s.tokens[t]
    case ReadLock(x) => NoWriter(s, t, x) && !Queued(s, q, t, x)
    case WriteLock(x) => NoHolder(s, t, x)
    case Mutex(x) => MutexFree(s, x)
  }

  /** The thread has a step that is neither a park's return without reason nor giving up. */
  ghost predicate CanStep(s: State, t: Tid) {
    exists a, s' :: Step(s, a, s') && a.t == t && !a.GiveUp? && !(a.Unparked? && a.spurious)
  }

  /** A bound on the addresses that the first `n` threads need locks of. */
  ghost function Bound(s: State, q: Callers, n: nat): (b: nat)
    requires n <= |s.threads|
    ensures forall u :: 0 <= u < n && (Wants(s, q, u).ReadLock? || Wants(s, q, u).WriteLock?) ==>
              Wants(s, q, u).x < b
  {
    if n == 0 then 0 else
      var b := Bound(s, q, n - 1);
      var need := Wants(s, q, n - 1);
      if !need.ReadLock? && !need.WriteLock? then b else if need.x < b then b else need.x + 1
  }

  ghost predicate HoldsLock(s: State, u: Tid, x: Var) {
    u < |s.threads| && (x in HeldReads(s.threads[u]) || x in HeldWrites(s.threads[u]))
  }

  /** Locks are taken in address order: whoever holds one needs only higher ones. */
  lemma NeedsHigher(s: State, q: Callers, u: Tid, x: Var)
    requires CommitInv(s) && HoldsLock(s, u, x)
    ensures Busy(s, q, u)
    ensures var need := Wants(s, q, u); need.NoLock? || ((need.ReadLock? || need.WriteLock?) && x < need.x)
  {
    hide CommitInv, JobRun;
    CommitSteps.PhaseFact(s, u);
    hide LoadsOk, Unpublished, FailuresOk, WritingOk;
    var ph := s.threads[u];
    if ph.Locking? && ph.todo != [] { assert ph.todo[0] in ph.todo; }
  }

  /** Following a chain of obstacles upwards ends at a busy thread whose next lock is free. */
  lemma {:induction false} Climb(s: State, q: Callers, u: Tid, x: Var) returns (v: Tid)
    requires CommitInv(s) && HoldsLock(s, u, x)
    ensures Busy(s, q, v) && Granted(s, q, v)
    decreases Bound(s, q, |s.threads|) - x, 0
  {
    hide CommitInv, Bound;
    NeedsHigher(s, q, u, x);
    if Granted(s, q, u) {
      v := u;
    } else {
      v := Obstacle(s, q, u, Wants(s, q, u).x);
    }
  }

  lemma {:induction false} Obstacle(s: State, q: Callers, u: Tid, y: Var) returns (v: Tid)
    requires CommitInv(s) && u < |s.threads| && !Granted(s, q, u)
    requires Wants(s, q, u) == ReadLock(y) || Wants(s, q, u) == WriteLock(y)
    ensures Busy(s, q, v) && Granted(s, q, v)
    decreases Bound(s, q, |s.threads|) - y, 2
  {
    hide CommitInv, Bound, Needs;
    if NoWriter(s, u, y) && Wants(s, q, u).ReadLock? {
      var w :| 0 <= w < |s.threads| && w != u && Wants(s, q, w) == WriteLock(y);
      if Granted(s, q, w) {
        WriterBusy(s, q, w);
        v := w;
      } else {
        v := Holder(s, q, w, y);
      }
    } else {
      v := Holder(s, q, u, y);
    }
  }

  lemma WriterBusy(s: State, q: Callers, w: Tid)
    requires w < |s.threads| && Wants(s, q, w).WriteLock?
    ensures Busy(s, q, w)
  {}

  lemma {:induction false} Holder(s: State, q: Callers, u: Tid, y: Var) returns (v: Tid)
    requires CommitInv(s) && u < |s.threads|
    requires Wants(s, q, u) == ReadLock(y) || Wants(s, q, u) == WriteLock(y)
    requires !NoWriter(s, u, y) || !NoHolder(s, u, y)
    ensures Busy(s, q, v) && Granted(s, q, v)
    decreases Bound(s, q, |s.threads|) - y, 1
  {
    hide CommitInv, Bound, Needs, HeldReads, HeldWrites;
    var h :| 0 <= h < |s.threads| && h != u && (y in HeldWrites(s.threads[h]) || y in HeldReads(s.threads[h]));
    v := Climb(s, q, h, y);
  }

  // A busy thread whose next lock is free has a step

  lemma Steps(s: State, a: Action, s': State)
    requires Step(s, a, s') && !a.GiveUp? && !(a.Unparked? && a.spurious)
    ensures CanStep(s, a.t)
  {
    hide Step;
  }

  lemma RunningSteps(s: State, q: Callers, t: Tid)
    requires WellFormed(s) && Busy(s, q, t) && Granted(s, q, t) && s.threads[t].Running?
    ensures CanStep(s, t)
  {
    hide Attempt, NoWriter;
    if RunOf(s.threads[t]).NeedLoad? {
      var s' := DoLoad(s, t, s.threads[t]);
      Steps(s, LoadVar(t), s');
    } else {
      hide Granted;
      EndedSteps(s, t);
    }
  }

  lemma EndedSteps(s: State, t: Tid)
    requires WellFormed(s) && t < |s.threads| && Ended(s.threads[t])
    ensures CanStep(s, t)
  {
    hide CanStep, RunOf;
    var a, s' := Calls.EndedGoesOn(s, t);
    Steps(s, a, s');
  }

  lemma LockingSteps(s: State, q: Callers, t: Tid)
    requires CommitInv(s) && Busy(s, q, t) && Granted(s, q, t) && s.threads[t].Locking?
    ensures CanStep(s, t)
  {
    hide CommitInv;
    CommitSteps.PhaseFact(s, t);
    var ph := s.threads[t];
    if ph.todo == [] {
      hide PhaseOk;
      Steps(s, Serialize(t), DoSerialize(s, t, ph));
    } else {
      assert ph.todo[0] in ph.done.tx.log by { assert ph.todo[0] in ph.todo; }
      hide PhaseOk, FailuresOk, NoWriter, NoHolder;
      assert CanLockNext(s, t, ph);
      hide CanLock;
      Steps(s, LockNext(t), DoLockNext(s, t, ph));
    }
  }

  lemma WritingSteps(s: State, q: Callers, t: Tid)
    requires CommitInv(s) && Busy(s, q, t) && s.threads[t].Writing?
    ensures CanStep(s, t)
  {
    var ph := s.threads[t];
    CommitUpdates.WritingFact(s, t);
    hide CommitInv;
    if ph.todo == [] {
      hide WritingOk;
      Steps(s, Action.StartWaking(t), To(s, t, Waking(ph.job, ph.index, ph.written, [], NoGrip)));
    } else {
      assert ph.todo[0] in ph.todo && CanWriteBack(s, ph);
      hide WritingOk;
      Steps(s, WriteBack(t), DoWriteBack(s, t, ph));
    }
  }

  lemma WakingSteps(s: State, q: Callers, t: Tid)
    requires WaitInv(s) && Busy(s, q, t) && Granted(s, q, t) && s.threads[t].Waking?
    ensures CanStep(s, t)
  {
    var ph := s.threads[t];
    WaitFact(s, t);
    CbFacts(s);
    hide WaitInv, MutexFree, Upgradable;
    if !ph.grip.NoGrip? {
      assert ph.grip.MustUnpark? ==> CbOk(s, ph.grip.c);
      GripSteps(s, t);
    } else if ph.taken != [] {
      assert ph.taken[0] in ph.taken;
      assert CanUpgrade(s, ph);
      hide CbOk, WaitOk;
      Steps(s, Upgrade(t), DoUpgrade(s, t, ph));
    } else if ph.todo != [] {
      hide CbOk, WaitOk;
      Steps(s, TakeList(t), DoTakeList(s, t, ph));
    } else {
      hide CbOk, WaitOk;
      Steps(s, Finish(t), To(s, t, Idle));
    }
  }

  lemma GripSteps(s: State, t: Tid)
    requires WellFormed(s) && t < |s.threads| && s.threads[t].Waking?
    requires var grip := s.threads[t].grip;
             !grip.NoGrip? && grip.c < |s.cbs| && (grip.MustUnpark? ==> s.cbs[grip.c].owner < |s.threads|)
    ensures CanStep(s, t)
  {
    var ph := s.threads[t];
    match ph.grip
    case Upgraded(_) => Steps(s, SetChanged(t), DoSetChanged(s, t, ph));
    case MustUnpark(_) => Steps(s, Unpark(t), DoUnpark(s, t, ph));
    case Spent(_) => Steps(s, Release(t), To(s, t, Waking(ph.job, ph.index, ph.todo, ph.taken, NoGrip)));
  }

  lemma RegisteringSteps(s: State, q: Callers, t: Tid)
    requires WaitInv(s) && Busy(s, q, t) && Granted(s, q, t) && s.threads[t].Registering?
    ensures CanStep(s, t)
  {
    var ph := s.threads[t];
    CbFacts(s);
    hide WaitInv, MutexFree;
    if ph.todo == [] {
      Steps(s, Action.Block(t), To(s, t, Waiting(ph.job, ph.loads, ph.done, ph.cb, ph.seen, false)));
    } else {
      Steps(s, Register(t), DoRegister(s, t, ph));
    }
  }

  lemma CheckingSteps(s: State, q: Callers, t: Tid)
    requires WaitInv(s) && Busy(s, q, t) && Granted(s, q, t) && s.threads[t].Checking?
    ensures CanStep(s, t)
  {
    var ph := s.threads[t];
    WaitFact(s, t);
    assert ph.todo[0] in WaitKeys(ph.done.tx.log) by {
      assert (ph.seen + ph.todo)[|ph.seen|] == ph.todo[0];
      hide WaitKeys;
    }
    hide WaitInv, NoWriter;
    assert CanCheck(s, t, ph);
    hide WaitOk, CanCheck;
    Steps(s, Check(t), DoCheck(s, t, ph));
  }

  lemma CleaningSteps(s: State, q: Callers, t: Tid)
    requires WaitInv(s) && Busy(s, q, t) && Granted(s, q, t) && s.threads[t].Cleaning?
    ensures CanStep(s, t)
  {
    var ph := s.threads[t];
    WaitFact(s, t);
    CbFacts(s);
    hide WaitInv, MutexFree, ListsOk, CbOk;
    if ph.todo == [] {
      Steps(s, DropBlock(t), DoDropBlock(s, t, ph));
    } else {
      hide Again, WaitOk;
      SweepingSteps(s, q, t);
    }
  }

  lemma SweepingSteps(s: State, q: Callers, t: Tid)
    requires WellFormed(s) && t < |s.threads| && Granted(s, q, t)
    requires var ph := s.threads[t]; ph.Cleaning? && ph.todo != [] && ph.cb < |s.cbs|
    requires ListsOk(s)
    ensures CanStep(s, t)
  {
    var ph := s.threads[t];
    hide MutexFree, ListsOk;
    if ph.gc.NoGc? {
      Steps(s, Announce(t), DoAnnounce(s, t, ph));
    } else if ph.gc.WantGc? {
      Steps(s, Action.Reset(t), DoReset(s, t, ph));
    } else {
      hide Granted;
      TestingSteps(s, t);
    }
  }

  lemma TestingSteps(s: State, t: Tid)
    requires WellFormed(s) && t < |s.threads| && ListsOk(s)
    requires var ph := s.threads[t]; ph.Cleaning? && ph.todo != [] && ph.gc.InGc?
    ensures CanStep(s, t)
  {
    var ph := s.threads[t];
    hide Upgradable;
    if ph.gc.probing.Some? {
      Steps(s, Unprobe(t), To(s, t, Cleaning(ph.job, ph.cb, ph.todo, InGc(ph.gc.pos + 1, None))));
    } else if ph.gc.pos < |List(s, ph.todo[0])| {
      assert List(s, ph.todo[0])[ph.gc.pos] in List(s, ph.todo[0]);
      assert CanProbe(s, ph);
      Steps(s, Probe(t), DoProbe(s, t, ph));
    } else {
      Steps(s, EndSweep(t), To(s, t, Cleaning(ph.job, ph.cb, ph.todo[1..], NoGc)));
    }
  }

  lemma GrantedSteps(s: State, q: Callers, t: Tid)
    requires CommitInv(s) && WaitInv(s) && Busy(s, q, t) && Granted(s, q, t)
    ensures CanStep(s, t)
  {
    assert WellFormed(s);
    hide CommitInv, WaitInv, Granted, CanStep;
    match s.threads[t]
    case Running(_, _) => RunningSteps(s, q, t);
    case Locking(_, _, _, _, _, _) => LockingSteps(s, q, t);
    case Writing(_, _, _, _) => WritingSteps(s, q, t);
    case Waking(_, _, _, _, _) => WakingSteps(s, q, t);
    case Registering(_, _, _, _, _, _) => RegisteringSteps(s, q, t);
    case Checking(_, _, _, _, _, _) => CheckingSteps(s, q, t);
    case Cleaning(_, _, _, _) => CleaningSteps(s, q, t);
    case Idle => CallerSteps(s, q, t);
    case Waiting(_, _, _, _, _, _) => WaiterSteps(s, q, t);
  }

  lemma WaiterSteps(s: State, q: Callers, t: Tid)
    requires WaitInv(s) && Busy(s, q, t) && Granted(s, q, t) && s.threads[t].Waiting?
    ensures CanStep(s, t)
  {
    hide WaitInv, CanStep;
    var ph := s.threads[t];
    WaitFact(s, t);
    hide WaitOk;
    if ph.parked {
      assert IsUnparked(s, t, false, DoUnparked(s, t, ph, false));
      Steps(s, Unparked(t, false), DoUnparked(s, t, ph, false));
    } else {
      assert Polls(s, t, DoPoll(s, t, ph));
      Steps(s, Poll(t), DoPoll(s, t, ph));
    }
  }

  lemma CallerSteps(s: State, q: Callers, t: Tid)
    requires WellFormed(s) && Busy(s, q, t) && Granted(s, q, t) && s.threads[t].Idle?
    ensures CanStep(s, t)
  {
    hide NoHolder, DoWriteAtomic;
    Steps(s, Action.WriteAtomic(t, q[t], 0), DoWriteAtomic(s, t, q[t], 0));
  }

  /** A parked thread that has been informed and has no token is about to be unparked. */
  lemma Informer(s: State, t: Tid) returns (v: Tid)
    requires WaitInv(s) && t < |s.threads| && s.threads[t].Waiting? && s.threads[t].parked
    requires s.threads[t].cb < |s.cbs| && !s.cbs[s.threads[t].cb].blocked && (t < |s.tokens| ==> !s.tokens[t])
    ensures v < |s.threads| && s.threads[v].Waking? && s.threads[v].grip.MustUnpark?
  {
    hide WaitInv, Linked, Watched, WaitKeys;
    WaitFact(s, t);
    v :| 0 <= v < |s.threads| && Unparking(s.threads[v]) == Some(s.threads[t].cb);
  }

  lemma FreeThread(s: State, q: Callers, t: Tid) returns (v: Tid)
    requires CommitInv(s) && WaitInv(s) && Busy(s, q, t)
    ensures Busy(s, q, v) && Granted(s, q, v)
  {
    hide CommitInv, WaitInv, Bound, Attempt;
    if Granted(s, q, t) {
      v := t;
    } else {
      var need := Wants(s, q, t);
      if need.Token? {
        v := Informer(s, t);
      } else if need.Mutex? {
        v :| 0 <= v < |s.threads| && Sweeping(s.threads[v], need.x);
      } else {
        hide Needs, Busy, Granted;
        v := Obstacle(s, q, t, need.x);
      }
    }
  }

  /** Deadlock freedom: whenever a thread has something to do, some such thread can step, even if every
      queueing writer, committer or caller of `write_atomic`, keeps new readers out, and no park ever returns
      without reason. */
  lemma DeadlockFree(s: State, q: Callers, t: Tid) returns (v: Tid)
    requires Reachable(s) && Busy(s, q, t)
    ensures Busy(s, q, v) && Granted(s, q, v) && CanStep(s, v)
  {
    ReachableCommitInv(s);
    ReachableWaitInv(s);
    hide Reachable, CommitInv, WaitInv, CanStep, Busy, Granted;
    v := FreeThread(s, q, t);
    GrantedSteps(s, q, v);
  }
}
