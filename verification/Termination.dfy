/** Attempts end: a thread that keeps stepping comes to a new attempt, the end of its call or a park. */
module Termination {
  import opened Boxes
  import opened LogVars
  import opened Programs
  import opened Engine
  import opened Sequential
  import opened Machine
  import opened CommitInvariant
  import CommitSteps
  import opened Serializability
  import opened WaitInvariant
  import opened WakeTheorems
  import opened Garbage
  import opened GarbageSteps
  import opened StepLaws
  import opened Calls

  // Bodies load finitely often

  /** How many operations a body of the given depth can come to. */
  function Size(depth: nat): nat {
    if depth == 0 then 0 else 1 + 3 * Size(depth - 1)
  }

  /** The run has made at most `n` loads; it stands before a load only if it has made fewer, and has used
      all that were recorded for it. */
  ghost predicate LoadsWithin(r: Outcome, src: Source, n: nat) {
    && (r.NeedLoad? ==> r.tx.i < n && (src.Recorded? ==> |src.loads| <= r.tx.i))
    && (r.Done? ==> r.tx.i <= n)
  }

  lemma {:induction false} LoadsBounded(p: Prog, depth: nat, tag: nat, src: Source, tx: Tx)
    ensures LoadsWithin(Exec(p, depth, tag, src, tx), src, tx.i + Size(depth))
    decreases depth, 1
  {
    if depth > 0 {
      match p
      case Read(x, k) =>
        if x in tx.log {
          LoadsBounded(k(tx.log[x].Value().val), depth - 1, tag, src, Reread(tx, x));
        } else if Fetch(src, x, tx.i).Got? {
          var a := Fetch(src, x, tx.i).arc;
          LoadsBounded(k(a.val), depth - 1, tag, src, Loaded(tx, x, a));
        }
      case Write(x, v, next) => LoadsBounded(next, depth - 1, tag, src, Written(tag, tx, x, v));
      case Or(first, second, k) =>
        LoadsBounded(first, depth - 1, tag, src, tx);
        var r := Exec(first, depth - 1, tag, src, tx);
        if r.Done? && r.ending.Retried? {
          SecondBounded(second, k, depth, tag, src, tx, r);
        } else if r.Done? && r.ending.Returned? {
          LoadsBounded(k(r.ending.v), depth - 1, tag, src, r.tx);
        }
      case _ =>
    }
  }

  lemma {:induction false} SecondBounded(second: Prog, k: Val -> Prog, depth: nat, tag: nat, src: Source, tx: Tx,
                                         r1: Outcome)
    requires depth > 0 && r1.Done?
    ensures LoadsWithin(ExecSecond(second, k, depth, tag, src, tx, r1), src, r1.tx.i + 2 * Size(depth - 1))
    decreases depth, 0
  {
    LoadsBounded(second, depth - 1, tag, src, Restored(tx, r1.tx));
    var r := Exec(second, depth - 1, tag, src, Restored(tx, r1.tx));
    if r.Done? && r.ending.Returned? {
      LoadsBounded(k(r.ending.v), depth - 1, tag, src, Merged(r.tx, r1.tx));
    }
  }

  /** An attempt that is about to load has made fewer loads than its body has operations. */
  lemma FewLoads(ph: Phase)
    requires ph.Running? && RunOf(ph).NeedLoad?
    ensures |ph.loads| < Size(ph.job.depth)
  {
    hide Exec, Size;
    LoadsBounded(ph.job.prog, ph.job.depth, ph.job.tag, Recorded(ph.loads), EMPTY);
  }

  // What is left to do

  /** What is left of an attempt: how many stages, and in this stage how many variables, with the current
      one how much, in its waiter list how many entries, and with the entry or block at hand how much. */
  datatype Work = Work(stage: nat, vars: nat, part: nat, entries: nat, rest: nat)

  predicate Less(v: Work, w: Work) {
    || v.stage < w.stage
    || (v.stage == w.stage && v.vars < w.vars)
    || (v.stage == w.stage && v.vars == w.vars && v.part < w.part)
    || (v.stage == w.stage && v.vars == w.vars && v.part == w.part && v.entries < w.entries)
    || (v.stage == w.stage && v.vars == w.vars && v.part == w.part && v.entries == w.entries && v.rest < w.rest)
  }

  function Minus(m: nat, n: nat): nat {
    if m < n then 0 else m - n
  }

  function GripRest(grip: Grip): nat {
    match grip
    case NoGrip => 0
    case Spent(_) => 1
    case MustUnpark(_) => 2
    case Upgraded(_) => 3
  }

  /** How much of the list of the first variable a sweep has before it. */
  function Unswept(s: State, todo: seq<Var>, gc: Gc): nat {
    if gc.InGc? && todo != [] then Minus(|List(s, todo[0])|, gc.pos) else 0
  }

  function Left(s: State, ph: Phase): Work {
    match ph
    case Idle => Work(0, 0, 0, 0, 0)
    case Cleaning(_, _, todo, gc) =>
      Work(1, |todo|, if gc.NoGc? then 2 else if gc.WantGc? then 1 else 0, Unswept(s, todo, gc),
           if gc.InGc? && gc.probing.None? then 1 else 0)
    case Waiting(_, _, _, _, _, parked) => Work(2, 0, 0, 0, if parked then 0 else 1)
    case Checking(_, _, _, _, todo, _) => Work(3, |todo|, 0, 0, 0)
    case Registering(_, _, _, _, todo, _) => Work(3, |todo|, 0, 0, 1)
    case Waking(_, _, todo, taken, grip) => Work(1, |todo|, 0, |taken|, GripRest(grip))
    case Writing(_, _, todo, _) => Work(2, |todo|, 0, 0, 0)
    case Locking(_, _, _, todo, _, _) => Work(3, |todo|, 0, 0, 0)
    case Running(job, loads) => Work(4, Minus(Size(job.depth), |loads|), 0, 0, 0)
  }

  /** The step begins a call or an attempt, writes outside transactions, or returns from `park`. */
  ghost predicate StartsOver(s: State, a: Action, s': State) {
    || Mover(s, a).Idle?
    || a.Unparked?
    || (!Mover(s', a).Idle? && Mover(s', a).job.tag != Mover(s, a).job.tag)
  }

  // One step at a time

  lemma LoadsLess(s: State, t: Tid, s': State)
    requires Machine.Loads(s, t, s')
    ensures Less(Left(s', s'.threads[t]), Left(s, s.threads[t]))
  {
    FewLoads(s.threads[t]);
    hide NoWriter, RunOf, Size;
  }

  lemma EndedLess(s: State, t: Tid, s': State)
    requires StartsCommit(s, t, s') || StartsWait(s, t, s') || GivesUp(s, t, s')
    ensures Less(Left(s', s'.threads[t]), Left(s, s.threads[t]))
  {
    hide RunOf, WaitKeys, Size;
  }

  predicate NewTag(s: State, ph: Phase) {
    !ph.Idle? && ph.job.tag == s.nextTag
  }

  lemma LocksLess(s: State, t: Tid, s': State)
    requires LocksNext(s, t, s')
    ensures NewTag(s, s'.threads[t]) || Less(Left(s', s'.threads[t]), Left(s, s.threads[t]))
  {
    hide CanLock, Stale, Size;
  }

  lemma SerializesLess(s: State, t: Tid, s': State)
    requires Serializes(s, t, s') || Finishes(s, t, s')
    ensures Less(Left(s', s'.threads[t]), Left(s, s.threads[t]))
  {
    hide Writes;
  }

  lemma WritesLess(s: State, t: Tid, s': State)
    requires WritesBack(s, t, s') || StartsWaking(s, t, s')
    ensures Less(Left(s', s'.threads[t]), Left(s, s.threads[t]))
  {}

  lemma TakesLess(s: State, t: Tid, s': State)
    requires TakesList(s, t, s') || Upgrades(s, t, s')
    ensures Less(Left(s', s'.threads[t]), Left(s, s.threads[t]))
  {
    hide MutexFree, List, Upgradable;
  }

  lemma SetsChangedLess(s: State, t: Tid, s': State)
    requires SetsChanged(s, t, s')
    ensures Less(Left(s', s'.threads[t]), Left(s, s.threads[t]))
  {}

  lemma UnparksLess(s: State, t: Tid, s': State)
    requires Unparks(s, t, s') || Releases(s, t, s')
    ensures Less(Left(s', s'.threads[t]), Left(s, s.threads[t]))
  {}

  lemma RegistersLess(s: State, t: Tid, s': State)
    requires Registers(s, t, s')
    ensures Less(Left(s', s'.threads[t]), Left(s, s.threads[t]))
  {
    hide MutexFree, List;
  }

  lemma ChecksLess(s: State, t: Tid, s': State)
    requires Checks(s, t, s')
    ensures Less(Left(s', s'.threads[t]), Left(s, s.threads[t]))
  {
    hide NoWriter, Observed, List;
  }

  lemma ParksLess(s: State, t: Tid, s': State)
    requires Machine.Blocks(s, t, s') || Polls(s, t, s')
    ensures Less(Left(s', s'.threads[t]), Left(s, s.threads[t]))
  {
    hide List;
  }

  lemma AnnouncesLess(s: State, t: Tid, s': State)
    requires Announces(s, t, s') || Resets(s, t, s') || EndsSweep(s, t, s')
    ensures Less(Left(s', s'.threads[t]), Left(s, s.threads[t]))
  {
    hide MutexFree, List;
  }

  lemma ProbesLess(s: State, t: Tid, s': State)
    requires Probes(s, t, s')
    ensures Less(Left(s', s'.threads[t]), Left(s, s.threads[t]))
  {
    hide Upgradable;
  }

  /** The sweep moves on to the next entry: the list has the one that it tested. */
  lemma UnprobesLess(s: State, t: Tid, s': State, limit: nat)
    requires WaitInv(s) && Unprobes(s, t, s') && GarbageInv(s, limit)
    ensures Less(Left(s', s'.threads[t]), Left(s, s.threads[t]))
  {
    hide WaitInv, VarOk, GarbageInv;
    NonEmptySweep(s, t);
    var x := s.threads[t].todo[0];
    VarFact(s, x, limit);
    SweepFact(s, x, limit);
    hide MayStay, EnlistedOk, AnnouncersOk, OneSweeper, CountOk;
    assert Sweeping(s.threads[t], x);
    hide SweepOk;
    assert List(s', x) == List(s, x);
    hide List;
  }

  // Every step

  lemma CallLess(s: State, a: Action, s': State)
    requires CommitInv(s) && Step(s, a, s') && !StartsOver(s, a, s')
    requires a.LoadVar? || a.StartCommit? || a.StartWait? || a.GiveUp? || a.LockNext? || a.Rerun?
    ensures Less(Left(s', Mover(s', a)), Left(s, Mover(s, a)))
  {
    hide CommitInv, Machine.Loads, StartsCommit, StartsWait, GivesUp, LocksNext, Reruns, Less, Left;
    StepFits(s, a, s');
    StepExtends(s, a, s');
    if a.LoadVar? {
      LoadsLess(s, a.t, s');
    } else if a.LockNext? {
      TagKept(s, a.t);
      LocksLess(s, a.t, s');
    } else if a.Rerun? {
      TagKept(s, a.t);
      RerunsTag(s, a.t, s');
    } else {
      EndedLess(s, a.t, s');
    }
  }

  lemma RerunsTag(s: State, t: Tid, s': State)
    requires Reruns(s, t, s')
    ensures NewTag(s, s'.threads[t])
  {
    hide RunOf;
  }

  lemma DropsTag(s: State, t: Tid, s': State)
    requires DropsBlock(s, t, s')
    ensures NewTag(s, s'.threads[t])
  {}

  lemma CommitLess(s: State, a: Action, s': State)
    requires Step(s, a, s')
    requires a.Serialize? || a.WriteBack? || a.StartWaking? || a.Finish?
             || a.TakeList? || a.Upgrade? || a.SetChanged? || a.Unpark? || a.Release?
    ensures Less(Left(s', Mover(s', a)), Left(s, Mover(s, a)))
  {
    hide Serializes, WritesBack, StartsWaking, Finishes, TakesList, Upgrades, SetsChanged, Unparks, Releases, Less,
         Left;
    StepFits(s, a, s');
    StepExtends(s, a, s');
    if a.Serialize? || a.Finish? {
      SerializesLess(s, a.t, s');
    } else if a.WriteBack? || a.StartWaking? {
      WritesLess(s, a.t, s');
    } else if a.TakeList? || a.Upgrade? {
      TakesLess(s, a.t, s');
    } else if a.SetChanged? {
      SetsChangedLess(s, a.t, s');
    } else {
      UnparksLess(s, a.t, s');
    }
  }

  lemma WaitLess(s: State, a: Action, s': State)
    requires Step(s, a, s') && (a.Register? || a.Check? || a.Block? || a.Poll?)
    ensures Less(Left(s', Mover(s', a)), Left(s, Mover(s, a)))
  {
    hide Registers, Checks, Machine.Blocks, Polls, Less, Left;
    StepFits(s, a, s');
    StepExtends(s, a, s');
    if a.Register? {
      RegistersLess(s, a.t, s');
    } else if a.Check? {
      ChecksLess(s, a.t, s');
    } else {
      ParksLess(s, a.t, s');
    }
  }

  lemma CleanLess(s: State, a: Action, s': State, limit: nat)
    requires CommitInv(s) && WaitInv(s) && GarbageInv(s, limit)
    requires Step(s, a, s') && IsCleaning(a) && !StartsOver(s, a, s')
    ensures Less(Left(s', Mover(s', a)), Left(s, Mover(s, a)))
  {
    hide CommitInv, WaitInv, GarbageInv, Announces, Resets, Probes, Unprobes, EndsSweep, DropsBlock, Less, Left;
    StepFits(s, a, s');
    StepExtends(s, a, s');
    if a.Announce? || a.Reset? || a.EndSweep? {
      AnnouncesLess(s, a.t, s');
    } else if a.Probe? {
      ProbesLess(s, a.t, s');
    } else if a.Unprobe? {
      UnprobesLess(s, a.t, s', limit);
    } else {
      TagKept(s, a.t);
      DropsTag(s, a.t, s');
    }
  }

  lemma ReachableGarbageInv(s: State) returns (limit: nat)
    requires Reachable(s)
    ensures GarbageInv(s, limit)
  {
    hide IsRun, SweepsAmong, GarbageInv, Reachable;
    var run := AnyRun(s);
    assert |run| > 0 by { RunNotEmpty(run); }
    RunKeepsGarbageInv(run, |s.threads|, |run| - 1);
    limit := |run[0].threads| + |s.threads|;
  }

  lemma RunNotEmpty(run: seq<State>)
    requires IsRun(run)
    ensures run != []
  {
    hide Init, Next;
  }

  /** Each step of a thread within an attempt leaves it less to do, whatever the other threads do. */
  lemma StepLeavesLess(s: State, a: Action, s': State)
    requires Reachable(s) && Step(s, a, s') && !StartsOver(s, a, s')
    ensures Less(Left(s', Mover(s', a)), Left(s, Mover(s, a)))
  {
    hide Reachable, CommitInv, WaitInv, GarbageInv, Step, Less, Left;
    ReachableCommitInv(s);
    ReachableWaitInv(s);
    var limit := ReachableGarbageInv(s);
    StepFits(s, a, s');
    if a.LoadVar? || a.StartCommit? || a.StartWait? || a.GiveUp? || a.LockNext? || a.Rerun? {
      CallLess(s, a, s');
    } else if a.Register? || a.Check? || a.Block? || a.Poll? {
      WaitLess(s, a, s');
    } else if IsCleaning(a) {
      CleanLess(s, a, s', limit);
    } else {
      CommitLess(s, a, s');
    }
  }

  /** And no step of another thread gives it more. */
  lemma OthersLeaveIt(s: State, a: Action, s': State, u: Tid)
    requires Reachable(s) && Step(s, a, s') && u < |s.threads| && u != a.t
    ensures u < |s'.threads| && s'.threads[u] == s.threads[u]
    ensures Left(s', s'.threads[u]) == Left(s, s.threads[u])
  {
    hide Reachable, GarbageInv, VarOk, Step, EnlistedOk, AnnouncersOk, SweepOk, CountOk, List;
    hide TokenLaw, BlockLaw, DutyLaw, CountLaw, CellLaw, HoldLaw;
    StepExtends(s, a, s');
    var ph := s.threads[u];
    if ph.Cleaning? && ph.gc.InGc? && ph.todo != [] {
      var x := ph.todo[0];
      var limit := ReachableGarbageInv(s);
      VarFact(s, x, limit);
      SweepFact(s, x, limit);
      LawsHold(s, a, s');
      assert Sweeping(ph, x);
      assert List(s', x) == List(s, x);
    }
  }

  // Endless runs

  ghost predicate Endless(run: nat -> State, acts: nat -> Action) {
    Reachable(run(0)) && forall k: nat :: Step(run(k), acts(k), run(k + 1))
  }

  /** The thread steps again and again. */
  ghost predicate KeepsStepping(acts: nat -> Action, t: Tid) {
    forall k: nat :: StepsFrom(acts, t, k)
  }

  ghost predicate StepsFrom(acts: nat -> Action, t: Tid, k: nat) {
    exists j: nat :: k <= j && acts(j).t == t
  }

  lemma ReachesNext(s: State, a: Action, s': State)
    requires Reachable(s) && Step(s, a, s')
    ensures Reachable(s')
  {
    hide Init, Step;
    var run :| IsRun(run) && run[|run| - 1] == s;
    assert Next(s, s');
    assert IsRun(run + [s']);
    assert (run + [s'])[|run|] == s';
  }

  lemma {:induction false} AllReachable(run: nat -> State, acts: nat -> Action, k: nat)
    requires Endless(run, acts)
    ensures Reachable(run(k))
  {
    hide Reachable, Step;
    if k > 0 {
      AllReachable(run, acts, k - 1);
      ReachesNext(run(k - 1), acts(k - 1), run(k));
    }
  }

  /** Until the thread steps it stays where it is, with as much to do. */
  lemma {:induction false} StandsStill(run: nat -> State, acts: nat -> Action, t: Tid, i: nat, j: nat)
    requires Endless(run, acts) && i <= j && t < |run(i).threads|
    requires forall m :: i <= m < j ==> acts(m).t != t
    ensures t < |run(j).threads| && run(j).threads[t] == run(i).threads[t]
    ensures Left(run(j), run(j).threads[t]) == Left(run(i), run(i).threads[t])
  {
    hide Reachable, Step, Left;
    if i < j {
      StandsStill(run, acts, t, i, j - 1);
      AllReachable(run, acts, j - 1);
      OthersLeaveIt(run(j - 1), acts(j - 1), run(j), t);
    }
  }

  lemma {:induction false} FirstStep(acts: nat -> Action, t: Tid, i: nat, n: nat) returns (j: nat)
    requires i <= n && acts(n).t == t
    ensures i <= j && acts(j).t == t && forall m :: i <= m < j ==> acts(m).t != t
    decreases n - i
  {
    if acts(i).t == t { j := i; } else { j := FirstStep(acts, t, i + 1, n); }
  }

  lemma NextStep(run: nat -> State, acts: nat -> Action, t: Tid, i: nat) returns (j: nat)
    requires Endless(run, acts) && KeepsStepping(acts, t) && t < |run(i).threads|
    ensures i <= j && acts(j).t == t && Reachable(run(j)) && Step(run(j), acts(j), run(j + 1))
    ensures t < |run(j).threads| && Left(run(j), run(j).threads[t]) == Left(run(i), run(i).threads[t])
  {
    hide Reachable, Step, Left;
    assert StepsFrom(acts, t, i);
    var n: nat :| i <= n && acts(n).t == t;
    j := FirstStep(acts, t, i, n);
    StandsStill(run, acts, t, i, j);
    AllReachable(run, acts, j);
  }

  /** Every attempt ends: a thread that takes one step after the other comes, from whatever moment on, to a
      step with which it begins a call or a new attempt, writes outside transactions, or returns from `park`. */
  lemma {:induction false} AttemptsEnd(run: nat -> State, acts: nat -> Action, t: Tid, i: nat) returns (j: nat)
    requires Endless(run, acts) && KeepsStepping(acts, t) && t < |run(i).threads|
    ensures i <= j && acts(j).t == t && StartsOver(run(j), acts(j), run(j + 1))
    decreases Left(run(i), run(i).threads[t]).stage, Left(run(i), run(i).threads[t]).vars,
              Left(run(i), run(i).threads[t]).part, Left(run(i), run(i).threads[t]).entries,
              Left(run(i), run(i).threads[t]).rest
  {
    hide Reachable, Step, Left, StartsOver;
    j := NextStep(run, acts, t, i);
    if !StartsOver(run(j), acts(j), run(j + 1)) {
      StepLeavesLess(run(j), acts(j), run(j + 1));
      StepExtends(run(j), acts(j), run(j + 1));
      j := AttemptsEnd(run, acts, t, j + 1);
    }
  }
}
