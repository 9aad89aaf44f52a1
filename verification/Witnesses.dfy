/** Runs in which the code keeps less than its documentation says, and what `control` decides. */
module Witnesses {
  import opened Boxes
  import opened LogVars
  import opened Programs
  import opened Engine
  import opened Sequential
  import opened Attempts
  import opened Sorting
  import opened Machine
  import opened WaitInvariant
  import opened Serializability
  import opened WakeTheorems
  import opened Garbage
  import opened GarbageSteps
  import opened OrLaws

  lemma ReachableStep(s: State, a: Action, s': State)
    requires Reachable(s) && Step(s, a, s')
    ensures Reachable(s')
  {
    hide Init, Step;
    var run :| IsRun(run) && run[|run| - 1] == s;
    var longer := run + [s'];
    assert Next(s, s');
    forall i | 0 <= i < |longer| - 1 ensures Next(longer[i], longer[i + 1]) {
      if i < |run| - 1 { assert Next(run[i], run[i + 1]); }
    }
    assert IsRun(longer) && longer[|longer| - 1] == s';
  }

  const NIL := Arc(Initial(0), 0)

  ghost function Cells(): Store {
    imap x: Var :: Arc(Initial(x), 0)
  }

  /** Two idle threads, and every variable holds zero. */
  ghost function Start(): State {
    State(Cells(), map[], map[], [], [Idle, Idle], [false, false], 0, [], [Cells()], [0, 0], map[])
  }

  lemma StartReachable()
    ensures Reachable(Start())
  {
    assert IsRun([Start()]);
  }

  lemma OneKey(x: Var)
    ensures InOrder({x}) == [x]
  {
    InOrderUnique(InOrder({x}), [x]);
  }

  /** The first thread in phase `ph`, nothing stored yet. */
  ghost function With(ph: Phase): State {
    Start().(threads := [ph, Idle], nextTag := 1)
  }

  const LOADS := [Load(0, NIL, 0)]

  function Call(p: Prog): Job {
    Job(p, 4, 0, 0, 0)
  }

  lemma BeginStep(p: Prog)
    ensures Reachable(With(Running(Call(p), [])))
  {
    var s, s' := Start(), With(Running(Call(p), []));
    StartReachable();
    assert s' == Again(s, 0, Call(p));
    assert Begins(s, 0, p, 4, s');
    hide Begins, Reachable;
    ReachableStep(s, Begin(0, p, 4), s');
  }

  lemma LoadStep(p: Prog)
    requires var r := Attempt(p, 4, 0, Recorded([])); r.NeedLoad? && r.x == 0
    ensures Reachable(With(Running(Call(p), LOADS)))
  {
    var s, s' := With(Running(Call(p), [])), With(Running(Call(p), LOADS));
    BeginStep(p);
    hide Reachable;
    assert RunOf(s.threads[0]).NeedLoad? && RunOf(s.threads[0]).x == 0;
    hide Attempt;
    assert NoWriter(s, 0, 0);
    assert [] + LOADS == LOADS;
    WithTo(Running(Call(p), []), Running(Call(p), LOADS));
    assert Loads(s, 0, s');
    hide Loads;
    ReachableStep(s, LoadVar(0), s');
  }

  // A sleeper that write_atomic does not wake

  /** Blocks while variable 0 holds zero, and would return anything else. */
  function Patient(): Prog {
    Prog.Read(0, UnlessZero())
  }

  const PATIENT := Done(Retried, Tx(map[0 := LogVar.Read(NIL)], 0, 1), End, true)

  lemma PatientRun(job: Job)
    requires job == Call(Patient())
    ensures Attempt(job.prog, job.depth, job.tag, Recorded(LOADS)) == PATIENT
    ensures WaitKeys(PATIENT.tx.log) == [0]
  {
    var p := Patient();
    assert Exec(p.k(0), 3, 0, Recorded(LOADS), Tx(map[0 := LogVar.Read(NIL)], 0, 1)) == PATIENT;
    hide Exec;
    PatientKeys(PATIENT.tx.log);
  }

  lemma PatientKeys(log: Log)
    requires log == map[0 := LogVar.Read(NIL)]
    ensures WaitKeys(log) == [0]
  {
    assert forall x :: x in WaitKeys(log) <==> x in [0];
    InOrderUnique(WaitKeys(log), [0]);
  }

  /** The first thread in phase `ph`, with its block, enlisted with variable 0 or not. */
  ghost function Waits(ph: Phase, enlisted: bool): State {
    With(ph).(cbs := [Cb(0, true, true, 0, {})], waiters := if enlisted then map[0 := [0]] else map[])
  }

  lemma WithTo(ph: Phase, ph': Phase)
    ensures To(With(ph), 0, ph') == With(ph')
  {
    assert [ph, Idle][0 := ph'] == [ph', Idle];
  }

  lemma WaitsTo(ph: Phase, ph': Phase, enlisted: bool)
    ensures To(Waits(ph, enlisted), 0, ph') == Waits(ph', enlisted)
  {
    assert [ph, Idle][0 := ph'] == [ph', Idle];
  }

  function RegisteringPhase(todo: seq<Var>, seen: seq<Var>): Phase {
    Registering(Call(Patient()), LOADS, PATIENT, 0, todo, seen)
  }

  function CheckingPhase(): Phase {
    Checking(Call(Patient()), LOADS, PATIENT, 0, [0], [])
  }

  function WaitingPhase(): Phase {
    Waiting(Call(Patient()), LOADS, PATIENT, 0, [0], false)
  }

  lemma Shape(ph: Phase, enlisted: bool)
    ensures var s := Waits(ph, enlisted);
            && WellFormed(s) && s.threads == [ph, Idle] && s.cells[0] == NIL && s.history == [] && s.nextTag == 1
            && s.cbs == [Cb(0, true, true, 0, {})] && List(s, 0) == (if enlisted then [0] else [])
            && (!ph.Locking? && !ph.Writing? ==> NoHolder(s, 0, 0) && NoHolder(s, 1, 0))
            && (!ph.Cleaning? ==> MutexFree(s, 0))
  {}

  lemma StartWaitStep()
    ensures Reachable(Waits(RegisteringPhase([0], []), false))
  {
    var s, s' := With(Running(Call(Patient()), LOADS)), Waits(RegisteringPhase([0], []), false);
    hide Reachable, Attempt, WaitKeys;
    LoadStep(Patient());
    PatientRun(Call(Patient()));
    assert RunOf(s.threads[0]) == PATIENT;
    WithTo(Running(Call(Patient()), LOADS), RegisteringPhase([0], []));
    CanWaitReach(s, Running(Call(Patient()), LOADS));
  }

  lemma CanWaitReach(s: State, ph: Phase)
    requires Reachable(s) && WellFormed(s) && s.threads == [ph, Idle] && Ended(ph) && RunOf(ph).ending.Retried?
    ensures Reachable(DoStartWait(s, 0, ph))
  {
    hide Reachable, RunOf;
    assert StartsWait(s, 0, DoStartWait(s, 0, ph));
    hide StartsWait, DoStartWait;
    ReachableStep(s, Action.StartWait(0), DoStartWait(s, 0, ph));
  }

  lemma RegisterStep()
    ensures Reachable(Waits(CheckingPhase(), true))
  {
    hide Reachable, MutexFree, NoHolder;
    var ph, s := RegisteringPhase([0], []), Waits(RegisteringPhase([0], []), false);
    StartWaitStep();
    Shape(ph, false);
    CanRegisterReach(s, ph);
    assert DoRegister(s, 0, ph) == Waits(CheckingPhase(), true) by {
      WaitsTo(ph, CheckingPhase(), false);
      assert [] + [0] == [0];
    }
  }

  lemma CanRegisterReach(s: State, ph: Phase)
    requires Reachable(s) && WellFormed(s) && s.threads == [ph, Idle] && CanRegister(s, ph)
    ensures Reachable(DoRegister(s, 0, ph))
  {
    hide Reachable, MutexFree;
    assert Registers(s, 0, DoRegister(s, 0, ph));
    hide Registers, CanRegister, DoRegister;
    ReachableStep(s, Register(0), DoRegister(s, 0, ph));
  }

  lemma CheckStep()
    ensures Reachable(Waits(RegisteringPhase([], [0]), true))
  {
    hide Reachable, MutexFree, List;
    var ph, s := CheckingPhase(), Waits(CheckingPhase(), true);
    RegisterStep();
    Shape(ph, true);
    assert NoWriter(s, 0, 0);
    hide NoHolder, NoWriter;
    CanCheckReach(s, ph);
    assert DoCheck(s, 0, ph) == Waits(RegisteringPhase([], [0]), true) by {
      WaitsTo(ph, RegisteringPhase([], [0]), true);
      assert [0][1..] == [] && [] + [0] == [0];
      assert Observed(PATIENT.tx.log, 0) == Some(NIL);
    }
  }

  lemma CanCheckReach(s: State, ph: Phase)
    requires Reachable(s) && WellFormed(s) && s.threads == [ph, Idle] && CanCheck(s, 0, ph)
    ensures Reachable(DoCheck(s, 0, ph))
  {
    hide Reachable, NoWriter;
    assert Checks(s, 0, DoCheck(s, 0, ph));
    hide Checks, CanCheck, DoCheck;
    ReachableStep(s, Check(0), DoCheck(s, 0, ph));
  }

  lemma BlockStep()
    ensures Reachable(Waits(WaitingPhase(), true))
  {
    hide Reachable, MutexFree, NoHolder, List;
    var ph, ph' := RegisteringPhase([], [0]), WaitingPhase();
    var s, s' := Waits(ph, true), Waits(ph', true);
    CheckStep();
    Shape(ph, true);
    WaitsTo(ph, ph', true);
    hide Waits;
    assert Blocks(s, 0, s');
    hide Blocks;
    ReachableStep(s, Action.Block(0), s');
  }

  /** A reachable sleeper whose variable is then written by `write_atomic`: it sleeps on, no wake-up is
      on the way, and yet its body would now return. */
  lemma SleepsThroughWriteAtomic() returns (s: State, s': State)
    ensures Reachable(s) && Sleeping(s, 0) && !WakeUpComing(s, 0, 0)
    ensures s.threads[0].done.Done? && Observed(s.threads[0].done.tx.log, 0).Some?
    ensures WritesAtomic(s, 1, 0, 5, s') && Reachable(s')
    ensures Sleeping(s', 0) && !WakeUpComing(s', 0, 0) && !Holds(s'.cells, s'.threads[0].done.tx.log, 0)
    ensures var job := s'.threads[0].job;
            Direct(job.prog, job.depth, Payloads(s'.cells)) == Committed(5, Payloads(s'.cells))
  {
    hide Reachable, Direct, MutexFree, NoHolder;
    s := Waits(WaitingPhase(), true);
    s' := DoWriteAtomic(s, 1, 0, 5);
    BlockStep();
    Shape(WaitingPhase(), true);
    hide Waits, List;
    CanWriteReach(s, WaitingPhase());
    hide WritesAtomic;
    assert Observed(PATIENT.tx.log, 0) == Some(NIL) && s'.cells[0] == Arc(Box(1, 0), 5);
    hide Observed;
    PatientReturns(Payloads(s'.cells));
    assert s'.threads == s.threads && s'.cbs == s.cbs;
    assert !WakeUpComing(s, 0, 0);
    hide WakeUpComing, DoWriteAtomic;
    SameWakeUps(s, s', 0, 0);
  }

  lemma CanWriteReach(s: State, ph: Phase)
    requires Reachable(s) && WellFormed(s) && s.threads == [ph, Idle] && NoHolder(s, 1, 0)
    ensures WritesAtomic(s, 1, 0, 5, DoWriteAtomic(s, 1, 0, 5))
    ensures Reachable(DoWriteAtomic(s, 1, 0, 5))
  {
    hide Reachable, NoHolder, DoWriteAtomic;
    assert WritesAtomic(s, 1, 0, 5, DoWriteAtomic(s, 1, 0, 5));
    hide WritesAtomic;
    ReachableStep(s, Action.WriteAtomic(1, 0, 5), DoWriteAtomic(s, 1, 0, 5));
  }

  lemma PatientReturns(vals: Vals)
    requires vals[0] != 0
    ensures Direct(Patient(), 4, vals) == Committed(vals[0], vals)
  {
    assert Direct(Patient().k(vals[0]), 3, vals) == Committed(vals[0], vals);
  }

  // A commit that fails although nothing asks `control`

  /** Returns what variable 0 holds. */
  function Plain(): Prog {
    Prog.Read(0, OrLaws.Id())
  }

  lemma PlainReturns(depth: nat, tag: nat, src: Source)
    requires depth > 1
    ensures var r := Attempt(Plain(), depth, tag, src);
            (r.Done? ==> r.ending.Returned?) && (src == Recorded(LOADS) ==> r == PLAIN)
  {
    match Fetch(src, 0, 0)
    case Got(a) =>
      assert Exec(Plain().k(a.val), depth - 1, tag, src, Loaded(EMPTY, 0, a)).ending == Returned(a.val);
    case _ =>
  }

  const PLAIN := Done(Returned(0), Tx(map[0 := LogVar.Read(NIL)], 0, 1), End, true)

  function LockingPhase(): Phase {
    Locking(Call(Plain()), LOADS, PLAIN, [0], {}, {})
  }

  lemma StartCommitStep()
    ensures Reachable(With(LockingPhase()))
  {
    var ph, s, s' := Running(Call(Plain()), LOADS), With(Running(Call(Plain()), LOADS)), With(LockingPhase());
    LoadStep(Plain());
    PlainReturns(4, 0, Recorded(LOADS));
    hide Reachable, Attempt, InOrder;
    assert RunOf(ph) == PLAIN && PLAIN.tx.log.Keys == {0};
    OneKey(0);
    WithTo(ph, LockingPhase());
    assert StartsCommit(s, 0, s');
    hide StartsCommit;
    ReachableStep(s, Action.StartCommit(0), s');
  }

  /** A reachable failed validation: another thread's write has come between the load and the commit, and
      the call goes on with a second attempt, although every run of its body returns, so that `control`
      is never asked. */
  lemma FailsUnasked() returns (s: State, s': State)
    ensures Reachable(s) && LocksNext(s, 0, s') && Reachable(s')
    ensures s'.failures[0] == 1 && s'.threads[0].Running? && SameCall(s.threads[0], s'.threads[0])
    ensures s'.threads[0].job.tag != s.threads[0].job.tag
    ensures var job := s'.threads[0].job;
            forall tag, src | Attempt(job.prog, job.depth, tag, src).Done? ::
              Attempt(job.prog, job.depth, tag, src).ending.Returned?
  {
    hide Reachable, NoHolder, Attempt;
    var before := With(LockingPhase());
    StartCommitStep();
    assert before.threads == [LockingPhase(), Idle] && WellFormed(before);
    assert NoHolder(before, 1, 0) by { LockingHolds(); }
    CanWriteReach(before, LockingPhase());
    s := DoWriteAtomic(before, 1, 0, 5);
    assert s.cells[0] == Arc(Box(1, 0), 5) && s.threads == before.threads && WellFormed(s);
    hide With, DoWriteAtomic, WritesAtomic;
    s' := FailStep(s);
    forall tag, src | Attempt(Plain(), 4, tag, src).Done? ensures Attempt(Plain(), 4, tag, src).ending.Returned? {
      PlainReturns(4, tag, src);
    }
  }

  lemma LockingHolds()
    ensures NoHolder(With(LockingPhase()), 1, 0)
  {}

  lemma FailStep(s: State) returns (s': State)
    requires Reachable(s) && WellFormed(s) && s.threads == [LockingPhase(), Idle]
    requires s.cells[0] == Arc(Box(1, 0), 5) && s.nextTag > 0 && s.failures[0] == 0
    ensures LocksNext(s, 0, s') && Reachable(s')
    ensures s'.failures[0] == 1 && s'.threads[0].Running? && SameCall(s.threads[0], s'.threads[0])
    ensures s'.threads[0].job.prog == Plain() && s'.threads[0].job.depth == 4
    ensures s'.threads[0].job.tag != s.threads[0].job.tag
  {
    hide Reachable;
    assert NoWriter(s, 0, 0) && Stale(s, PLAIN.tx.log[0], 0) && CanLockNext(s, 0, s.threads[0]);
    s' := DoLockNext(s, 0, s.threads[0]);
    assert LocksNext(s, 0, s');
    FailedCommitStartsOver(s, 0, s');
    hide LocksNext, Stale, CanLockNext;
    ReachableStep(s, LockNext(0), s');
  }

  // A sleeper that misses a commit, since a merge has lost what it waited for

  /** Would return what variable 0 holds unless that is zero; the second branch writes it blindly. */
  function Blind(): Prog {
    Prog.Or(Prog.Read(0, UnlessZero()), Prog.Write(0, 7, Retry), OrLaws.Id())
  }

  const BLIND := Done(Retried, Tx(map[0 := LogVar.Write(Arc(Box(0, 0), 7))], 1, 1), End, false)

  lemma BlindRun()
    ensures Attempt(Blind(), 4, 0, Recorded([])).NeedLoad? && Attempt(Blind(), 4, 0, Recorded([])).x == 0
    ensures Attempt(Blind(), 4, 0, Recorded(LOADS)) == BLIND
    ensures WaitKeys(BLIND.tx.log) == []
  {
    var first := Exec(Prog.Read(0, UnlessZero()), 3, 0, Recorded(LOADS), EMPTY);
    assert first == Done(Retried, Tx(map[0 := LogVar.Read(NIL)], 0, 1), End, true);
    var second := Exec(Prog.Write(0, 7, Retry), 3, 0, Recorded(LOADS), Tx(map[], 0, 1));
    assert second == Done(Retried, Tx(map[0 := LogVar.Write(Arc(Box(0, 0), 7))], 1, 1), End, true);
    assert !AgreesAt(second.tx.log, first.tx.log, 0);
    assert forall x :: Observed(BLIND.tx.log, x) == None;
    hide Exec;
    assert forall x :: x !in WaitKeys(BLIND.tx.log);
    if WaitKeys(BLIND.tx.log) != [] { assert WaitKeys(BLIND.tx.log)[0] in WaitKeys(BLIND.tx.log); }
  }

  function BlindWaiting(): Phase {
    Waiting(Call(Blind()), LOADS, BLIND, 0, [], false)
  }

  lemma BlindSleeps()
    ensures Reachable(Waits(BlindWaiting(), false))
  {
    hide Reachable, Attempt, WaitKeys, MutexFree, NoHolder;
    var run, ph := Running(Call(Blind()), LOADS), Registering(Call(Blind()), LOADS, BLIND, 0, [], []);
    BlindRun();
    LoadStep(Blind());
    WithTo(run, ph);
    CanWaitReach(With(run), run);
    assert DoStartWait(With(run), 0, run) == Waits(ph, false);
    Shape(ph, false);
    WaitsTo(ph, BlindWaiting(), false);
    CanBlockReach(Waits(ph, false), ph);
  }

  lemma CanBlockReach(s: State, ph: Phase)
    requires Reachable(s) && WellFormed(s) && s.threads == [ph, Idle] && ph.Registering? && ph.todo == []
    ensures Reachable(To(s, 0, Waiting(ph.job, ph.loads, ph.done, ph.cb, ph.seen, false)))
  {
    var s' := To(s, 0, Waiting(ph.job, ph.loads, ph.done, ph.cb, ph.seen, false));
    hide Reachable;
    assert Blocks(s, 0, s');
    hide Blocks;
    ReachableStep(s, Action.Block(0), s');
  }

  const ONE := Arc(Box(1, 0), 1)
  const ONEWRITE := Done(Returned(0), Tx(map[0 := LogVar.Write(ONE)], 1, 0), End, true)

  /** The other thread's call: it stores one. */
  function Setter(): Job {
    Job(Prog.Write(0, 1, Return(0)), 4, 0, 1, 0)
  }

  lemma SetterRun()
    ensures Attempt(Setter().prog, 4, 1, Recorded([])) == ONEWRITE
    ensures Writes(ONEWRITE.tx.log) == map[0 := ONE] && ONEWRITE.tx.log.Keys == {0}
  {
    assert Exec(Return(0), 3, 1, Recorded([]), Tx(map[0 := LogVar.Write(ONE)], 1, 0)) == ONEWRITE;
  }

  /** The first thread sleeps, the second is in phase `ph`. */
  ghost predicate Beside(s: State, ph: Phase) {
    && Reachable(s) && WellFormed(s) && s.threads == [BlindWaiting(), ph] && s.cbs == [Cb(0, true, true, 0, {})]
    && List(s, 0) == []
  }

  ghost predicate Unwrote(s: State) {
    s.history == [] && s.cells == Cells()
  }

  /** The update has taken its place in the serial order. */
  ghost predicate Wrote(s: State) {
    |s.history| == 1 && s.history[0].writes == map[0 := ONE]
  }

  lemma SetterBegins() returns (s: State)
    ensures Beside(s, Running(Setter(), [])) && Unwrote(s)
  {
    hide Reachable, MutexFree, NoHolder;
    var s0 := Waits(BlindWaiting(), false);
    BlindSleeps();
    Shape(BlindWaiting(), false);
    assert s0.cells == Cells();
    hide Waits, With;
    s := Again(s0, 1, Job(Setter().prog, 4, 0, 0, 0));
    assert s.threads == [BlindWaiting(), Running(Setter(), [])];
    CanBeginReach(s0, BlindWaiting(), Setter().prog);
  }

  lemma CanBeginReach(s: State, ph: Phase, p: Prog)
    requires Reachable(s) && WellFormed(s) && s.threads == [ph, Idle] && s.history == []
    ensures Reachable(Again(s, 1, Job(p, 4, 0, 0, 0)))
  {
    hide Reachable;
    assert Begins(s, 1, p, 4, Again(s, 1, Job(p, 4, 0, 0, 0)));
    hide Begins, Again;
    ReachableStep(s, Begin(1, p, 4), Again(s, 1, Job(p, 4, 0, 0, 0)));
  }

  lemma SetterStarts() returns (s: State)
    ensures Beside(s, Locking(Setter(), [], ONEWRITE, [0], {}, {})) && Unwrote(s)
  {
    hide Reachable, Attempt;
    var s0 := SetterBegins();
    SetterRun();
    OneKey(0);
    s := DoStartCommit(s0, 1, s0.threads[1]);
    assert s.threads == [BlindWaiting(), Locking(Setter(), [], ONEWRITE, [0], {}, {})];
    assert StartsCommit(s0, 1, s);
    hide StartsCommit;
    ReachableStep(s0, Action.StartCommit(1), s);
  }

  lemma SetterLocks() returns (s: State)
    ensures Beside(s, Locking(Setter(), [], ONEWRITE, [], {}, {0})) && Unwrote(s)
  {
    hide Reachable;
    var s0 := SetterStarts();
    var ph := s0.threads[1];
    assert NoHolder(s0, 1, 0) && !Stale(s0, ONEWRITE.tx.log[0], 0);
    hide NoHolder, Stale;
    s := DoLockNext(s0, 1, ph);
    assert [0][1..] == [] && {} + {0} == {0};
    assert Locked(ph, ONEWRITE.tx.log[0], 0) == Locking(Setter(), [], ONEWRITE, [], {}, {0});
    assert s.threads == [BlindWaiting(), Locking(Setter(), [], ONEWRITE, [], {}, {0})];
    assert LocksNext(s0, 1, s);
    hide LocksNext;
    ReachableStep(s0, LockNext(1), s);
  }

  lemma SetterSerializes() returns (s: State)
    ensures Beside(s, Writing(Setter(), 0, [0], [])) && Wrote(s)
  {
    hide Reachable;
    var s0 := SetterLocks();
    SetterRun();
    OneKey(0);
    assert (map[0 := ONE]).Keys == {0};
    s := DoSerialize(s0, 1, s0.threads[1]);
    assert s.threads == [BlindWaiting(), Writing(Setter(), 0, [0], [])];
    hide Writes, InOrder, Overwrite;
    assert Serializes(s0, 1, s);
    hide Serializes;
    ReachableStep(s0, Serialize(1), s);
  }

  lemma SetterStores() returns (s: State)
    ensures Beside(s, Writing(Setter(), 0, [], [0])) && s.cells[0] == ONE
  {
    hide Reachable;
    var s0 := SetterSerializes();
    s := DoWriteBack(s0, 1, s0.threads[1]);
    assert [0][1..] == [] && [] + [0] == [0];
    assert s.threads == [BlindWaiting(), Writing(Setter(), 0, [], [0])];
    assert WritesBack(s0, 1, s);
    hide WritesBack;
    ReachableStep(s0, WriteBack(1), s);
  }

  lemma SetterWakes() returns (s: State)
    ensures Beside(s, Waking(Setter(), 0, [], [], NoGrip)) && s.cells[0] == ONE
  {
    hide Reachable;
    var s0 := SetterStores();
    var s1 := To(s0, 1, Waking(Setter(), 0, [0], [], NoGrip));
    assert s1.threads == [BlindWaiting(), Waking(Setter(), 0, [0], [], NoGrip)] && List(s1, 0) == [];
    assert StartsWaking(s0, 1, s1);
    ReachableStep(s0, Action.StartWaking(1), s1) by { hide StartsWaking; }
    assert MutexFree(s1, 0);
    hide MutexFree, StartsWaking;
    s := DoTakeList(s1, 1, s1.threads[1]);
    assert [0][1..] == [];
    assert s.threads == [BlindWaiting(), Waking(Setter(), 0, [], [], NoGrip)];
    assert TakesList(s1, 1, s);
    hide TakesList;
    ReachableStep(s1, TakeList(1), s);
  }

  /** A reachable sleeper, and a commit that has finished: the thread waits for nothing, no wake-up is on the
      way, nobody wrote outside transactions, and yet its body would now return.  Agreement did not hold. */
  lemma SleepsThroughCommit() returns (s: State)
    ensures Reachable(s) && Sleeping(s, 0) && |s.threads| == 2 && s.threads[1].Idle?
    ensures s.threads[0].done.Done? && !s.threads[0].done.agreed
    ensures forall x :: !WakeUpComing(s, 0, x) && Observed(s.threads[0].done.tx.log, x) == None
    ensures var job := s.threads[0].job;
            Direct(job.prog, job.depth, Payloads(s.cells)) == Committed(1, Payloads(s.cells))
  {
    hide Reachable, Direct;
    var s0 := SetterWakes();
    s := To(s0, 1, Idle);
    assert s.threads == [BlindWaiting(), Idle];
    assert Finishes(s0, 1, s);
    hide Finishes;
    ReachableStep(s0, Finish(1), s);
    assert forall x :: !WillWake(s, x);
    assert !InFlight(s, 0);
    BlindReturns(Payloads(s.cells));
  }

  lemma BlindReturns(vals: Vals)
    requires vals[0] == 1
    ensures Direct(Blind(), 4, vals) == Committed(1, vals)
  {
    assert Direct(Prog.Read(0, UnlessZero()), 3, vals) == Committed(1, vals) by {
      assert Direct(UnlessZero()(1), 2, vals) == Committed(1, vals);
    }
    assert Direct(OrLaws.Id()(1), 3, vals) == Committed(1, vals);
  }

  // A sweep that leaves more blocks than there are threads

  /** Thread 0 starts to sweep the list of variable 0, where its own block, that of thread 1 and one that it
      has dropped are all announced dead; thread 1, which sweeps the list of variable 1, is testing the
      dropped one. */
  ghost function Crowded(): State {
    var job := Call(Patient());
    State(Cells(), map[0 := [2, 1, 0], 1 := [2]], map[],
          [Cb(0, true, true, 0, {0}), Cb(1, true, true, 0, {0, 1}), Cb(0, true, false, 0, {0, 1})],
          [Cleaning(job, 0, [0], InGc(0, None)), Cleaning(job, 1, [1], InGc(0, Some(2)))],
          [false, false], 1, [], [Cells()], [0, 0], map[])
  }

  /** In a state that meets the wait invariant a sweep by one of two threads may keep three blocks that have
      been announced, so a bound of one per thread fails; the third is the one that the other sweep tests. */
  lemma KeepsThree()
    ensures var s := Crowded();
            && WaitInv(s) && |s.threads| == 2 && Sweeping(s.threads[0], 0) && Probers(s) == {1}
            && s.threads[0].gc == InGc(0, None)
            && (forall c :: c in List(s, 0) ==> c < |s.cbs| && Upgradable(s, c))
            && |GarbageOf(s, 0)| == 3
  {
    var s := Crowded();
    assert HeldRef(s.threads[1]) == Some(2);
    assert Upgradable(s, 2) && Upgradable(s, 1) && Upgradable(s, 0);
    assert GarbageOf(s, 0) == {0, 1, 2};
    CrowdedWaits();
    hide WaitInv, Upgradable, GarbageOf;
  }

  lemma CrowdedWaits()
    ensures WaitInv(Crowded())
  {
    var s := Crowded();
    assert forall x, c :: c in List(s, x) ==> c < 3;
    assert forall c: nat :: c < 3 ==> CbOk(s, c);
    assert WaitOk(s, 0, s.threads[0]) && WaitOk(s, 1, s.threads[1]);
  }
}
