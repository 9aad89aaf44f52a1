/** The step machine: any number of threads over any number of variables, one atomic access to
    shared memory at a time. */
module Machine {
  import opened Boxes
  import opened LogVars
  import opened Programs
  import opened Engine
  import opened Attempts
  import opened Sorting

  type Tid = nat
  type CbId = nat

  /** A call of `atomically`: its body, the number of updates serialized when the call began, and
      the current attempt: its allocation tag and the number of updates serialized when it began. */
  datatype Job = Job(prog: Prog, depth: nat, called: nat, tag: nat, born: nat)

  /** How far a cleanup of the head of the list has come. */
  datatype Gc =
    | NoGc
    | WantGc
    // sweeping: the first `pos` entries stay; `probing` is the next one while the sweep holds a reference
    | InGc(pos: nat, probing: Option<CbId>)

  /** What a waker holds of the block it is informing: a strong reference that keeps it alive. */
  datatype Grip = NoGrip | Upgraded(c: CbId) | MustUnpark(c: CbId) | Spent(c: CbId)

  datatype Phase =
    | Idle
    | Running(job: Job, loads: seq<Load>)
    // commit, first phase: `todo` is still to be locked
    | Locking(job: Job, loads: seq<Load>, done: Outcome, todo: seq<Var>, rlocks: set<Var>, wlocks: set<Var>)
    // commit, second phase: `todo` is still to be written back and is write-locked
    | Writing(job: Job, index: nat, todo: seq<Var>, written: seq<Var>)
    // commit, wake-up: lists of `todo` are still to be taken, blocks in `taken` still to be upgraded
    | Waking(job: Job, index: nat, todo: seq<Var>, taken: seq<CbId>, grip: Grip)
    // wait_for_change: `seen` has been registered and found unchanged, in this order
    | Registering(job: Job, loads: seq<Load>, done: Outcome, cb: CbId, todo: seq<Var>, seen: seq<Var>)
    | Checking(job: Job, loads: seq<Load>, done: Outcome, cb: CbId, todo: seq<Var>, seen: seq<Var>)
    | Waiting(job: Job, loads: seq<Load>, done: Outcome, cb: CbId, seen: seq<Var>, parked: bool)
    | Cleaning(job: Job, cb: CbId, todo: seq<Var>, gc: Gc)

  /** A wake-up block: `wakers` counts the threads whose swap found it blocked, and `announced` the
      variables whose dead counter its owner has increased. */
  datatype Cb = Cb(owner: Tid, blocked: bool, alive: bool, wakers: nat, announced: set<Var>)

  /** An update of the logical store. */
  datatype Event =
    | Commit(tid: Tid, job: Job, loads: seq<Load>, done: Outcome, writes: map<Var, Arc>)
    | Bare(tid: Tid, btag: nat, writes: map<Var, Arc>)
  {
    function Tag(): nat {
      if Commit? then job.tag else btag
    }
  }

  datatype State = State(
    cells: Store,            // what every variable holds
    waiters: map<Var, seq<CbId>>,      // waiting_threads, if not empty
    dead: map<Var, nat>,               // dead_threads, if not zero
    cbs: seq<Cb>,            // every wake-up block ever created
    threads: seq<Phase>,
    tokens: seq<bool>,       // park tokens
    nextTag: nat,
    // bookkeeping
    history: seq<Event>,     // updates in serialization order
    stores: seq<Store>,      // the logical store before, between and after them
    failures: seq<nat>,      // failed commits of every thread
    announcers: map<Var, set<Tid>>)    // threads that announced since dead_threads was last reset

  function List(s: State, x: Var): seq<CbId> {
    if x in s.waiters then s.waiters[x] else []
  }

  function Deads(s: State, x: Var): nat {
    if x in s.dead then s.dead[x] else 0
  }

  function Announcers(s: State, x: Var): set<Tid> {
    if x in s.announcers then s.announcers[x] else {}
  }

  /** The thread is in wait_for_change and has not begun to clean up. */
  predicate InWait(ph: Phase) {
    ph.Registering? || ph.Checking? || ph.Waiting?
  }

  // Locks

  function HeldReads(ph: Phase): set<Var> {
    if ph.Locking? then ph.rlocks else {}
  }

  function HeldWrites(ph: Phase): set<Var> {
    if ph.Locking? then ph.wlocks else Unwritten(ph)
  }

  /** Variables whose new value is decided but not yet stored. */
  function Unwritten(ph: Phase): set<Var> {
    if ph.Writing? then set x | x in ph.todo else {}
  }

  ghost predicate NoWriter(s: State, t: Tid, x: Var) {
    forall u :: 0 <= u < |s.threads| && u != t ==> x !in HeldWrites(s.threads[u])
  }

  ghost predicate NoHolder(s: State, t: Tid, x: Var) {
    NoWriter(s, t, x) && forall u :: 0 <= u < |s.threads| && u != t ==> x !in HeldReads(s.threads[u])
  }

  /** The thread holds the waiter-list mutex of `x` (the other critical sections are one step). */
  predicate Sweeping(ph: Phase, x: Var) {
    ph.Cleaning? && ph.gc.InGc? && ph.todo != [] && ph.todo[0] == x
  }

  /** The thread has found the counter of `x` full, and is about to sweep or sweeping. */
  predicate Claims(ph: Phase, x: Var) {
    ph.Cleaning? && !ph.gc.NoGc? && ph.todo != [] && ph.todo[0] == x
  }

  ghost predicate MutexFree(s: State, x: Var) {
    forall u :: 0 <= u < |s.threads| ==> !Sweeping(s.threads[u], x)
  }

  /** The block that a thread other than its owner keeps alive: the one a waker has in its grip, or the
      one a sweep is testing. */
  function HeldRef(ph: Phase): Option<CbId> {
    match ph
    case Waking(_, _, _, _, grip) => if grip.NoGrip? then None else Some(grip.c)
    case Cleaning(_, _, _, gc) => if gc.InGc? then gc.probing else None
    case _ => None
  }

  /** Some strong reference to the block exists. */
  ghost predicate Upgradable(s: State, c: CbId)
    requires c < |s.cbs|
  {
    s.cbs[c].alive || exists u :: 0 <= u < |s.threads| && HeldRef(s.threads[u]) == Some(c)
  }

  // Steps

  datatype Action =
    | Begin(t: Tid, prog: Prog, depth: nat)
    | LoadVar(t: Tid)
    | StartCommit(t: Tid)
    | LockNext(t: Tid)
    | Serialize(t: Tid)
    | WriteBack(t: Tid)
    | StartWaking(t: Tid)
    | TakeList(t: Tid)
    | Upgrade(t: Tid)
    | SetChanged(t: Tid)
    | Unpark(t: Tid)
    | Release(t: Tid)
    | Finish(t: Tid)
    | GiveUp(t: Tid)
    | Rerun(t: Tid)
    | StartWait(t: Tid)
    | Register(t: Tid)
    | Check(t: Tid)
    | Block(t: Tid)
    | Poll(t: Tid)
    | Unparked(t: Tid, spurious: bool)
    | Announce(t: Tid)
    | Reset(t: Tid)
    | Probe(t: Tid)
    | Unprobe(t: Tid)
    | EndSweep(t: Tid)
    | DropBlock(t: Tid)
    | WriteAtomic(t: Tid, x: Var, v: Val)

  ghost function Now(s: State): Store
    requires s.stores != []
  {
    s.stores[|s.stores| - 1]
  }

  ghost function RunOf(ph: Phase): Outcome
    requires ph.Running?
  {
    Attempt(ph.job.prog, ph.job.depth, ph.job.tag, Recorded(ph.loads))
  }

  function PutCell(m: Store, x: Var, a: Arc): Store { m[x := a] }

  function To(s: State, t: Tid, ph: Phase): State
    requires t < |s.threads|
  {
    s.(threads := s.threads[t := ph])
  }

  /** A cleared log and a new attempt at the same body. */
  function Again(s: State, t: Tid, job: Job): State
    requires t < |s.threads|
  {
    s.(threads := s.threads[t := Running(job.(tag := s.nextTag, born := |s.history|), [])],
       nextTag := s.nextTag + 1)
  }

  ghost function WaitKeys(log: Log): seq<Var> {
    InOrder(set x | x in log && log[x].ReadValue().Some?)
  }

  ghost predicate WellFormed(s: State) {
    |s.threads| == |s.tokens| == |s.failures| && |s.stores| == |s.history| + 1
  }

  // Running the body

  ghost predicate CanLoad(s: State, t: Tid, ph: Phase) {
    ph.Running? && RunOf(ph).NeedLoad? && NoWriter(s, t, RunOf(ph).x)
  }

  ghost function DoLoad(s: State, t: Tid, ph: Phase): State
    requires t < |s.threads| && CanLoad(s, t, ph)
  {
    var x := RunOf(ph).x;
    To(s, t, Running(ph.job, ph.loads + [Load(x, s.cells[x], |s.history|)]))
  }

  ghost predicate Ended(ph: Phase) {
    ph.Running? && RunOf(ph).Done?
  }

  // Commit

  ghost function DoStartCommit(s: State, t: Tid, ph: Phase): State
    requires t < |s.threads| && Ended(ph)
  {
    var r := RunOf(ph);
    To(s, t, Locking(ph.job, ph.loads, r, InOrder(r.tx.log.Keys), {}, {}))
  }

  ghost predicate CanLockNext(s: State, t: Tid, ph: Phase) {
    && ph.Locking? && ph.todo != [] && ph.done.Done? && ph.todo[0] in ph.done.tx.log
    && CanLock(s, t, ph.done.tx.log[ph.todo[0]], ph.todo[0])
  }

  /** The next variable of the walk needs no lock, or its lock is free. */
  ghost predicate CanLock(s: State, t: Tid, e: LogVar, x: Var) {
    match e
    case ReadObsolete(_) => true
    case Read(_) => NoWriter(s, t, x)
    case _ => NoHolder(s, t, x)
  }

  /** Validation of the variable just locked. */
  predicate Stale(s: State, e: LogVar, x: Var) {
    e.Checked().Some? && !PtrEq(s.cells[x], e.Checked().value)
  }

  ghost function DoLockNext(s: State, t: Tid, ph: Phase): State
    requires t < |s.threads| && |s.failures| == |s.threads| && CanLockNext(s, t, ph)
  {
    var x := ph.todo[0];
    var e := ph.done.tx.log[x];
    if Stale(s, e, x) then
      Again(s, t, ph.job).(failures := s.failures[t := s.failures[t] + 1])
    else
      To(s, t, Locked(ph, e, x))
  }

  function Locked(ph: Phase, e: LogVar, x: Var): Phase
    requires ph.Locking? && ph.todo != []
  {
    Locking(ph.job, ph.loads, ph.done, ph.todo[1..],
            if e.Read? then ph.rlocks + {x} else ph.rlocks,
            if e.Pending().Some? then ph.wlocks + {x} else ph.wlocks)
  }

  predicate CanSerialize(ph: Phase) {
    ph.Locking? && ph.todo == [] && ph.done.Done?
  }

  /** All locks are held and all observations validated: the read locks are dropped, and this is
      the moment at which the commit takes effect logically. */
  ghost function DoSerialize(s: State, t: Tid, ph: Phase): State
    requires t < |s.threads| && s.stores != [] && CanSerialize(ph)
  {
    var w := Writes(ph.done.tx.log);
    s.(threads := s.threads[t := Writing(ph.job, |s.history|, InOrder(w.Keys), [])],
       history := s.history + [Commit(t, ph.job, ph.loads, ph.done, w)],
       stores := s.stores + [Overwrite(Now(s), w)])
  }

  predicate CanWriteBack(s: State, ph: Phase) {
    ph.Writing? && ph.todo != [] && ph.index < |s.history| && ph.todo[0] in s.history[ph.index].writes
  }

  function DoWriteBack(s: State, t: Tid, ph: Phase): State
    requires t < |s.threads| && CanWriteBack(s, ph)
  {
    var x := ph.todo[0];
    s.(threads := s.threads[t := Writing(ph.job, ph.index, ph.todo[1..], ph.written + [x])],
       cells := PutCell(s.cells, x, s.history[ph.index].writes[x]))
  }

  // Waking waiters

  ghost predicate CanTakeList(s: State, ph: Phase) {
    ph.Waking? && ph.taken == [] && ph.grip.NoGrip? && ph.todo != [] && MutexFree(s, ph.todo[0])
  }

  ghost function DoTakeList(s: State, t: Tid, ph: Phase): State
    requires t < |s.threads| && CanTakeList(s, ph)
  {
    var x := ph.todo[0];
    s.(threads := s.threads[t := Waking(ph.job, ph.index, ph.todo[1..], List(s, x), NoGrip)],
       waiters := s.waiters[x := []])
  }

  predicate CanUpgrade(s: State, ph: Phase) {
    ph.Waking? && ph.taken != [] && ph.grip.NoGrip? && ph.taken[0] < |s.cbs|
  }

  ghost function DoUpgrade(s: State, t: Tid, ph: Phase): State
    requires t < |s.threads| && CanUpgrade(s, ph)
  {
    var c := ph.taken[0];
    To(s, t, Waking(ph.job, ph.index, ph.todo, ph.taken[1..], if Upgradable(s, c) then Upgraded(c) else NoGrip))
  }

  predicate CanSetChanged(s: State, ph: Phase) {
    ph.Waking? && ph.grip.Upgraded? && ph.grip.c < |s.cbs|
  }

  function DoSetChanged(s: State, t: Tid, ph: Phase): State
    requires t < |s.threads| && CanSetChanged(s, ph)
  {
    var c := ph.grip.c;
    if s.cbs[c].blocked then
      s.(threads := s.threads[t := Waking(ph.job, ph.index, ph.todo, ph.taken, MustUnpark(c))],
         cbs := s.cbs[c := s.cbs[c].(blocked := false, wakers := s.cbs[c].wakers + 1)])
    else
      To(s, t, Waking(ph.job, ph.index, ph.todo, ph.taken, Spent(c)))
  }

  predicate CanUnpark(s: State, ph: Phase) {
    ph.Waking? && ph.grip.MustUnpark? && ph.grip.c < |s.cbs| && s.cbs[ph.grip.c].owner < |s.tokens|
  }

  function DoUnpark(s: State, t: Tid, ph: Phase): State
    requires t < |s.threads| && CanUnpark(s, ph)
  {
    s.(threads := s.threads[t := Waking(ph.job, ph.index, ph.todo, ph.taken, Spent(ph.grip.c))],
       tokens := s.tokens[s.cbs[ph.grip.c].owner := true])
  }

  // Waiting for a change

  ghost function DoStartWait(s: State, t: Tid, ph: Phase): State
    requires t < |s.threads| && Ended(ph)
  {
    var r := RunOf(ph);
    s.(threads := s.threads[t := Registering(ph.job, ph.loads, r, |s.cbs|, WaitKeys(r.tx.log), [])],
       cbs := s.cbs + [Cb(t, true, true, 0, {})])
  }

  ghost predicate CanRegister(s: State, ph: Phase) {
    ph.Registering? && ph.todo != [] && MutexFree(s, ph.todo[0])
  }

  ghost function DoRegister(s: State, t: Tid, ph: Phase): State
    requires t < |s.threads| && CanRegister(s, ph)
  {
    var x := ph.todo[0];
    s.(threads := s.threads[t := Checking(ph.job, ph.loads, ph.done, ph.cb, ph.todo, ph.seen)],
       waiters := s.waiters[x := List(s, x) + [ph.cb]])
  }

  ghost predicate CanCheck(s: State, t: Tid, ph: Phase) {
    && ph.Checking? && ph.todo != [] && ph.done.Done? && Observed(ph.done.tx.log, ph.todo[0]).Some?
    && NoWriter(s, t, ph.todo[0])
  }

  ghost function DoCheck(s: State, t: Tid, ph: Phase): State
    requires t < |s.threads| && CanCheck(s, t, ph)
  {
    var x := ph.todo[0];
    if PtrEq(Observed(ph.done.tx.log, x).value, s.cells[x]) then
      To(s, t, Registering(ph.job, ph.loads, ph.done, ph.cb, ph.todo[1..], ph.seen + [x]))
    else
      To(s, t, Cleaning(ph.job, ph.cb, ph.seen + [x], NoGc))
  }

  function DoPoll(s: State, t: Tid, ph: Phase): State
    requires t < |s.threads| && ph.Waiting? && ph.cb < |s.cbs|
  {
    To(s, t, if s.cbs[ph.cb].blocked then Waiting(ph.job, ph.loads, ph.done, ph.cb, ph.seen, true)
             else Cleaning(ph.job, ph.cb, ph.seen, NoGc))
  }

  /** `park` either consumes the token or returns without reason. */
  function DoUnparked(s: State, t: Tid, ph: Phase, spurious: bool): State
    requires t < |s.threads| && t < |s.tokens| && ph.Waiting?
  {
    s.(threads := s.threads[t := Waiting(ph.job, ph.loads, ph.done, ph.cb, ph.seen, false)],
       tokens := s.tokens[t := spurious && s.tokens[t]])
  }

  predicate CanAnnounce(s: State, ph: Phase) {
    ph.Cleaning? && ph.gc.NoGc? && ph.todo != [] && ph.cb < |s.cbs|
  }

  function Announced(c: Cb, x: Var): Cb {
    Cb(c.owner, c.blocked, c.alive, c.wakers, c.announced + {x})
  }

  function AfterCount(s: State, ph: Phase, x: Var): Phase
    requires ph.Cleaning? && ph.todo != []
  {
    if Deads(s, x) >= 64 then Cleaning(ph.job, ph.cb, ph.todo, WantGc)
    else Cleaning(ph.job, ph.cb, ph.todo[1..], NoGc)
  }

  function DoAnnounce(s: State, t: Tid, ph: Phase): State
    requires t < |s.threads| && CanAnnounce(s, ph)
  {
    var x := ph.todo[0];
    State(s.cells, s.waiters, s.dead[x := Deads(s, x) + 1],
          s.cbs[ph.cb := Announced(s.cbs[ph.cb], x)], s.threads[t := AfterCount(s, ph, x)],
          s.tokens, s.nextTag, s.history, s.stores, s.failures,
          s.announcers[x := Announcers(s, x) + {t}])
  }

  ghost predicate CanReset(s: State, ph: Phase) {
    ph.Cleaning? && ph.gc.WantGc? && ph.todo != [] && MutexFree(s, ph.todo[0])
  }

  ghost function DoReset(s: State, t: Tid, ph: Phase): State
    requires t < |s.threads| && CanReset(s, ph)
  {
    s.(threads := s.threads[t := Cleaning(ph.job, ph.cb, ph.todo, InGc(0, None))],
       dead := s.dead[ph.todo[0] := 0],
       announcers := s.announcers[ph.todo[0] := {}])
  }

  predicate CanProbe(s: State, ph: Phase) {
    && ph.Cleaning? && ph.gc.InGc? && ph.gc.probing.None? && ph.todo != []
    && ph.gc.pos < |List(s, ph.todo[0])| && List(s, ph.todo[0])[ph.gc.pos] < |s.cbs|
  }

  function Without(cs: seq<CbId>, i: nat): seq<CbId>
    requires i < |cs|
  {
    cs[..i] + cs[i + 1..]
  }

  /** The sweep tries to upgrade the next entry of the list, and removes it if that fails. */
  ghost function DoProbe(s: State, t: Tid, ph: Phase): State
    requires t < |s.threads| && CanProbe(s, ph)
  {
    var x, pos := ph.todo[0], ph.gc.pos;
    var c := List(s, x)[pos];
    if Upgradable(s, c) then
      To(s, t, Cleaning(ph.job, ph.cb, ph.todo, InGc(pos, Some(c))))
    else
      s.(waiters := s.waiters[x := Without(List(s, x), pos)])
  }

  function DoDropBlock(s: State, t: Tid, ph: Phase): State
    requires t < |s.threads| && ph.Cleaning? && ph.cb < |s.cbs|
  {
    var c := s.cbs[ph.cb];
    Again(s, t, ph.job).(cbs := s.cbs[ph.cb := Cb(c.owner, c.blocked, false, c.wakers, c.announced)])
  }

  // A write outside any transaction

  ghost function DoWriteAtomic(s: State, t: Tid, x: Var, v: Val): State
    requires s.stores != []
  {
    var a := Arc(Box(s.nextTag, 0), v);
    s.(cells := PutCell(s.cells, x, a), nextTag := s.nextTag + 1,
       history := s.history + [Bare(t, s.nextTag, map[x := a])],
       stores := s.stores + [Overwrite(Now(s), map[x := a])])
  }

  // One step of thread `t` from `s` to `s'`

  ghost predicate Actor(s: State, t: Tid) {
    WellFormed(s) && t < |s.threads|
  }

  ghost predicate Begins(s: State, t: Tid, prog: Prog, depth: nat, s': State) {
    && Actor(s, t)
    && var ph := s.threads[t];
       && ph.Idle?
       && s' == Again(s, t, Job(prog, depth, |s.history|, 0, 0))
  }

  ghost predicate Loads(s: State, t: Tid, s': State) {
    && Actor(s, t)
    && var ph := s.threads[t];
       && CanLoad(s, t, ph)
       && s' == DoLoad(s, t, ph)
  }

  ghost predicate StartsCommit(s: State, t: Tid, s': State) {
    && Actor(s, t)
    && var ph := s.threads[t];
       && Ended(ph)
       && RunOf(ph).ending.Returned?
       && s' == DoStartCommit(s, t, ph)
  }

  ghost predicate LocksNext(s: State, t: Tid, s': State) {
    && Actor(s, t)
    && var ph := s.threads[t];
       && CanLockNext(s, t, ph)
       && s' == DoLockNext(s, t, ph)
  }

  ghost predicate Serializes(s: State, t: Tid, s': State) {
    && Actor(s, t)
    && var ph := s.threads[t];
       && CanSerialize(ph)
       && s' == DoSerialize(s, t, ph)
  }

  ghost predicate WritesBack(s: State, t: Tid, s': State) {
    && Actor(s, t)
    && var ph := s.threads[t];
       && CanWriteBack(s, ph)
       && s' == DoWriteBack(s, t, ph)
  }

  ghost predicate StartsWaking(s: State, t: Tid, s': State) {
    && Actor(s, t)
    && var ph := s.threads[t];
       && ph.Writing?
       && ph.todo == []
       && s' == To(s, t, Waking(ph.job, ph.index, ph.written, [], NoGrip))
  }

  ghost predicate TakesList(s: State, t: Tid, s': State) {
    && Actor(s, t)
    && var ph := s.threads[t];
       && CanTakeList(s, ph)
       && s' == DoTakeList(s, t, ph)
  }

  ghost predicate Upgrades(s: State, t: Tid, s': State) {
    && Actor(s, t)
    && var ph := s.threads[t];
       && CanUpgrade(s, ph)
       && s' == DoUpgrade(s, t, ph)
  }

  ghost predicate SetsChanged(s: State, t: Tid, s': State) {
    && Actor(s, t)
    && var ph := s.threads[t];
       && CanSetChanged(s, ph)
       && s' == DoSetChanged(s, t, ph)
  }

  ghost predicate Unparks(s: State, t: Tid, s': State) {
    && Actor(s, t)
    && var ph := s.threads[t];
       && CanUnpark(s, ph)
       && s' == DoUnpark(s, t, ph)
  }

  ghost predicate Releases(s: State, t: Tid, s': State) {
    && Actor(s, t)
    && var ph := s.threads[t];
       && ph.Waking?
       && ph.grip.Spent?
       && s' == To(s, t, Waking(ph.job, ph.index, ph.todo, ph.taken, NoGrip))
  }

  ghost predicate Finishes(s: State, t: Tid, s': State) {
    && Actor(s, t)
    && var ph := s.threads[t];
       && ph.Waking?
       && ph.todo == []
       && ph.taken == []
       && ph.grip.NoGrip?
       && s' == To(s, t, Idle)
  }

  ghost predicate GivesUp(s: State, t: Tid, s': State) {
    && Actor(s, t)
    && var ph := s.threads[t];
       && Ended(ph)
       && !RunOf(ph).ending.Returned?
       && s' == To(s, t, Idle)
  }

  ghost predicate Reruns(s: State, t: Tid, s': State) {
    && Actor(s, t)
    && var ph := s.threads[t];
       && Ended(ph)
       && RunOf(ph).ending.Failed?
       && s' == Again(s, t, ph.job)
  }

  ghost predicate StartsWait(s: State, t: Tid, s': State) {
    && Actor(s, t)
    && var ph := s.threads[t];
       && Ended(ph)
       && RunOf(ph).ending.Retried?
       && s' == DoStartWait(s, t, ph)
  }

  ghost predicate Registers(s: State, t: Tid, s': State) {
    && Actor(s, t)
    && var ph := s.threads[t];
       && CanRegister(s, ph)
       && s' == DoRegister(s, t, ph)
  }

  ghost predicate Checks(s: State, t: Tid, s': State) {
    && Actor(s, t)
    && var ph := s.threads[t];
       && CanCheck(s, t, ph)
       && s' == DoCheck(s, t, ph)
  }

  ghost predicate Blocks(s: State, t: Tid, s': State) {
    && Actor(s, t)
    && var ph := s.threads[t];
       && ph.Registering?
       && ph.todo == []
       && s' == To(s, t, Waiting(ph.job, ph.loads, ph.done, ph.cb, ph.seen, false))
  }

  ghost predicate Polls(s: State, t: Tid, s': State) {
    && Actor(s, t)
    && var ph := s.threads[t];
       && ph.Waiting?
       && !ph.parked
       && ph.cb < |s.cbs|
       && s' == DoPoll(s, t, ph)
  }

  ghost predicate IsUnparked(s: State, t: Tid, spurious: bool, s': State) {
    && Actor(s, t)
    && var ph := s.threads[t];
       && ph.Waiting?
       && ph.parked
       && (spurious || s.tokens[t])
       && s' == DoUnparked(s, t, ph, spurious)
  }

  ghost predicate Announces(s: State, t: Tid, s': State) {
    && Actor(s, t)
    && var ph := s.threads[t];
       && CanAnnounce(s, ph)
       && s' == DoAnnounce(s, t, ph)
  }

  ghost predicate Resets(s: State, t: Tid, s': State) {
    && Actor(s, t)
    && var ph := s.threads[t];
       && CanReset(s, ph)
       && s' == DoReset(s, t, ph)
  }

  ghost predicate Probes(s: State, t: Tid, s': State) {
    && Actor(s, t)
    && var ph := s.threads[t];
       && CanProbe(s, ph)
       && s' == DoProbe(s, t, ph)
  }

  ghost predicate Unprobes(s: State, t: Tid, s': State) {
    && Actor(s, t)
    && var ph := s.threads[t];
       && ph.Cleaning?
       && ph.gc.InGc?
       && ph.gc.probing.Some?
       && s' == To(s, t, Cleaning(ph.job, ph.cb, ph.todo, InGc(ph.gc.pos + 1, None)))
  }

  /** The whole list has been tested. */
  ghost predicate EndsSweep(s: State, t: Tid, s': State) {
    && Actor(s, t)
    && var ph := s.threads[t];
       && ph.Cleaning?
       && ph.gc.InGc?
       && ph.gc.probing.None?
       && ph.todo != []
       && ph.gc.pos >= |List(s, ph.todo[0])|
       && s' == To(s, t, Cleaning(ph.job, ph.cb, ph.todo[1..], NoGc))
  }

  ghost predicate DropsBlock(s: State, t: Tid, s': State) {
    && Actor(s, t)
    && var ph := s.threads[t];
       && ph.Cleaning?
       && ph.gc.NoGc?
       && ph.todo == []
       && ph.cb < |s.cbs|
       && s' == DoDropBlock(s, t, ph)
  }

  ghost predicate WritesAtomic(s: State, t: Tid, x: Var, v: Val, s': State) {
    && Actor(s, t)
    && var ph := s.threads[t];
       && ph.Idle?
       && NoHolder(s, t, x)
       && s' == DoWriteAtomic(s, t, x, v)
  }

  ghost predicate Step(s: State, a: Action, s': State) {
    match a
    case Begin(t, prog, depth) => Begins(s, t, prog, depth, s')
    case LoadVar(t) => Loads(s, t, s')
    case StartCommit(t) => StartsCommit(s, t, s')
    case LockNext(t) => LocksNext(s, t, s')
    case Serialize(t) => Serializes(s, t, s')
    case WriteBack(t) => WritesBack(s, t, s')
    case StartWaking(t) => StartsWaking(s, t, s')
    case TakeList(t) => TakesList(s, t, s')
    case Upgrade(t) => Upgrades(s, t, s')
    case SetChanged(t) => SetsChanged(s, t, s')
    case Unpark(t) => Unparks(s, t, s')
    case Release(t) => Releases(s, t, s')
    case Finish(t) => Finishes(s, t, s')
    case GiveUp(t) => GivesUp(s, t, s')
    case Rerun(t) => Reruns(s, t, s')
    case StartWait(t) => StartsWait(s, t, s')
    case Register(t) => Registers(s, t, s')
    case Check(t) => Checks(s, t, s')
    case Block(t) => Blocks(s, t, s')
    case Poll(t) => Polls(s, t, s')
    case Unparked(t, spurious) => IsUnparked(s, t, spurious, s')
    case Announce(t) => Announces(s, t, s')
    case Reset(t) => Resets(s, t, s')
    case Probe(t) => Probes(s, t, s')
    case Unprobe(t) => Unprobes(s, t, s')
    case EndSweep(t) => EndsSweep(s, t, s')
    case DropBlock(t) => DropsBlock(s, t, s')
    case WriteAtomic(t, x, v) => WritesAtomic(s, t, x, v, s')
  }

  ghost predicate Init(s: State) {
    && WellFormed(s)
    && (forall t :: 0 <= t < |s.threads| ==> s.threads[t] == Idle && s.failures[t] == 0)
    && s.history == [] && s.stores == [s.cells] && s.cbs == []
    && (forall x: Var :: s.cells[x].id == Initial(x))
    && s.waiters == map[] && s.dead == map[] && s.announcers == map[]
  }

  ghost predicate Next(s: State, s': State) {
    exists a :: Step(s, a, s')
  }

  /** A run: every interleaving of the steps of all threads. */
  ghost predicate IsRun(run: seq<State>) {
    && run != [] && Init(run[0])
    && forall i :: 0 <= i < |run| - 1 ==> Next(run[i], run[i + 1])
  }

  ghost predicate Reachable(s: State) {
    exists run :: IsRun(run) && run[|run| - 1] == s
  }
}
