/** The transaction object: its log, updated in place, and what commit and waiting do to the control
    blocks of the variables when nobody interferes. */
module Transactions {
  import opened Boxes
  import opened LogVars
  import opened Programs
  import opened Engine
  import opened Observations
  import opened Sequential
  import opened Attempts
  import opened Sorting
  import opened Cells

  /** Where the control blocks live: distinct blocks at distinct addresses. */
  type Memory = map<Var, VarControlBlock>

  ghost predicate Separate(mem: Memory) {
    forall x, y :: x in mem && y in mem && x != y ==> mem[x] != mem[y]
  }

  ghost function WaitersOf(mem: Memory): set<ControlBlock>
    reads mem.Values`waiting
  {
    set x, b | x in mem && b in mem[x].waiting :: b
  }

  ghost function ThreadsOf(mem: Memory): set<ThreadHandle>
    reads mem.Values`waiting
  {
    set b | b in WaitersOf(mem) :: b.thread
  }

  /** Everything commit compares is, by pointer comparison, what the variables hold. */
  ghost predicate Fresh(log: Log, mem: Memory)
    requires log.Keys <= mem.Keys
    reads mem.Values`value
  {
    forall x :: x in log && log[x].Checked().Some? ==> PtrEq(mem[x].value, log[x].Checked().value)
  }

  ghost function Firsts(xs: seq<Var>, i: nat): set<Var>
    requires i <= |xs|
  {
    set x | x in xs[..i]
  }

  lemma FirstsOne(xs: seq<Var>, i: nat)
    requires Distinct(xs) && i < |xs|
    ensures xs[i] !in Firsts(xs, i) && Firsts(xs, i + 1) == Firsts(xs, i) + {xs[i]}
  {
    assert xs[..i + 1] == xs[..i] + [xs[i]];
  }

  lemma FirstsNone(xs: seq<Var>)
    ensures Firsts(xs, 0) == {}
  {}

  lemma FirstsAll(xs: seq<Var>, target: set<Var>)
    requires forall x :: x in xs <==> x in target
    ensures Firsts(xs, |xs|) == target
  {
    assert xs[..|xs|] == xs;
  }

  /** The guards held: one per variable in `readVec`, and the writer's of those in `writeVec`. */
  ghost predicate LocksAre(mem: Memory, readVec: seq<Var>, writeVec: seq<Var>)
    reads mem.Values`readers, mem.Values`writer
  {
    forall x :: x in mem ==>
      && mem[x].readers == (if x in readVec then 1 else 0)
      && mem[x].writer == (x in writeVec)
  }

  /** What the first phase of commit has collected after the variables in `done`. */
  ghost predicate Walked(log: Log, done: set<Var>, readVec: seq<Var>, writeVec: seq<Var>) {
    && Distinct(readVec) && Distinct(writeVec)
    && (forall x :: x in readVec <==> x in log && x in done && log[x].Read?)
    && (forall x :: x in writeVec <==> x in log && x in done && log[x].Pending().Some?)
  }

  lemma WalkedAll(log: Log, readVec: seq<Var>, writeVec: seq<Var>)
    requires Walked(log, log.Keys, readVec, writeVec)
    ensures Distinct(readVec) && Distinct(writeVec)
    ensures forall x :: x in readVec ==> x in log
    ensures forall x :: x in writeVec <==> x in Writes(log).Keys
    ensures Writes(log).Keys <= log.Keys
  {}

  ghost predicate WalkedTo(log: Log, order: seq<Var>, i: nat, readVec: seq<Var>, writeVec: seq<Var>)
    requires i <= |order|
  {
    Walked(log, (set x | x in order[..i]), readVec, writeVec)
  }

  lemma WalkedToVectors(log: Log, order: seq<Var>, i: nat, readVec: seq<Var>, writeVec: seq<Var>)
    requires i <= |order| && WalkedTo(log, order, i, readVec, writeVec)
    ensures Distinct(readVec) && Distinct(writeVec)
    ensures (forall x :: x in readVec ==> x in log) && forall x :: x in writeVec ==> x in log
  {}

  lemma WalkedEnd(log: Log, order: seq<Var>, readVec: seq<Var>, writeVec: seq<Var>)
    requires WalkedTo(log, order, |order|, readVec, writeVec) && forall x :: x in order <==> x in log
    ensures Walked(log, log.Keys, readVec, writeVec)
  {
    assert order[..|order|] == order;
    assert (set x | x in order) == log.Keys;
  }

  ghost predicate FreshTo(log: Log, mem: Memory, order: seq<Var>, i: nat)
    requires log.Keys <= mem.Keys && i <= |order|
    reads mem.Values`value
  {
    forall x :: x in order[..i] && x in log && log[x].Checked().Some? ==>
      PtrEq(mem[x].value, log[x].Checked().value)
  }

  lemma FreshOne(log: Log, mem: Memory, order: seq<Var>, i: nat)
    requires log.Keys <= mem.Keys && i < |order| && order[i] in log
    ensures var e := log[order[i]];
            if e.Checked().Some? && !PtrEq(mem[order[i]].value, e.Checked().value) then !Fresh(log, mem)
            else FreshTo(log, mem, order, i) ==> FreshTo(log, mem, order, i + 1)
  {
    assert order[..i + 1] == order[..i] + [order[i]];
  }

  lemma FreshEnd(log: Log, mem: Memory, order: seq<Var>)
    requires log.Keys <= mem.Keys && FreshTo(log, mem, order, |order|) && forall x :: x in order <==> x in log
    ensures Fresh(log, mem)
  {
    assert order[..|order|] == order;
  }

  lemma WalkOne(log: Log, order: seq<Var>, i: nat, readVec: seq<Var>, writeVec: seq<Var>)
    requires Ascending(order) && i < |order| && order[i] in log && WalkedTo(log, order, i, readVec, writeVec)
    ensures forall y :: y in readVec || y in writeVec ==> y < order[i]
    ensures var e := log[order[i]];
            WalkedTo(log, order, i + 1, if e.Read? then readVec + [order[i]] else readVec,
                     if e.Pending().Some? then writeVec + [order[i]] else writeVec)
  {
    assert order[..i + 1] == order[..i] + [order[i]];
    assert forall y :: y in order[..i] ==> y < order[i];
  }

  /** Some variables at some moment: their values and dead counters, their waiter lists, how often each
      of these had been taken, the blocks on them, which of those could be upgraded and which were
      blocked, their threads, and which of these had a token. */
  datatype Snapshot = Snapshot(values: map<Var, Arc>, deads: map<Var, nat>, lists: map<Var, seq<ControlBlock>>,
                               counts: map<Var, nat>, all: set<ControlBlock>, strong: set<ControlBlock>,
                               asleep: set<ControlBlock>, threads: set<ThreadHandle>, tokens: set<ThreadHandle>)

  ghost function SnapshotOf(mem: Memory): Snapshot
    reads mem.Values`value, mem.Values`dead, mem.Values`waiting, mem.Values`taken
    reads WaitersOf(mem)`strong, WaitersOf(mem)`blocked, ThreadsOf(mem)`token
  {
    var all, threads := WaitersOf(mem), ThreadsOf(mem);
    Snapshot((map x | x in mem :: mem[x].value), (map x | x in mem :: mem[x].dead),
             (map x | x in mem :: mem[x].waiting), (map x | x in mem :: mem[x].taken),
             all, (set b | b in all && b.strong), (set b | b in all && b.blocked),
             threads, (set h | h in threads && h.token))
  }

  /** The written variables hold their pending boxes, the others what they held before. */
  ghost predicate Stored(log: Log, mem: Memory, written: set<Var>, w: Snapshot)
    reads mem.Values`value, mem.Values`dead
  {
    forall x :: x in mem && x in w.values && x in w.deads ==>
      && mem[x].dead == w.deads[x]
      && (if x in written then Pending(log, x) == Some(mem[x].value) else mem[x].value == w.values[x])
  }

  ghost predicate Covered(w: Snapshot) {
    && (forall x, b :: x in w.lists && b in w.lists[x] ==> b in w.all)
    && (forall b :: b in w.all ==> b.thread in w.threads)
  }

  /** The lists of the written variables have been taken once, the others not at all. */
  ghost predicate ListsTaken(mem: Memory, written: set<Var>, w: Snapshot)
    reads mem.Values`waiting, mem.Values`taken
  {
    forall x :: x in mem && x in w.lists && x in w.counts ==>
      && mem[x].waiting == (if x in written then [] else w.lists[x])
      && mem[x].taken == (if x in written then w.counts[x] + 1 else w.counts[x])
  }

  ghost function OnList(w: Snapshot, x: Var): set<ControlBlock>
    requires x in w.lists
  {
    set b | b in w.lists[x] && b in w.strong
  }

  /** The blocks that taking the lists of the written variables informs. */
  ghost function InformedBy(w: Snapshot, written: set<Var>): set<ControlBlock> {
    set x, b | x in w.lists && x in written && b in w.lists[x] && b in w.strong :: b
  }

  lemma InformedByOne(w: Snapshot, written: set<Var>, x: Var)
    requires x in w.lists
    ensures InformedBy(w, written + {x}) == InformedBy(w, written) + OnList(w, x)
  {}

  /** Exactly the informed blocks are no longer blocked, and exactly the threads of those that were blocked
      have got a token in addition to those that had one. */
  ghost predicate Informed(w: Snapshot, informed: set<ControlBlock>)
    reads w.all`blocked, w.all`strong, w.threads`token
  {
    && (forall b :: b in w.all ==> (b.strong <==> b in w.strong))
    && (forall b :: b in w.all ==> (b.blocked <==> b in w.asleep && b !in informed))
    && (forall h :: h in w.threads ==>
          (h.token <==> h in w.tokens || exists b :: b in w.all && b in w.asleep && b in informed && b.thread == h))
  }

  lemma SnapshotFacts(log: Log, mem: Memory)
    ensures var w := SnapshotOf(mem);
            && Covered(w) && Stored(log, mem, {}, w) && ListsTaken(mem, {}, w) && Informed(w, {})
            && InformedBy(w, {}) == {} && Buried(mem, w, [])
            && w.all == WaitersOf(mem) && w.threads == ThreadsOf(mem)
            && w.lists.Keys == w.counts.Keys == w.deads.Keys == mem.Keys
  {}

  /** The variables of a walk whose entries hold an observation. */
  function ObservedIn(log: Log, xs: seq<Var>): (r: seq<Var>)
    ensures forall x | x in r :: x in xs && Observed(log, x).Some?
    ensures forall x | x in xs && Observed(log, x).Some? :: x in r
  {
    if xs == [] then [] else
      var r := ObservedIn(log, xs[..|xs| - 1]);
      if Observed(log, xs[|xs| - 1]).Some? then r + [xs[|xs| - 1]] else r
  }

  lemma ObservedInOne(log: Log, xs: seq<Var>, i: nat)
    requires i < |xs| && Ascending(xs)
    ensures xs[i] !in ObservedIn(log, xs[..i])
    ensures ObservedIn(log, xs[..i + 1])
            == ObservedIn(log, xs[..i]) + if Observed(log, xs[i]).Some? then [xs[i]] else []
    ensures ObservedIn(log, xs[..i + 1]) <= ObservedIn(log, xs)
  {
    assert xs[..i + 1][..i] == xs[..i];
    ObservedInPrefix(log, xs, i + 1);
  }

  lemma {:induction false} ObservedInPrefix(log: Log, xs: seq<Var>, i: nat)
    requires i <= |xs|
    ensures ObservedIn(log, xs[..i]) <= ObservedIn(log, xs)
  {
    if i < |xs| {
      ObservedInPrefix(log, xs[..|xs| - 1], i);
      assert xs[..|xs| - 1][..i] == xs[..i];
    } else {
      assert xs[..i] == xs;
    }
  }

  ghost predicate StillHold(log: Log, mem: Memory, xs: seq<Var>)
    reads mem.Values`value
  {
    forall x :: x in xs && x in mem ==> Observed(log, x).Some? && PtrEq(Observed(log, x).value, mem[x].value)
  }

  /** The observed variables, in the order in which the log is walked. */
  ghost function Observing(log: Log): seq<Var> {
    ObservedIn(log, InOrder(log.Keys))
  }

  /** Registering went through the observed variables up to the first one that has changed; it found
      one, and the thread does not block, exactly if not all of them still hold what was observed. */
  ghost predicate StoppedAt(log: Log, mem: Memory, enlisted: seq<Var>, blocking: bool)
    reads mem.Values`value
  {
    && enlisted <= Observing(log)
    && (blocking <==> StillHold(log, mem, Observing(log)))
    && (if blocking then enlisted == Observing(log)
        else |enlisted| > 0 && StillHold(log, mem, enlisted[..|enlisted| - 1]) && !StillHold(log, mem, enlisted))
  }

  lemma StoppedAtEnd(log: Log, mem: Memory)
    requires StillHold(log, mem, Observing(log))
    ensures StoppedAt(log, mem, Observing(log), true)
  {}

  lemma StillHoldOne(log: Log, mem: Memory, xs: seq<Var>, x: Var, same: bool)
    requires StillHold(log, mem, xs) && x in mem && Observed(log, x).Some? && xs + [x] <= Observing(log)
    requires same == PtrEq(Observed(log, x).value, mem[x].value)
    ensures same ==> StillHold(log, mem, xs + [x])
    ensures !same ==> StoppedAt(log, mem, xs + [x], false)
  {
    hide Observing;
    assert forall y :: y in xs + [x] <==> y in xs || y == x;
    assert (xs + [x])[|xs|] == x && x in xs + [x] && x in Observing(log);
    assert (xs + [x])[..|xs|] == xs;
  }

  /** One block has been added to the lists of the given variables. */
  ghost predicate Enlisted(mem: Memory, lists: map<Var, seq<ControlBlock>>, ctrl: ControlBlock, xs: seq<Var>)
    reads mem.Values`waiting
  {
    forall x :: x in mem && x in lists ==> mem[x].waiting == lists[x] + if x in xs then [ctrl] else []
  }

  lemma NoneEnlisted(log: Log, mem: Memory, ctrl: ControlBlock)
    ensures Enlisted(mem, SnapshotOf(mem).lists, ctrl, []) && StillHold(log, mem, [])
  {}

  /** The given variables have been told of one more dead block; those that had been told of 64 have
      swept their lists and count anew. */
  ghost predicate Buried(mem: Memory, w: Snapshot, xs: seq<Var>)
    requires Covered(w)
    reads mem.Values`waiting, mem.Values`dead, w.all`strong
  {
    forall x :: x in mem && x in w.lists && x in w.deads ==>
      if x !in xs then mem[x].dead == w.deads[x] && mem[x].waiting == w.lists[x]
      else if w.deads[x] < 64 then mem[x].dead == w.deads[x] + 1 && mem[x].waiting == w.lists[x]
      else mem[x].dead == 0 && mem[x].waiting == Alive(w.lists[x])
  }

  /** The entries of the given variables. */
  function Only(log: Log, xs: seq<Var>): Log {
    map x | x in log && x in xs :: log[x]
  }

  lemma CombineOne(self: Log, other: Log, xs: seq<Var>, x: Var)
    requires x in other && x !in xs
    ensures var before := LogVars.Combine(self, Only(other, xs));
            LogVars.Combine(self, Only(other, xs + [x]))
            == if other[x].Obsolete().Some? && x !in before then before[x := other[x].Obsolete().value] else before
  {
    var before, after := LogVars.Combine(self, Only(other, xs)), LogVars.Combine(self, Only(other, xs + [x]));
    assert forall y :: y in xs + [x] <==> y in xs || y == x;
    assert forall y :: y in after <==> y in before || (y == x && other[x].Obsolete().Some?);
  }

  /** The body touches only these variables, whatever its reads return. */
  ghost predicate Within(p: Prog, depth: nat, xs: set<Var>)
    decreases depth
  {
    depth == 0
    || match p
       case Return(_) => true
       case Retry => true
       case Fail => true
       case Read(x, k) => x in xs && forall v :: Within(k(v), depth - 1, xs)
       case Write(x, _, next) => x in xs && Within(next, depth - 1, xs)
       case Or(first, second, k) =>
         Within(first, depth - 1, xs) && Within(second, depth - 1, xs) && forall v :: Within(k(v), depth - 1, xs)
  }

  /** What the variables hold; those that are not in memory hold what `rest` says. */
  ghost function StoreNow(mem: Memory, rest: Store): Store
    reads mem.Values`value
  {
    imap x: Var :: if x in mem then mem[x].value else rest[x]
  }

  ghost predicate Shows(mem: Memory, s: Store)
    reads mem.Values`value
  {
    forall x :: x in mem ==> mem[x].value == s[x]
  }

  /** The run ended as the atomic run on `s` does, and what it logged would commit to what that leaves. */
  ghost predicate Meant(p: Prog, depth: nat, s: Store, stop: Stop, log: Log) {
    match Direct(p, depth, Payloads(s))
    case Committed(v, vals) =>
      stop == Ended(Returned(v)) && Valid(log, s) && Payloads(Overwrite(s, Writes(log))) == vals
    case Blocked => stop == Ended(Retried)
    case Aborted => stop == Ended(Failed)
    case TooDeep => stop == Deep
  }

  /** The variables that do not hold the box that they held. */
  ghost function Changed(mem: Memory, w: Snapshot): set<Var>
    reads mem.Values`value
  {
    set x | x in mem && x in w.values && mem[x].value != w.values[x]
  }

  /** The lists of the variables that hold a new box have been taken once and the blocks on them informed;
      all other lists and blocks, and all dead counters, are as they were. */
  ghost predicate Delivered(mem: Memory, w: Snapshot)
    reads mem.Values, w.all`blocked, w.all`strong, w.threads`token
  {
    && ListsTaken(mem, Changed(mem, w), w) && Informed(w, InformedBy(w, Changed(mem, w)))
    && forall x :: x in mem && x in w.deads ==> mem[x].dead == w.deads[x]
  }

  /** No variable holds a box allocated under this tag. */
  ghost predicate TagUnused(w: Snapshot, tag: nat) {
    forall x | x in w.values :: !(w.values[x].id.Box? && w.values[x].id.tag == tag)
  }

  ghost predicate Tagged(log: Log, tag: nat) {
    forall x :: Pending(log, x).Some? ==> Pending(log, x).value.id.Box? && Pending(log, x).value.id.tag == tag
  }

  lemma AttemptTagged(p: Prog, depth: nat, tag: nat, s: Store)
    requires Exec(p, depth, tag, Live(s), EMPTY).Done?
    ensures Tagged(Exec(p, depth, tag, Live(s), EMPTY).tx.log, tag)
  {
    hide Exec;
    ExecGrows(p, depth, tag, Live(s), EMPTY);
    assert FreshBoxes(EMPTY.log, tag, 0);
  }

  /** Boxes are fresh, so a variable holds a new one exactly if it was written. */
  lemma WrittenIsChanged(log: Log, mem: Memory, w: Snapshot, tag: nat)
    requires log.Keys <= mem.Keys == w.values.Keys == w.deads.Keys
    requires Stored(log, mem, Writes(log).Keys, w) && TagUnused(w, tag) && Tagged(log, tag)
    ensures Changed(mem, w) == Writes(log).Keys
  {
    assert forall x :: x in Writes(log).Keys <==> x in log && Pending(log, x).Some?;
  }

  lemma NothingChanged(mem: Memory)
    ensures var w := SnapshotOf(mem); Changed(mem, w) == {} && Delivered(mem, w)
  {
    SnapshotFacts(map[], mem);
    hide Informed, InformedBy, Covered, Buried;
  }

  /** What an attempt made of the store is what the left-biased atomic run makes of it. */
  ghost predicate AsDirect(p: Prog, depth: nat, before: Store, after: Store, stop: Stop) {
    match Direct(p, depth, Payloads(before))
    case Committed(v, vals) => stop == Ended(Returned(v)) && Payloads(after) == vals
    case Blocked => stop == Ended(Retried) && after == before
    case Aborted => stop == Ended(Failed) && after == before
    case TooDeep => stop == Deep && after == before
  }

  lemma MeantReturns(p: Prog, depth: nat, s: Store, stop: Stop, log: Log)
    requires Meant(p, depth, s, stop, log) && stop.Ended? && stop.ending.Returned?
    ensures Valid(log, s) && AsDirect(p, depth, s, Overwrite(s, Writes(log)), stop)
  {
    hide Direct, Payloads, Overwrite, Valid, Writes;
  }

  lemma MeantKeeps(p: Prog, depth: nat, s: Store, stop: Stop, log: Log)
    requires Meant(p, depth, s, stop, log) && !(stop.Ended? && stop.ending.Returned?)
    ensures AsDirect(p, depth, s, s, stop)
  {
    hide Direct, Payloads, Overwrite, Valid, Writes;
  }

  lemma StoppedMeant(p: Prog, depth: nat, tag: nat, s: Store, stop: Stop, log: Log, n: nat, j: nat)
    requires Stopped(Exec(p, depth, tag, Live(s), EMPTY), stop, log, n, j)
    ensures Meant(p, depth, s, stop, log)
  {
    hide Exec, Direct, Payloads, Overwrite, Valid, Writes;
    SequentialAttempt(p, depth, tag, s);
  }

  /** The log is the one that the body's run on `s` leaves. */
  ghost predicate LeftBy(p: Prog, depth: nat, tag: nat, s: Store, log: Log) {
    var r := Exec(p, depth, tag, Live(s), EMPTY);
    r.Done? && log == r.tx.log
  }

  lemma StoppedLeft(p: Prog, depth: nat, tag: nat, s: Store, stop: Stop, log: Log, n: nat, j: nat)
    requires Stopped(Exec(p, depth, tag, Live(s), EMPTY), stop, log, n, j) && stop.Ended?
    ensures LeftBy(p, depth, tag, s, log) && Tagged(log, tag)
  {
    hide Exec;
    AttemptTagged(p, depth, tag, s);
  }

  lemma StoredDelivered(log: Log, mem: Memory, w: Snapshot)
    requires mem.Keys == w.values.Keys == w.deads.Keys && Changed(mem, w) == Writes(log).Keys
    requires Stored(log, mem, Writes(log).Keys, w) && ListsTaken(mem, Writes(log).Keys, w)
    requires Informed(w, InformedBy(w, Writes(log).Keys))
    ensures Delivered(mem, w)
  {
    hide Informed, InformedBy, ListsTaken, Changed, Writes;
  }

  lemma ShowsNow(mem: Memory, rest: Store)
    ensures Shows(mem, StoreNow(mem, rest))
  {}

  lemma ValidIsFresh(log: Log, mem: Memory, s: Store)
    requires log.Keys <= mem.Keys && Shows(mem, s) && Valid(log, s)
    ensures Fresh(log, mem)
  {}

  lemma SnapshotValues(mem: Memory, rest: Store)
    ensures var w := SnapshotOf(mem);
            && w.values.Keys == w.deads.Keys == mem.Keys
            && forall x: Var :: StoreNow(mem, rest)[x] == if x in mem then w.values[x] else rest[x]
  {}

  /** Committing to memory is overwriting the store. */
  lemma StoredIsOverwrite(log: Log, mem: Memory, w: Snapshot, s: Store, rest: Store)
    requires log.Keys <= mem.Keys && Stored(log, mem, Writes(log).Keys, w)
    requires w.values.Keys == w.deads.Keys == mem.Keys
    requires forall x: Var :: s[x] == if x in mem then w.values[x] else rest[x]
    ensures StoreNow(mem, rest) == Overwrite(s, Writes(log))
  {
    forall x: Var ensures StoreNow(mem, rest)[x] == Overwrite(s, Writes(log))[x] {
      if x in mem { assert x in Writes(log) <==> Pending(log, x).Some?; }
    }
  }

  /** How a run stopped. */
  datatype Stop = Ended(ending: Ending) | Needs(x: Var) | Lost | Deep

  class Transaction {
    const tag: nat
    var vars: Log
    var boxes: nat  // allocated so far

    constructor (tag: nat)
      ensures vars == map[] && boxes == 0 && this.tag == tag
    {
      this.tag := tag;
      vars := map[];
      boxes := 0;
    }

    /** A read of a variable with control block `block`. */
    method Read(x: Var, block: VarControlBlock) returns (v: Val)
      requires x in vars || !block.writer
      modifies this`vars, block`readers
      ensures x in old(vars) ==> vars == LogRead(old(vars), x) && v == old(vars)[x].Value().val
      ensures x !in old(vars) ==> vars == LogLoad(old(vars), x, block.value) && v == block.value.val
      ensures block.readers == old(block.readers)
    {
      if x in vars {
        v := Reread(x);
      } else {
        var a := block.ReadRefAtomic();
        v := Load(x, a);
      }
    }

    /** The occupied case of a read. */
    method Reread(x: Var) returns (v: Val)
      requires x in vars
      modifies this`vars
      ensures vars == LogRead(old(vars), x) && v == old(vars)[x].Value().val
    {
      v := vars[x].Value().val;
      vars := vars[x := vars[x].AfterRead()];
    }

    /** The vacant case, after the load has returned `a`. */
    method Load(x: Var, a: Arc) returns (v: Val)
      modifies this`vars
      ensures vars == LogLoad(old(vars), x, a) && v == a.val
    {
      vars := vars[x := LogVar.Read(a)];
      v := a.val;
    }

    method Write(x: Var, v: Val)
      modifies this`vars, this`boxes
      ensures vars == LogWrite(old(vars), x, Arc(Box(tag, old(boxes)), v)) && boxes == old(boxes) + 1
    {
      var boxed := Arc(Box(tag, boxes), v);
      boxes := boxes + 1;
      vars := vars[x := if x in vars then vars[x].AfterWrite(boxed) else LogVar.Write(boxed)];
    }

    /** Only observations of variables that the log does not hold yet are added. */
    method Combine(other: Log)
      modifies this`vars
      ensures vars == LogVars.Combine(old(vars), other)
    {
      var self := vars;
      var order := InOrder(other.Keys);
      hide InOrder;
      for i := 0 to |order|
        invariant vars == LogVars.Combine(self, Only(other, order[..i]))
      {
        var x := order[i];
        assert x in other;
        assert order[..i + 1] == order[..i] + [x];
        CombineOne(self, other, order[..i], x);
        match other[x].Obsolete()
        case Some(e) =>
          if x !in vars { vars := vars[x := e]; }
        case None =>
      }
      assert order[..|order|] == order;
      assert Only(other, order) == other;
    }

    method Clear()
      modifies this`vars
      ensures vars == map[]
    {
      vars := map[];
    }

    /** A body run against the log.  The loads it makes return what `loads` records, from number `i`
        on, whatever other threads did to the variables in between; the run stops where the record
        ends. */
    method Run(p: Prog, depth: nat, loads: seq<Engine.Load>, i: nat) returns (stop: Stop, j: nat)
      modifies this`vars, this`boxes
      ensures Stopped(Exec(p, depth, tag, Recorded(loads), Tx(old(vars), old(boxes), i)), stop, vars, boxes, j)
      decreases depth, 1
    {
      stop, j := Deep, i;
      if depth > 0 {
        match p
        case Return(v) => stop := Ended(Returned(v));
        case Retry => stop := Ended(Retried);
        case Fail => stop := Ended(Failed);
        case Read(x, k) =>
          if x in vars {
            var v := Reread(x);
            stop, j := Run(k(v), depth - 1, loads, i);
          } else if i >= |loads| {
            stop := Needs(x);
          } else if loads[i].x != x {
            stop := Lost;
          } else {
            var v := Load(x, loads[i].arc);
            stop, j := Run(k(v), depth - 1, loads, i + 1);
          }
        case Write(x, v, next) =>
          Write(x, v);
          stop, j := Run(next, depth - 1, loads, i);
        case Or(first, second, k) => stop, j := RunOr(first, second, k, depth, loads, i);
      }
    }

    /** `or`: the log is backed up, swapped back if the first branch retries, and the logs of both
        branches are merged unless the second one failed. */
    method RunOr(first: Prog, second: Prog, k: Val -> Prog, depth: nat, loads: seq<Engine.Load>, i: nat)
      returns (stop: Stop, j: nat)
      requires depth > 0
      modifies this`vars, this`boxes
      ensures Stopped(Exec(Prog.Or(first, second, k), depth, tag, Recorded(loads), Tx(old(vars), old(boxes), i)),
                      stop, vars, boxes, j)
      decreases depth, 0
    {
      ghost var src := Recorded(loads);
      ghost var tx := Tx(vars, boxes, i);
      ghost var r1 := Exec(first, depth - 1, tag, src, tx);
      ghost var r := Exec(Prog.Or(first, second, k), depth, tag, src, tx);
      var copy := vars;
      stop, j := Run(first, depth - 1, loads, i);
      if stop == Ended(Retried) {
        vars, copy := copy, vars;
        ghost var r2 := Exec(second, depth - 1, tag, src, Restored(tx, r1.tx));
        assert r == ExecSecond(second, k, depth, tag, src, tx, r1);
        assert Restored(tx, r1.tx) == Tx(vars, boxes, j);
        stop, j := Run(second, depth - 1, loads, j);
        assert Stopped(r2, stop, vars, boxes, j);
        if stop.Ended? && !stop.ending.Failed? {
          Combine(copy);
          ghost var tx2 := Merged(r2.tx, r1.tx);
          assert tx2 == Tx(vars, boxes, j);
          if stop.ending.Returned? {
            ghost var r3 := Exec(k(r2.ending.v), depth - 1, tag, src, tx2);
            assert r == Continue(k(r2.ending.v), depth, tag, src, tx2, false, r2.path,
                                 r1.agreed && r2.agreed && Agreement(r2.tx.log, r1.tx.log));
            stop, j := Run(k(stop.ending.v), depth - 1, loads, j);
            assert Stopped(r3, stop, vars, boxes, j);
            assert Stopped(r, stop, vars, boxes, j);
          } else {
            assert Stopped(r, stop, vars, boxes, j);
          }
        } else {
          assert Stopped(r, stop, vars, boxes, j);
        }
      } else if stop.Ended? && stop.ending.Returned? {
        ghost var v0 := stop.ending.v;
        ghost var r2 := Exec(k(v0), depth - 1, tag, src, r1.tx);
        assert r == Continue(k(v0), depth, tag, src, r1.tx, true, r1.path, r1.agreed);
        assert r1.tx == Tx(vars, boxes, j);
        stop, j := Run(k(stop.ending.v), depth - 1, loads, j);
        assert Stopped(r2, stop, vars, boxes, j);
        assert Stopped(r, stop, vars, boxes, j);
      } else {
        assert r == r1;
        assert Stopped(r, stop, vars, boxes, j);
      }
    }

    /** A body run against the log and the variables themselves, while nobody else writes them. */
    method Perform(p: Prog, depth: nat, mem: Memory, ghost s: Store, ghost i: nat)
      returns (stop: Stop, ghost j: nat)
      requires Within(p, depth, mem.Keys) && vars.Keys <= mem.Keys && LocksAre(mem, [], []) && Shows(mem, s)
      modifies this`vars, this`boxes, mem.Values`readers
      ensures vars.Keys <= mem.Keys && LocksAre(mem, [], [])
      ensures Stopped(Exec(p, depth, tag, Live(s), Tx(old(vars), old(boxes), i)), stop, vars, boxes, j)
      decreases depth, 1
    {
      stop, j := Deep, i;
      if depth > 0 {
        match p
        case Return(v) => stop := Ended(Returned(v));
        case Retry => stop := Ended(Retried);
        case Fail => stop := Ended(Failed);
        case Read(x, k) =>
          ghost var known := x in vars;
          var v := ReadIn(x, mem);
          stop, j := Perform(k(v), depth - 1, mem, s, if known then i else i + 1);
        case Write(x, v, next) =>
          Write(x, v);
          stop, j := Perform(next, depth - 1, mem, s, i);
        case Or(first, second, k) => stop, j := PerformOr(first, second, k, depth, mem, s, i);
      }
    }

    method ReadIn(x: Var, mem: Memory) returns (v: Val)
      requires x in mem && LocksAre(mem, [], [])
      modifies this`vars, mem.Values`readers
      ensures LocksAre(mem, [], [])
      ensures x in old(vars) ==> vars == LogRead(old(vars), x) && v == old(vars)[x].Value().val
      ensures x !in old(vars) ==> vars == LogLoad(old(vars), x, mem[x].value) && v == mem[x].value.val
    {
      v := Read(x, mem[x]);
    }

    method PerformOr(first: Prog, second: Prog, k: Val -> Prog, depth: nat, mem: Memory, ghost s: Store,
                     ghost i: nat)
      returns (stop: Stop, ghost j: nat)
      requires depth > 0 && Within(Prog.Or(first, second, k), depth, mem.Keys)
      requires vars.Keys <= mem.Keys && LocksAre(mem, [], []) && Shows(mem, s)
      modifies this`vars, this`boxes, mem.Values`readers
      ensures vars.Keys <= mem.Keys && LocksAre(mem, [], [])
      ensures Stopped(Exec(Prog.Or(first, second, k), depth, tag, Live(s), Tx(old(vars), old(boxes), i)),
                      stop, vars, boxes, j)
      decreases depth, 0
    {
      ghost var src := Live(s);
      ghost var tx := Tx(vars, boxes, i);
      ghost var r1 := Exec(first, depth - 1, tag, src, tx);
      ghost var r := Exec(Prog.Or(first, second, k), depth, tag, src, tx);
      hide LocksAre, Shows;
      var copy := vars;
      stop, j := Perform(first, depth - 1, mem, s, i);
      if stop == Ended(Retried) {
        assert r1 == Done(Retried, Tx(vars, boxes, j), r1.path, r1.agreed);
        assert r == ExecSecond(second, k, depth, tag, src, tx, r1);
        stop, j := PerformSecond(second, k, copy, depth, mem, s, j, tx, r1);
      } else if stop.Ended? && stop.ending.Returned? {
        ghost var v0 := stop.ending.v;
        ghost var r2 := Exec(k(v0), depth - 1, tag, src, r1.tx);
        assert r == Continue(k(v0), depth, tag, src, r1.tx, true, r1.path, r1.agreed);
        assert r1.tx == Tx(vars, boxes, j);
        stop, j := Perform(k(stop.ending.v), depth - 1, mem, s, j);
        assert Stopped(r2, stop, vars, boxes, j);
        assert Stopped(r, stop, vars, boxes, j);
      } else {
        assert r == r1;
        assert Stopped(r, stop, vars, boxes, j);
      }
    }

    /** The second branch, run from the log `copy` as it was before the first one. */
    method PerformSecond(second: Prog, k: Val -> Prog, copy: Log, depth: nat, mem: Memory, ghost s: Store,
                         ghost i: nat, ghost tx: Tx, ghost r1: Outcome)
      returns (stop: Stop, ghost j: nat)
      requires depth > 0 && Within(second, depth - 1, mem.Keys) && forall v :: Within(k(v), depth - 1, mem.Keys)
      requires vars.Keys <= mem.Keys && copy.Keys <= mem.Keys && LocksAre(mem, [], []) && Shows(mem, s)
      requires tx.log == copy && r1.Done? && r1.tx == Tx(vars, boxes, i)
      modifies this`vars, this`boxes, mem.Values`readers
      ensures vars.Keys <= mem.Keys && LocksAre(mem, [], [])
      ensures Stopped(ExecSecond(second, k, depth, tag, Live(s), tx, r1), stop, vars, boxes, j)
      decreases depth - 1, 2
    {
      ghost var src := Live(s);
      ghost var r2 := Exec(second, depth - 1, tag, src, Restored(tx, r1.tx));
      ghost var r := ExecSecond(second, k, depth, tag, src, tx, r1);
      hide LocksAre, Shows, Exec;
      var other := vars;
      vars := copy;
      assert Restored(tx, r1.tx) == Tx(vars, boxes, i);
      stop, j := Perform(second, depth - 1, mem, s, i);
      assert Stopped(r2, stop, vars, boxes, j);
      if stop.Ended? && !stop.ending.Failed? {
        Combine(other);
        ghost var tx2 := Merged(r2.tx, r1.tx);
        assert tx2 == Tx(vars, boxes, j);
        if stop.ending.Returned? {
          ghost var r3 := Exec(k(r2.ending.v), depth - 1, tag, src, tx2);
          assert r == Continue(k(r2.ending.v), depth, tag, src, tx2, false, r2.path,
                               r1.agreed && r2.agreed && Agreement(r2.tx.log, r1.tx.log));
          stop, j := Perform(k(stop.ending.v), depth - 1, mem, s, j);
          assert Stopped(r3, stop, vars, boxes, j);
        }
      }
      assert Stopped(r, stop, vars, boxes, j);
    }

    // Commit

    /** First phase: the variables are locked in address order as their entries demand, and what was
        observed is validated under the lock; at the first mismatch every lock is dropped again. */
    method Acquire(mem: Memory) returns (ok: bool, readVec: seq<Var>, writeVec: seq<Var>)
      requires Separate(mem) && vars.Keys <= mem.Keys && LocksAre(mem, [], [])
      modifies mem.Values`readers, mem.Values`writer
      ensures ok <==> Fresh(vars, mem)
      ensures ok ==> Walked(vars, vars.Keys, readVec, writeVec)
      ensures if ok then LocksAre(mem, readVec, writeVec) else LocksAre(mem, [], [])
    {
      var order := InOrder(vars.Keys);
      ok, readVec, writeVec := true, [], [];
      assert WalkedTo(vars, order, 0, [], []) && FreshTo(vars, mem, order, 0);
      assert forall x :: x in order <==> x in vars;
      hide InOrder, LocksAre, WalkedTo, FreshTo, Fresh, Separate;
      for i := 0 to |order|
        invariant ok && WalkedTo(vars, order, i, readVec, writeVec) && LocksAre(mem, readVec, writeVec)
        invariant FreshTo(vars, mem, order, i)
      {
        ok, readVec, writeVec := AcquireNext(mem, order, i, readVec, writeVec);
        if !ok {
          return;
        }
      }
      WalkedEnd(vars, order, readVec, writeVec);
      FreshEnd(vars, mem, order);
    }

    method AcquireNext(mem: Memory, order: seq<Var>, i: nat, readBefore: seq<Var>, writeBefore: seq<Var>)
      returns (ok: bool, readVec: seq<Var>, writeVec: seq<Var>)
      requires Separate(mem) && vars.Keys <= mem.Keys && LocksAre(mem, readBefore, writeBefore)
      requires Ascending(order) && i < |order| && order[i] in vars
      requires WalkedTo(vars, order, i, readBefore, writeBefore)
      requires FreshTo(vars, mem, order, i)
      modifies mem.Values`readers, mem.Values`writer
      ensures if ok then LocksAre(mem, readVec, writeVec) else LocksAre(mem, [], [])
      ensures ok ==> WalkedTo(vars, order, i + 1, readVec, writeVec) && FreshTo(vars, mem, order, i + 1)
      ensures !ok ==> !Fresh(vars, mem)
    {
      var x := order[i];
      WalkOne(vars, order, i, readBefore, writeBefore);
      FreshOne(vars, mem, order, i);
      hide Ascending, WalkedTo, Separate, LocksAre, Fresh, FreshTo;
      ok, readVec, writeVec := LockNext(mem, x, mem[x], readBefore, writeBefore);
      if !ok {
        WalkedToVectors(vars, order, i + 1, readVec, writeVec);
        hide Distinct;
        Release(mem, readVec, writeVec);
      }
    }

    /** Locks one variable, of a higher address than all that are locked, and validates what was observed
        of it. */
    method LockNext(ghost mem: Memory, x: Var, block: VarControlBlock, readBefore: seq<Var>,
                    writeBefore: seq<Var>)
      returns (ok: bool, readVec: seq<Var>, writeVec: seq<Var>)
      requires Separate(mem) && vars.Keys <= mem.Keys && LocksAre(mem, readBefore, writeBefore)
      requires x in vars && mem[x] == block && forall y :: y in readBefore || y in writeBefore ==> y < x
      modifies block`readers, block`writer
      ensures ok <==> (vars[x].Checked().Some? ==> PtrEq(block.value, vars[x].Checked().value))
      ensures readVec == if vars[x].Read? then readBefore + [x] else readBefore
      ensures writeVec == if vars[x].Pending().Some? then writeBefore + [x] else writeBefore
      ensures LocksAre(mem, readVec, writeVec)
    {
      ok, readVec, writeVec := true, readBefore, writeBefore;
      match vars[x]
      case Write(_) =>
        block.LockWrite();
        writeVec := writeVec + [x];
      case ReadObsoleteWrite(_, _) =>
        block.LockWrite();
        writeVec := writeVec + [x];
      case ReadWrite(original, _) =>
        block.LockWrite();
        writeVec := writeVec + [x];
        ok := PtrEq(block.value, original);
      case ReadObsolete(_) =>
      case Read(original) =>
        block.LockRead();
        readVec := readVec + [x];
        ok := PtrEq(block.value, original);
    }

    method Release(mem: Memory, readVec: seq<Var>, writeVec: seq<Var>)
      requires Separate(mem) && vars.Keys <= mem.Keys && LocksAre(mem, readVec, writeVec)
      requires Distinct(readVec) && Distinct(writeVec)
      requires (forall x :: x in readVec ==> x in vars) && forall x :: x in writeVec ==> x in vars
      modifies mem.Values`readers, mem.Values`writer
      ensures LocksAre(mem, [], [])
    {
      hide LocksAre, Distinct, Separate;
      DropReads(mem, readVec, writeVec);
      DropWrites(mem, writeVec);
    }

    method DropReads(mem: Memory, readVec: seq<Var>, ghost writeVec: seq<Var>)
      requires Separate(mem) && vars.Keys <= mem.Keys && LocksAre(mem, readVec, writeVec)
      requires Distinct(readVec) && forall x :: x in readVec ==> x in vars
      modifies mem.Values`readers
      ensures LocksAre(mem, [], writeVec)
    {
      for i := 0 to |readVec|
        invariant LocksAre(mem, readVec[i..], writeVec)
      {
        mem[readVec[i]].UnlockRead();
      }
    }

    method DropWrites(mem: Memory, writeVec: seq<Var>)
      requires Separate(mem) && vars.Keys <= mem.Keys && LocksAre(mem, [], writeVec)
      requires Distinct(writeVec) && forall x :: x in writeVec ==> x in vars
      modifies mem.Values`writer
      ensures LocksAre(mem, [], [])
    {
      for i := 0 to |writeVec|
        invariant LocksAre(mem, [], writeVec[i..])
      {
        mem[writeVec[i]].UnlockWrite();
      }
    }

    /** Second phase: one variable after the other is overwritten and unlocked. */
    method WriteBack(mem: Memory, writeVec: seq<Var>, ghost w: Snapshot, ghost target: set<Var>)
      requires Separate(mem) && vars.Keys <= mem.Keys && LocksAre(mem, [], writeVec)
      requires Distinct(writeVec) && target == Writes(vars).Keys && forall x :: x in writeVec <==> x in target
      requires Stored(vars, mem, {}, w)
      modifies mem.Values`writer, mem.Values`value
      ensures LocksAre(mem, [], []) && Stored(vars, mem, target, w)
    {
      hide LocksAre, Stored, Separate, Firsts;
      assert writeVec[0..] == writeVec;
      assert Firsts(writeVec, 0) == {} by { FirstsNone(writeVec); }
      for i := 0 to |writeVec|
        invariant LocksAre(mem, [], writeVec[i..]) && Stored(vars, mem, Firsts(writeVec, i), w)
      {
        var x := writeVec[i];
        assert x in writeVec && x in vars;
        assert writeVec[i..] == [x] + writeVec[i + 1..];
        FirstsOne(writeVec, i);
        WriteOne(mem, x, mem[x], vars[x].Pending().value, writeVec[i + 1..], Firsts(writeVec, i), w);
      }
      FirstsAll(writeVec, target);
      assert writeVec[|writeVec|..] == [];
    }

    method WriteOne(ghost mem: Memory, ghost x: Var, block: VarControlBlock, boxed: Arc, ghost rest: seq<Var>,
                    ghost done: set<Var>, ghost w: Snapshot)
      requires Separate(mem) && x in mem && mem[x] == block && LocksAre(mem, [], [x] + rest) && x !in rest
      requires Pending(vars, x) == Some(boxed) && Stored(vars, mem, done, w)
      modifies block`writer, block`value
      ensures LocksAre(mem, [], rest) && Stored(vars, mem, done + {x}, w)
    {
      block.value := boxed;
      block.UnlockWrite();
    }

    /** The waiter list of every written variable is taken, once, and the blocks on it are informed. */
    method WakeAll(mem: Memory, written: seq<Var>, ghost w: Snapshot,
                   ghost target: set<Var>)
      requires Separate(mem) && vars.Keys <= mem.Keys
      requires mem.Keys <= w.lists.Keys && w.counts.Keys == w.lists.Keys
      requires Distinct(written) && target <= vars.Keys && forall x :: x in written <==> x in target
      requires Covered(w) && ListsTaken(mem, {}, w) && Informed(w, {})
      modifies mem.Values`waiting, mem.Values`taken, w.all`blocked, w.threads`token
      ensures ListsTaken(mem, target, w) && Informed(w, InformedBy(w, target))
    {
      ghost var done: set<Var> := {};
      assert InformedBy(w, {}) == {};
      hide InformedBy, Informed, OnList, ListsTaken, Separate, Covered, Distinct;
      var i := 0;
      while i < |written|
        invariant i <= |written| && done == Firsts(written, i)
        invariant ListsTaken(mem, done, w) && Informed(w, InformedBy(w, done))
      {
        var x := written[i];
        FirstsOne(written, i);
        InformedByOne(w, done, x);
        WakeOne(mem, x, mem[x], w, done, InformedBy(w, done));
        done := done + {x};
        i := i + 1;
      }
      FirstsAll(written, target);
    }

    method WakeOne(ghost mem: Memory, ghost x: Var, block: VarControlBlock, ghost w: Snapshot,
                   ghost done: set<Var>, ghost informed: set<ControlBlock>)
      requires Separate(mem) && vars.Keys <= mem.Keys && x in vars && mem[x] == block
      requires mem.Keys <= w.lists.Keys && w.counts.Keys == w.lists.Keys
      requires x !in done && ListsTaken(mem, done, w)
      requires Informed(w, informed) && Covered(w)
      modifies block`waiting, block`taken, w.all`blocked, w.threads`token
      ensures ListsTaken(mem, done + {x}, w)
      ensures Informed(w, informed + OnList(w, x))
    {
      hide ListsTaken, Separate;
      WakeList(mem, x, block, w, done, informed);
    }

    method WakeList(ghost mem: Memory, ghost x: Var, block: VarControlBlock, ghost w: Snapshot,
                    ghost done: set<Var>, ghost informed: set<ControlBlock>)
      requires Separate(mem) && vars.Keys <= mem.Keys && x in vars && mem[x] == block
      requires mem.Keys <= w.lists.Keys && w.counts.Keys == w.lists.Keys
      requires x !in done && ListsTaken(mem, done, w)
      requires Informed(w, informed) && Covered(w)
      modifies block`waiting, block`taken, w.all`blocked, w.threads`token
      ensures ListsTaken(mem, done + {x}, w)
      ensures forall b :: b in w.all ==> b.blocked == (old(b.blocked) && b !in OnList(w, x))
      ensures forall h :: h in w.threads ==>
                (h.token <==> old(h.token)
                              || exists b :: b in OnList(w, x) && b in w.all && old(b.blocked) && b.thread == h)
    {
      block.WakeAll();
    }

    /** The read locks are dropped, then the pending boxes are stored. */
    method ReleaseAndStore(mem: Memory, readVec: seq<Var>, writeVec: seq<Var>, ghost w: Snapshot,
                           ghost target: set<Var>)
      requires Separate(mem) && vars.Keys <= mem.Keys && LocksAre(mem, readVec, writeVec)
      requires Stored(vars, mem, {}, w)
      requires Distinct(readVec) && Distinct(writeVec) && forall x :: x in readVec ==> x in vars
      requires target == Writes(vars).Keys && forall x :: x in writeVec <==> x in target
      modifies mem.Values`readers, mem.Values`writer, mem.Values`value
      ensures LocksAre(mem, [], []) && Stored(vars, mem, target, w)
    {
      hide Stored, LocksAre, Distinct, Separate, Writes;
      DropReads(mem, readVec, writeVec);
      WriteBack(mem, writeVec, w, target);
    }

    /** All or nothing: without interference `commit` succeeds exactly if every validated variable
        still holds what was observed, and then the variables with a pending box hold it and their
        waiters are informed; otherwise nothing has changed.  No lock stays behind. */
    method Commit(mem: Memory, ghost w: Snapshot) returns (ok: bool)
      requires Separate(mem) && vars.Keys <= mem.Keys && LocksAre(mem, [], []) && w == SnapshotOf(mem)
      modifies mem.Values, w.all`blocked, w.threads`token
      ensures LocksAre(mem, [], [])
      ensures ok <==> old(Fresh(vars, mem))
      ensures var written := if ok then Writes(vars).Keys else {};
              && Stored(vars, mem, written, w)
              && ListsTaken(mem, written, w)
              && Informed(w, InformedBy(w, written))
    {
      SnapshotFacts(vars, mem);
      hide Fresh, Informed, InformedBy, Covered, Walked, LocksAre, Separate, Stored, ListsTaken, SnapshotOf,
           Distinct, Writes;
      var readVec, writeVec;
      ok, readVec, writeVec := Acquire(mem);
      if ok {
        Publish(mem, readVec, writeVec, w);
      }
    }

    /** The second phase and the wake-up, for a commit that holds its locks. */
    method Publish(mem: Memory, readVec: seq<Var>, writeVec: seq<Var>, ghost w: Snapshot)
      requires Separate(mem) && vars.Keys <= mem.Keys && LocksAre(mem, readVec, writeVec)
      requires Walked(vars, vars.Keys, readVec, writeVec)
      requires mem.Keys <= w.lists.Keys && w.counts.Keys == w.lists.Keys && Covered(w)
      requires Stored(vars, mem, {}, w) && ListsTaken(mem, {}, w) && Informed(w, {})
      modifies mem.Values`readers, mem.Values`writer, mem.Values`value, mem.Values`waiting, mem.Values`taken
      modifies w.all`blocked, w.threads`token
      ensures LocksAre(mem, [], []) && Stored(vars, mem, Writes(vars).Keys, w)
      ensures ListsTaken(mem, Writes(vars).Keys, w) && Informed(w, InformedBy(w, Writes(vars).Keys))
    {
      hide *;
      ghost var target := Writes(vars).Keys;
      WalkedAll(vars, readVec, writeVec);
      ReleaseAndStore(mem, readVec, writeVec, w, target);
      WakeAll(mem, writeVec, w, target);
    }

    /** A whole attempt that nobody interferes with: running the body and committing returns what the
        left-biased atomic run returns and leaves the store that it leaves.  Exactly the variables that hold a
        new box then have had their lists taken and their waiters informed; a body that retries or fails
        leaves every variable, list and block alone, and one that retries leaves the log to wait on. */
    method Atomically(p: Prog, depth: nat, mem: Memory, ghost w: Snapshot, ghost rest: Store) returns (stop: Stop)
      requires Separate(mem) && LocksAre(mem, [], []) && w == SnapshotOf(mem)
      requires vars == map[] && boxes == 0 && Within(p, depth, mem.Keys) && TagUnused(w, tag)
      modifies this`vars, this`boxes, mem.Values, w.all`blocked, w.threads`token
      ensures LocksAre(mem, [], [])
      ensures AsDirect(p, depth, old(StoreNow(mem, rest)), StoreNow(mem, rest), stop)
      ensures Delivered(mem, w)
      ensures stop == Ended(Retried) ==> LeftBy(p, depth, tag, old(StoreNow(mem, rest)), vars)
    {
      ghost var s := StoreNow(mem, rest);
      ShowsNow(mem, rest);
      hide *;
      stop := PerformAlone(p, depth, mem, w, s);
      if stop.Ended? && stop.ending.Returned? {
        Conclude(p, depth, mem, w, s, rest, stop);
      } else {
        Abandon(p, depth, mem, w, s, stop);
      }
    }

    /** The commit after a body that has returned. */
    method Conclude(ghost p: Prog, ghost depth: nat, mem: Memory, ghost w: Snapshot, ghost s: Store,
                    ghost rest: Store, ghost stop: Stop)
      requires Separate(mem) && vars.Keys <= mem.Keys && LocksAre(mem, [], []) && w == SnapshotOf(mem)
      requires s == StoreNow(mem, rest) && TagUnused(w, tag) && Tagged(vars, tag)
      requires Meant(p, depth, s, stop, vars) && stop.Ended? && stop.ending.Returned?
      modifies mem.Values, w.all`blocked, w.threads`token
      ensures LocksAre(mem, [], []) && AsDirect(p, depth, s, StoreNow(mem, rest), stop) && Delivered(mem, w)
    {
      hide *;
      MeantReturns(p, depth, s, stop, vars);
      CommitAlone(mem, w, s, rest);
    }

    /** After any other stop nothing has changed; a failed body's log is cleared. */
    method Abandon(ghost p: Prog, ghost depth: nat, ghost mem: Memory, ghost w: Snapshot, ghost s: Store,
                   stop: Stop)
      requires w == SnapshotOf(mem) && Meant(p, depth, s, stop, vars) && !(stop.Ended? && stop.ending.Returned?)
      modifies this`vars
      ensures AsDirect(p, depth, s, s, stop) && Delivered(mem, w)
      ensures stop != Ended(Failed) ==> vars == old(vars)
    {
      hide *;
      MeantKeeps(p, depth, s, stop, vars);
      NothingChanged(mem);
      if stop == Ended(Failed) {
        Clear();
      }
    }

    method PerformAlone(p: Prog, depth: nat, mem: Memory, ghost w: Snapshot, ghost s: Store) returns (stop: Stop)
      requires LocksAre(mem, [], []) && w == SnapshotOf(mem) && Shows(mem, s)
      requires vars == map[] && boxes == 0 && Within(p, depth, mem.Keys)
      modifies this`vars, this`boxes, mem.Values`readers
      ensures LocksAre(mem, [], []) && w == SnapshotOf(mem) && vars.Keys <= mem.Keys
      ensures Meant(p, depth, s, stop, vars)
      ensures stop.Ended? ==> LeftBy(p, depth, tag, s, vars) && Tagged(vars, tag)
    {
      hide LocksAre, Shows, Within, Meant, Tagged, LeftBy;
      stop := PerformFresh(p, depth, mem, s);
    }

    method PerformFresh(p: Prog, depth: nat, mem: Memory, ghost s: Store) returns (stop: Stop)
      requires LocksAre(mem, [], []) && Shows(mem, s)
      requires vars == map[] && boxes == 0 && Within(p, depth, mem.Keys)
      modifies this`vars, this`boxes, mem.Values`readers
      ensures LocksAre(mem, [], []) && vars.Keys <= mem.Keys
      ensures Meant(p, depth, s, stop, vars)
      ensures stop.Ended? ==> LeftBy(p, depth, tag, s, vars) && Tagged(vars, tag)
    {
      assert Tx(vars, boxes, 0) == EMPTY;
      hide Exec, LocksAre, Shows, Within, Stopped, Meant, Tagged, LeftBy;
      ghost var j;
      stop, j := Perform(p, depth, mem, s, 0);
      StoppedMeant(p, depth, tag, s, stop, vars, boxes, j);
      if stop.Ended? { StoppedLeft(p, depth, tag, s, stop, vars, boxes, j); }
    }

    method CommitAlone(mem: Memory, ghost w: Snapshot, ghost s: Store, ghost rest: Store)
      requires Separate(mem) && vars.Keys <= mem.Keys && LocksAre(mem, [], []) && w == SnapshotOf(mem)
      requires s == StoreNow(mem, rest) && Valid(vars, s) && TagUnused(w, tag) && Tagged(vars, tag)
      modifies mem.Values, w.all`blocked, w.threads`token
      ensures LocksAre(mem, [], []) && StoreNow(mem, rest) == Overwrite(s, Writes(vars)) && Delivered(mem, w)
    {
      ShowsNow(mem, rest);
      ValidIsFresh(vars, mem, s);
      SnapshotValues(mem, rest);
      hide *;
      var ok := Commit(mem, w);
      StoredIsOverwrite(vars, mem, w, s, rest);
      WrittenIsChanged(vars, mem, w, tag);
      StoredDelivered(vars, mem, w);
    }

    // Waiting

    /** The first half of `wait_for_change`: the block is enlisted with every observed variable in
        address order, up to and including the first one that no longer holds what was observed.  The
        thread goes on to block exactly if there is none. */
    method RegisterAndCheck(mem: Memory, ctrl: ControlBlock) returns (blocking: bool, enlisted: seq<Var>)
      requires Separate(mem) && vars.Keys <= mem.Keys && LocksAre(mem, [], [])
      modifies this`vars, mem.Values`waiting, mem.Values`readers
      ensures vars == map[] && LocksAre(mem, [], [])
      ensures StoppedAt(old(vars), mem, enlisted, blocking)
      ensures Enlisted(mem, old(SnapshotOf(mem).lists), ctrl, enlisted)
    {
      ghost var lists := SnapshotOf(mem).lists;
      NoneEnlisted(vars, mem, ctrl);
      var log := vars;
      vars := map[];
      hide SnapshotOf, Enlisted, StoppedAt, LocksAre, Separate, StillHold;
      blocking, enlisted := RegisterAll(mem, log, ctrl, lists);
    }

    method RegisterAll(mem: Memory, log: Log, ctrl: ControlBlock, ghost lists: map<Var, seq<ControlBlock>>)
      returns (blocking: bool, enlisted: seq<Var>)
      requires Separate(mem) && log.Keys <= mem.Keys && LocksAre(mem, [], [])
      requires Enlisted(mem, lists, ctrl, []) && StillHold(log, mem, [])
      modifies mem.Values`waiting, mem.Values`readers
      ensures LocksAre(mem, [], []) && StoppedAt(log, mem, enlisted, blocking)
      ensures Enlisted(mem, lists, ctrl, enlisted)
    {
      blocking, enlisted := true, [];
      var order := InOrder(log.Keys);
      assert ObservedIn(log, order[..0]) == [];
      hide InOrder, Separate, Enlisted, StillHold, LocksAre, ObservedIn, StoppedAt;
      for i := 0 to |order|
        invariant blocking && LocksAre(mem, [], []) && Enlisted(mem, lists, ctrl, enlisted)
        invariant enlisted == ObservedIn(log, order[..i]) && StillHold(log, mem, enlisted)
      {
        blocking, enlisted := RegisterNext(mem, log, order, i, ctrl, lists, enlisted);
        if !blocking {
          return;
        }
      }
      assert order[..|order|] == order;
      StoppedAtEnd(log, mem);
    }

    method RegisterNext(mem: Memory, log: Log, order: seq<Var>, i: nat, ctrl: ControlBlock,
                        ghost lists: map<Var, seq<ControlBlock>>, before: seq<Var>)
      returns (blocking: bool, enlisted: seq<Var>)
      requires Separate(mem) && log.Keys <= mem.Keys && order == InOrder(log.Keys) && i < |order|
      requires before == ObservedIn(log, order[..i]) && StillHold(log, mem, before)
      requires LocksAre(mem, [], []) && Enlisted(mem, lists, ctrl, before)
      modifies mem.Values`waiting, mem.Values`readers
      ensures LocksAre(mem, [], []) && Enlisted(mem, lists, ctrl, enlisted)
      ensures enlisted == ObservedIn(log, order[..i + 1])
      ensures if blocking then StillHold(log, mem, enlisted) else StoppedAt(log, mem, enlisted, false)
    {
      hide InOrder, Separate, Enlisted, StillHold, LocksAre, ObservedIn, StoppedAt;
      blocking, enlisted := true, before;
      var x := order[i];
      ObservedInOne(log, order, i);
      match log[x].ReadValue()
      case Some(value) =>
        blocking := RegisterOne(mem, x, mem[x], ctrl, value, lists, enlisted);
        StillHoldOne(log, mem, enlisted, x, blocking);
        enlisted := enlisted + [x];
      case None =>
    }

    method RegisterOne(ghost mem: Memory, ghost x: Var, block: VarControlBlock, ctrl: ControlBlock, value: Arc,
                       ghost lists: map<Var, seq<ControlBlock>>, ghost enlisted: seq<Var>)
      returns (same: bool)
      requires Separate(mem) && x in mem && mem[x] == block && LocksAre(mem, [], [])
      requires x !in enlisted && Enlisted(mem, lists, ctrl, enlisted)
      modifies block`waiting, block`readers
      ensures LocksAre(mem, [], []) && same == PtrEq(value, block.value)
      ensures Enlisted(mem, lists, ctrl, enlisted + [x])
    {
      block.Enlist(ctrl);
      same := CheckOne(block, ctrl, value);
    }

    /** The block is on the list before the variable is looked at, so that no later change is missed. */
    method CheckOne(block: VarControlBlock, ghost ctrl: ControlBlock, value: Arc) returns (same: bool)
      requires !block.writer && ctrl in block.waiting
      modifies block`readers
      ensures same == PtrEq(value, block.value) && block.readers == old(block.readers)
    {
      block.LockRead();
      same := PtrEq(value, block.value);
      block.UnlockRead();
    }

    /** The second half: the block is reported dead to every variable it was enlisted with. */
    method Bury(mem: Memory, enlisted: seq<Var>)
      requires Separate(mem) && Distinct(enlisted) && forall x :: x in enlisted ==> x in mem
      modifies mem.Values`waiting, mem.Values`dead
      ensures Buried(mem, old(SnapshotOf(mem)), enlisted)
    {
      ghost var w := SnapshotOf(mem);
      SnapshotFacts(vars, mem);
      hide Buried, Covered, Separate;
      for i := 0 to |enlisted|
        invariant Buried(mem, w, enlisted[..i])
      {
        var x := enlisted[i];
        assert enlisted[..i + 1] == enlisted[..i] + [x] && x !in enlisted[..i];
        BuryOne(mem, x, mem[x], w, enlisted[..i]);
      }
      assert enlisted[..|enlisted|] == enlisted;
    }

    method BuryOne(ghost mem: Memory, ghost x: Var, block: VarControlBlock, ghost w: Snapshot,
                   ghost enlisted: seq<Var>)
      requires Separate(mem) && x in mem && mem[x] == block && x !in enlisted
      requires Covered(w) && Buried(mem, w, enlisted) && x in w.lists && x in w.deads
      modifies block`waiting, block`dead
      ensures Buried(mem, w, enlisted + [x])
    {
      block.SetDead();
    }
  }

  /** The stop, the log, the allocations and the loads made are those of the outcome. */
  ghost predicate Stopped(r: Outcome, stop: Stop, log: Log, n: nat, j: nat) {
    match r
    case Done(ending, tx, _, _) => stop == Ended(ending) && tx == Tx(log, n, j)
    case NeedLoad(x, tx) => stop == Needs(x) && tx == Tx(log, n, j)
    case OffTrack => stop == Lost
    case OutOfDepth => stop == Deep
  }
}
