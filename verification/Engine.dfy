/** The transaction log at work: running a body against its log.

    `Exec` is what one attempt does between the moments at which other threads can interfere.  The
    only such moments are the loads of variables that the log does not hold yet, so a suspended
    attempt is determined by its program and the loads it has made, in order. */
module Engine {
  import opened Boxes
  import opened LogVars
  import opened Programs

  /** A load made by an attempt: the variable, the box it returned, and a time stamp that the
      interpreter ignores. */
  datatype Load = Load(x: Var, arc: Arc, at: nat)

  /** Where loads are served from: a store that nobody else changes, or a recorded sequence. */
  datatype Source = Live(store: Store) | Recorded(loads: seq<Load>)

  datatype Fetched = Got(arc: Arc) | Missing | Mismatch

  function Fetch(src: Source, x: Var, i: nat): Fetched {
    match src
    case Live(s) => Got(s[x])
    case Recorded(ls) =>
      if i >= |ls| then Missing else if ls[i].x == x then Got(ls[i].arc) else Mismatch
  }

  /** The transaction: its log, the number of boxes it has allocated and of loads it has made. */
  datatype Tx = Tx(log: Log, n: nat, i: nat)

  datatype Outcome =
    | NeedLoad(x: Var, tx: Tx)  // about to load x
    | OffTrack             // the recorded loads are not this body's
    | OutOfDepth
    | Done(ending: Ending, tx: Tx, path: Path, agreed: bool)
    // `path` names the surviving branches of a body that returned;
    // `agreed` says whether agreement held at every merge

  /** A first access by a read. */
  function LogLoad(log: Log, x: Var, a: Arc): Log {
    log[x := LogVar.Read(a)]
  }

  function LogRead(log: Log, x: Var): Log
    requires x in log
  {
    log[x := log[x].AfterRead()]
  }

  function LogWrite(log: Log, x: Var, b: Arc): Log {
    log[x := if x in log then log[x].AfterWrite(b) else LogVar.Write(b)]
  }

  function Loaded(tx: Tx, x: Var, a: Arc): Tx {
    Tx(LogLoad(tx.log, x, a), tx.n, tx.i + 1)
  }

  function Reread(tx: Tx, x: Var): Tx
    requires x in tx.log
  {
    tx.(log := LogRead(tx.log, x))
  }

  function NewBox(tag: nat, tx: Tx, v: Val): Arc {
    Arc(Box(tag, tx.n), v)
  }

  function Written(tag: nat, tx: Tx, x: Var, v: Val): Tx {
    Tx(LogWrite(tx.log, x, NewBox(tag, tx, v)), tx.n + 1, tx.i)
  }

  /** The second branch starts from the log as it was; allocations and loads are not undone. */
  function Restored(before: Tx, after: Tx): Tx {
    Tx(before.log, after.n, after.i)
  }

  function Merged(second: Tx, first: Tx): Tx {
    second.(log := Combine(second.log, first.log))
  }

  ghost function Exec(p: Prog, depth: nat, tag: nat, src: Source, tx: Tx): Outcome
    decreases depth, 1
  {
    if depth == 0 then OutOfDepth else
      match p
      case Return(v) => Done(Returned(v), tx, End, true)
      case Retry => Done(Retried, tx, End, true)
      case Fail => Done(Failed, tx, End, true)
      case Read(x, k) =>
        if x in tx.log then
          Exec(k(tx.log[x].Value().val), depth - 1, tag, src, Reread(tx, x))
        else (
          match Fetch(src, x, tx.i)
          case Got(a) => Exec(k(a.val), depth - 1, tag, src, Loaded(tx, x, a))
          case Missing => NeedLoad(x, tx)
          case Mismatch => OffTrack)
      case Write(x, v, next) => Exec(next, depth - 1, tag, src, Written(tag, tx, x, v))
      case Or(first, second, k) =>
        var r := Exec(first, depth - 1, tag, src, tx);
        if r.Done? && r.ending.Retried? then
          ExecSecond(second, k, depth, tag, src, tx, r)
        else if r.Done? && r.ending.Returned? then
          Continue(k(r.ending.v), depth, tag, src, r.tx, true, r.path, r.agreed)
        else r
  }

  /** The second branch of an `or` whose first branch ended in `r1`. */
  ghost function ExecSecond(second: Prog, k: Val -> Prog, depth: nat, tag: nat, src: Source, tx: Tx,
                            r1: Outcome): Outcome
    requires depth > 0 && r1.Done?
    decreases depth, 0, 1
  {
    var r := Exec(second, depth - 1, tag, src, Restored(tx, r1.tx));
    if !r.Done? || r.ending.Failed? then r else
      var tx2 := Merged(r.tx, r1.tx);
      var agreed := r1.agreed && r.agreed && Agreement(r.tx.log, r1.tx.log);
      if r.ending.Retried? then Done(Retried, tx2, End, agreed)
      else Continue(k(r.ending.v), depth, tag, src, tx2, false, r.path, agreed)
  }

  /** What follows an `or` that returned. */
  ghost function Continue(p: Prog, depth: nat, tag: nat, src: Source, tx: Tx,
                          first: bool, branch: Path, agreed: bool): Outcome
    requires depth > 0
    decreases depth, 0, 0
  {
    var r := Exec(p, depth - 1, tag, src, tx);
    if r.Done? then Done(r.ending, r.tx, Took(first, branch, r.path), agreed && r.agreed) else r
  }

  /** The store as this transaction sees it: its pending writes over `s`. */
  ghost function Effect(log: Log, s: Store): Vals {
    imap x: Var :: if Pending(log, x).Some? then Pending(log, x).value.val else s[x].val
  }

  /** Everything commit would compare holds in `s`. */
  ghost predicate Valid(log: Log, s: Store) {
    forall x | x in log :: Validated(log, x).Some? ==> s[x] == Validated(log, x).value
  }

  /** What a read does to its entry. */
  lemma ReadPointwise(log: Log, x: Var)
    requires x in log
    ensures forall y :: Pending(LogRead(log, x), y) == Pending(log, y)
    ensures forall y :: Observed(LogRead(log, x), y) == Observed(log, y)
    ensures forall y :: Validated(LogRead(log, x), y) == if y == x then Observed(log, x) else Validated(log, y)
  {}

  lemma ReadKeeps(log: Log, x: Var, s: Store)
    requires x in log && Valid(LogRead(log, x), s)
    ensures Valid(log, s)
    ensures Effect(LogRead(log, x), s) == Effect(log, s)
    ensures log[x].Value().val == Effect(log, s)[x]
  {
    ReadPointwise(log, x);
    assert log[x].Value() == if Pending(log, x).Some? then Pending(log, x).value else Observed(log, x).value;
    assert Validated(log, x).Some? ==> Validated(log, x) == Observed(log, x);
    assert LogRead(log, x).Keys == log.Keys;
    hide LogRead, Pending, Observed, Validated;
  }

  lemma LoadKeeps(log: Log, x: Var, a: Arc, s: Store)
    requires x !in log && Valid(LogLoad(log, x, a), s)
    ensures Valid(log, s)
    ensures Effect(LogLoad(log, x, a), s) == Effect(log, s)
    ensures a.val == Effect(log, s)[x]
  {}

  lemma WritePointwise(log: Log, x: Var, b: Arc)
    ensures forall y :: Pending(LogWrite(log, x, b), y) == if y == x then Some(b) else Pending(log, y)
    ensures forall y :: Validated(LogWrite(log, x, b), y) == Validated(log, y)
    ensures forall y :: Observed(LogWrite(log, x, b), y) == Observed(log, y)
  {}

  lemma WriteKeeps(log: Log, x: Var, b: Arc, s: Store)
    requires Valid(LogWrite(log, x, b), s)
    ensures Valid(log, s)
    ensures Effect(LogWrite(log, x, b), s) == Effect(log, s)[x := b.val]
  {
    var log1 := LogWrite(log, x, b);
    WritePointwise(log, x, b);
    forall y | y in log && Validated(log, y).Some? ensures s[y] == Validated(log, y).value {
      assert y in log1;
    }
  }

  lemma MergeKeeps(second: Log, first: Log, s: Store)
    ensures Valid(Combine(second, first), s) ==> Valid(second, s)
    ensures Effect(Combine(second, first), s) == Effect(second, s)
  {
    CombineKeepsCommit(second, first);
    if Valid(Combine(second, first), s) {
      forall y | y in second && Validated(second, y).Some? ensures s[y] == Validated(second, y).value {
        assert y in Combine(second, first);
      }
    }
  }

  /** Replay: if everything that the final log validates holds in some store, then the transaction
      is, on that store, the atomic run of its surviving branches, whatever store or stores its
      loads were served from. */
  lemma {:induction false} Replay(p: Prog, depth: nat, tag: nat, src: Source, tx: Tx, s: Store)
    requires var r := Exec(p, depth, tag, src, tx);
             r.Done? && r.ending.Returned? && Valid(r.tx.log, s)
    ensures var r := Exec(p, depth, tag, src, tx);
            && Valid(tx.log, s)
            && Along(p, depth, Effect(tx.log, s), r.path)
               == Committed(r.ending.v, Effect(r.tx.log, s))
    decreases depth, 1
  {
    match p
    case Return(_) =>
    case Read(x, k) =>
      if x in tx.log {
        Replay(k(tx.log[x].Value().val), depth - 1, tag, src, Reread(tx, x), s);
        ReadKeeps(tx.log, x, s);
      } else {
        var a := Fetch(src, x, tx.i).arc;
        Replay(k(a.val), depth - 1, tag, src, Loaded(tx, x, a), s);
        LoadKeeps(tx.log, x, a, s);
      }
    case Write(x, v, next) =>
      Replay(next, depth - 1, tag, src, Written(tag, tx, x, v), s);
      WriteKeeps(tx.log, x, NewBox(tag, tx, v), s);
    case Or(_, _, _) => ReplayOr(p, depth, tag, src, tx, s);
  }

  lemma {:induction false} ReplayOr(p: Prog, depth: nat, tag: nat, src: Source, tx: Tx, s: Store)
    requires p.Or?
    requires var r := Exec(p, depth, tag, src, tx);
             r.Done? && r.ending.Returned? && Valid(r.tx.log, s)
    ensures var r := Exec(p, depth, tag, src, tx);
            && Valid(tx.log, s)
            && Along(p, depth, Effect(tx.log, s), r.path)
               == Committed(r.ending.v, Effect(r.tx.log, s))
    decreases depth, 0
  {
    if Exec(p.first, depth - 1, tag, src, tx).ending.Returned? {
      ReplayFirst(p, depth, tag, src, tx, s);
    } else {
      ReplaySecond(p, depth, tag, src, tx, s);
    }
  }

  lemma {:induction false} ReplayFirst(p: Prog, depth: nat, tag: nat, src: Source, tx: Tx, s: Store)
    requires p.Or? && depth > 0
    requires var r1 := Exec(p.first, depth - 1, tag, src, tx);
             && r1.Done? && r1.ending.Returned?
             && var r := Continue(p.k(r1.ending.v), depth, tag, src, r1.tx, true, r1.path, r1.agreed);
                r.Done? && r.ending.Returned? && Valid(r.tx.log, s)
    ensures var r1 := Exec(p.first, depth - 1, tag, src, tx);
            var r := Continue(p.k(r1.ending.v), depth, tag, src, r1.tx, true, r1.path, r1.agreed);
            && Valid(tx.log, s)
            && Along(p, depth, Effect(tx.log, s), r.path)
               == Committed(r.ending.v, Effect(r.tx.log, s))
    decreases depth - 1, 3
  {
    hide Exec, Valid, Effect;
    var r1 := Exec(p.first, depth - 1, tag, src, tx);
    ReplayRest(p.k(r1.ending.v), depth, tag, src, r1.tx, s, true, r1.path, r1.agreed);
    Replay(p.first, depth - 1, tag, src, tx, s);
  }

  lemma {:induction false} ReplaySecond(p: Prog, depth: nat, tag: nat, src: Source, tx: Tx, s: Store)
    requires p.Or? && depth > 0
    requires var r1 := Exec(p.first, depth - 1, tag, src, tx);
             && r1.Done? && r1.ending.Retried?
             && var r := ExecSecond(p.second, p.k, depth, tag, src, tx, r1);
                r.Done? && r.ending.Returned? && Valid(r.tx.log, s)
    ensures var r1 := Exec(p.first, depth - 1, tag, src, tx);
            var r := ExecSecond(p.second, p.k, depth, tag, src, tx, r1);
            && Valid(tx.log, s)
            && Along(p, depth, Effect(tx.log, s), r.path)
               == Committed(r.ending.v, Effect(r.tx.log, s))
    decreases depth - 1, 3
  {
    hide Exec, Valid, Effect;
    var r1 := Exec(p.first, depth - 1, tag, src, tx);
    var before := Restored(tx, r1.tx);
    var r2 := Exec(p.second, depth - 1, tag, src, before);
    ReplayRest(p.k(r2.ending.v), depth, tag, src, Merged(r2.tx, r1.tx), s, false, r2.path,
               r1.agreed && r2.agreed && Agreement(r2.tx.log, r1.tx.log));
    MergeKeeps(r2.tx.log, r1.tx.log, s);
    Replay(p.second, depth - 1, tag, src, before, s);
  }

  lemma {:induction false} ReplayRest(p: Prog, depth: nat, tag: nat, src: Source, tx: Tx, s: Store,
                                      first: bool, branch: Path, agreed: bool)
    requires depth > 0
    requires var r := Continue(p, depth, tag, src, tx, first, branch, agreed);
             r.Done? && r.ending.Returned? && Valid(r.tx.log, s)
    ensures Valid(tx.log, s)
    ensures var r := Continue(p, depth, tag, src, tx, first, branch, agreed);
            && r.path.Took? && r.path.first == first && r.path.branch == branch
            && Along(p, depth - 1, Effect(tx.log, s), r.path.rest)
               == Committed(r.ending.v, Effect(r.tx.log, s))
    decreases depth - 1, 2
  {
    Replay(p, depth - 1, tag, src, tx, s);
  }
}
