/** What a transaction's log remembers of its loads, its reads and its writes. */
module Observations {
  import opened Boxes
  import opened LogVars
  import opened Programs
  import opened Engine

  /** The box was loaded, for `x`, by one of the loads numbered from `i` to `j`. */
  ghost predicate LoadedBetween(src: Source, i: nat, j: nat, x: Var, a: Arc) {
    match src
    case Live(s) => s[x] == a
    case Recorded(ls) => exists m :: i <= m < j && m < |ls| && ls[m].x == x && ls[m].arc == a
  }

  /** The pending boxes were allocated by this attempt before its n-th allocation, one variable
      each. */
  ghost predicate FreshBoxes(log: Log, tag: nat, n: nat) {
    && (forall x :: Pending(log, x).Some? ==>
          var id := Pending(log, x).value.id; id.Box? && id.tag == tag && id.n < n)
    && (forall x, y :: x != y && Pending(log, x).Some? && Pending(log, y).Some? ==>
          Pending(log, x).value.id != Pending(log, y).value.id)
  }

  /** How a transaction may develop: it forgets no variable, no observation and no check, it observes
      nothing more of a variable that it has logged, every observation is one of its own loads, and its
      pending boxes stay distinct. */
  ghost predicate Grows(src: Source, tag: nat, a: Tx, b: Tx) {
    && a.n <= b.n && a.i <= b.i
    && (src.Recorded? ==> b.i == a.i || b.i <= |src.loads|)
    && (forall x :: x in a.log ==> x in b.log && Observed(b.log, x) == Observed(a.log, x))
    && (forall x :: Observed(a.log, x).Some? ==> Observed(b.log, x) == Observed(a.log, x))
    && (forall x :: Validated(a.log, x).Some? ==> Validated(b.log, x) == Validated(a.log, x))
    && (forall x :: Observed(b.log, x).Some? ==>
          || Observed(b.log, x) == Observed(a.log, x)
          || LoadedBetween(src, a.i, b.i, x, Observed(b.log, x).value))
    && (FreshBoxes(a.log, tag, a.n) ==> FreshBoxes(b.log, tag, b.n))
  }

  lemma GrowsTrans(src: Source, tag: nat, a: Tx, b: Tx, c: Tx)
    requires Grows(src, tag, a, b) && Grows(src, tag, b, c)
    ensures Grows(src, tag, a, c)
  {
    hide FreshBoxes, Observed, Validated;
  }

  lemma RereadGrows(src: Source, tag: nat, tx: Tx, x: Var)
    requires x in tx.log
    ensures Grows(src, tag, tx, Reread(tx, x))
  {
    var b := Reread(tx, x);
    forall y ensures Pending(b.log, y) == Pending(tx.log, y) && Observed(b.log, y) == Observed(tx.log, y) {}
  }

  lemma LoadedGrows(src: Source, tag: nat, tx: Tx, x: Var, a: Arc)
    requires x !in tx.log && Fetch(src, x, tx.i) == Got(a)
    ensures Grows(src, tag, tx, Loaded(tx, x, a))
  {
    var b := Loaded(tx, x, a);
    forall y ensures Pending(b.log, y) == Pending(tx.log, y) {}
  }

  lemma WrittenGrows(src: Source, tag: nat, tx: Tx, x: Var, v: Val)
    ensures Grows(src, tag, tx, Written(tag, tx, x, v))
  {
    WritePointwise(tx.log, x, NewBox(tag, tx, v));
    assert forall y :: y in tx.log ==> y in Written(tag, tx, x, v).log;
    hide Observed, Validated, LogWrite, Pending;
  }

  lemma CombinePointwise(self: Log, other: Log)
    ensures forall x :: Observed(Combine(self, other), x)
                     == if x in self then Observed(self, x) else Observed(other, x)
    ensures forall x :: Validated(Combine(self, other), x) == Validated(self, x)
    ensures forall x :: Pending(Combine(self, other), x) == Pending(self, x)
    ensures forall x :: x in self ==> x in Combine(self, other)
  {}

  lemma MergedGrows(src: Source, tag: nat, tx: Tx, r1: Tx, r2: Tx)
    requires Grows(src, tag, tx, r1) && Grows(src, tag, Restored(tx, r1), r2)
    ensures Grows(src, tag, tx, Merged(r2, r1))
  {
    CombinePointwise(r2.log, r1.log);
    hide Validated, Combine, Pending;
  }

  lemma RestoredGrows(src: Source, tag: nat, tx: Tx, r1: Tx)
    requires Grows(src, tag, tx, r1)
    ensures Grows(src, tag, tx, Restored(tx, r1))
  {}

  /** Every run of a body, however it ends, develops the transaction that way. */
  lemma {:induction false} ExecGrows(p: Prog, depth: nat, tag: nat, src: Source, tx: Tx)
    requires Exec(p, depth, tag, src, tx).Done?
    ensures Grows(src, tag, tx, Exec(p, depth, tag, src, tx).tx)
    decreases depth, 1
  {
    match p
    case Read(x, k) =>
      hide Grows;
      var mid, next;
      if x in tx.log {
        mid, next := Reread(tx, x), k(tx.log[x].Value().val);
        RereadGrows(src, tag, tx, x);
      } else {
        var a := Fetch(src, x, tx.i).arc;
        mid, next := Loaded(tx, x, a), k(a.val);
        LoadedGrows(src, tag, tx, x, a);
      }
      ExecGrows(next, depth - 1, tag, src, mid);
      GrowsTrans(src, tag, tx, mid, Exec(next, depth - 1, tag, src, mid).tx);
    case Write(x, v, next) =>
      hide Grows;
      var mid := Written(tag, tx, x, v);
      WrittenGrows(src, tag, tx, x, v);
      ExecGrows(next, depth - 1, tag, src, mid);
      GrowsTrans(src, tag, tx, mid, Exec(next, depth - 1, tag, src, mid).tx);
    case Or(first, second, k) =>
      hide Grows;
      ExecGrows(first, depth - 1, tag, src, tx);
      var r1 := Exec(first, depth - 1, tag, src, tx);
      if r1.ending.Returned? {
        ContinueGrows(k(r1.ending.v), depth, tag, src, tx, r1.tx, true, r1.path, r1.agreed);
      } else if r1.ending.Retried? {
        SecondGrows(second, k, depth, tag, src, tx, r1);
      }
    case _ =>
  }

  lemma {:induction false} ContinueGrows(p: Prog, depth: nat, tag: nat, src: Source, tx: Tx, mid: Tx,
                                         first: bool, branch: Path, agreed: bool)
    requires depth > 0 && Grows(src, tag, tx, mid)
    requires Continue(p, depth, tag, src, mid, first, branch, agreed).Done?
    ensures Grows(src, tag, tx, Continue(p, depth, tag, src, mid, first, branch, agreed).tx)
    decreases depth, 0, 0
  {
    hide Grows, Exec;
    ExecGrows(p, depth - 1, tag, src, mid);
    GrowsTrans(src, tag, tx, mid, Exec(p, depth - 1, tag, src, mid).tx);
  }

  lemma {:induction false} SecondGrows(second: Prog, k: Val -> Prog, depth: nat, tag: nat, src: Source,
                                       tx: Tx, r1: Outcome)
    requires depth > 0 && r1.Done? && Grows(src, tag, tx, r1.tx)
    requires ExecSecond(second, k, depth, tag, src, tx, r1).Done?
    ensures Grows(src, tag, tx, ExecSecond(second, k, depth, tag, src, tx, r1).tx)
    decreases depth, 0, 1
  {
    hide Grows, Exec, Continue;
    var before := Restored(tx, r1.tx);
    var r2 := Exec(second, depth - 1, tag, src, before);
    ExecGrows(second, depth - 1, tag, src, before);
    if r2.ending.Failed? {
      RestoredGrows(src, tag, tx, r1.tx);
      GrowsTrans(src, tag, tx, before, r2.tx);
    } else {
      var merged := Merged(r2.tx, r1.tx);
      MergedGrows(src, tag, tx, r1.tx, r2.tx);
      if r2.ending.Returned? {
        ContinueGrows(k(r2.ending.v), depth, tag, src, tx, merged, false, r2.path,
                      r1.agreed && r2.agreed && Agreement(r2.tx.log, r1.tx.log));
      }
    }
  }

  /** The log waits on every load numbered from `i` to `j`. */
  ghost predicate Covers(ls: seq<Load>, i: nat, j: nat, log: Log) {
    forall m :: i <= m < j && m < |ls| ==> WaitsOn(log, ls[m].x, ls[m].arc)
  }

  lemma CoversMore(ls: seq<Load>, tag: nat, i: nat, a: Tx, b: Tx)
    requires Covers(ls, i, a.i, a.log) && Grows(Recorded(ls), tag, a, b)
    requires Covers(ls, a.i, b.i, b.log)
    ensures Covers(ls, i, b.i, b.log)
  {
    hide LoadedBetween, FreshBoxes;
    forall m | i <= m < b.i && m < |ls| ensures WaitsOn(b.log, ls[m].x, ls[m].arc) {
      if m < a.i { assert WaitsOn(a.log, ls[m].x, ls[m].arc); }
    }
  }

  /** Wait sets: if agreement held at every merge, a run that retried or returned waits on every
      load it made, on every branch, with the identity observed there. */
  lemma {:induction false} WaitSet(p: Prog, depth: nat, tag: nat, ls: seq<Load>, tx: Tx)
    requires var r := Exec(p, depth, tag, Recorded(ls), tx);
             r.Done? && !r.ending.Failed? && r.agreed
    ensures var r := Exec(p, depth, tag, Recorded(ls), tx);
            Covers(ls, tx.i, r.tx.i, r.tx.log)
    decreases depth, 1
  {
    var src := Recorded(ls);
    match p
    case Read(x, k) =>
      hide Grows;
      if x in tx.log {
        WaitSet(k(tx.log[x].Value().val), depth - 1, tag, ls, Reread(tx, x));
      } else {
        var a := Fetch(src, x, tx.i).arc;
        var mid, next := Loaded(tx, x, a), k(a.val);
        WaitSet(next, depth - 1, tag, ls, mid);
        ExecGrows(next, depth - 1, tag, src, mid);
        assert Covers(ls, tx.i, mid.i, mid.log) by { assert WaitsOn(mid.log, x, a); }
        CoversMore(ls, tag, tx.i, mid, Exec(next, depth - 1, tag, src, mid).tx);
      }
    case Write(x, v, next) =>
      WaitSet(next, depth - 1, tag, ls, Written(tag, tx, x, v));
    case Or(first, second, k) =>
      hide Covers;
      var r1 := Exec(first, depth - 1, tag, src, tx);
      if r1.ending.Returned? {
        ContinueAgreed(k(r1.ending.v), depth, tag, src, r1.tx, true, r1.path, r1.agreed);
      } else {
        SecondAgreed(second, k, depth, tag, src, tx, r1);
      }
      WaitSet(first, depth - 1, tag, ls, tx);
      if r1.ending.Returned? {
        ContinueWaitSet(k(r1.ending.v), depth, tag, ls, tx.i, r1.tx, true, r1.path, r1.agreed);
      } else {
        SecondWaitSet(second, k, depth, tag, ls, tx, r1);
      }
    case _ =>
  }

  lemma {:induction false} ContinueWaitSet(p: Prog, depth: nat, tag: nat, ls: seq<Load>, i: nat, mid: Tx,
                                           first: bool, branch: Path, agreed: bool)
    requires depth > 0 && Covers(ls, i, mid.i, mid.log)
    requires var r := Continue(p, depth, tag, Recorded(ls), mid, first, branch, agreed);
             r.Done? && !r.ending.Failed? && r.agreed
    ensures var r := Continue(p, depth, tag, Recorded(ls), mid, first, branch, agreed);
            Covers(ls, i, r.tx.i, r.tx.log)
    decreases depth, 0, 0
  {
    hide Grows, Exec, Covers;
    WaitSet(p, depth - 1, tag, ls, mid);
    ExecGrows(p, depth - 1, tag, Recorded(ls), mid);
    CoversMore(ls, tag, i, mid, Exec(p, depth - 1, tag, Recorded(ls), mid).tx);
  }

  lemma MergedCovers(ls: seq<Load>, i: nat, r1: Tx, r2: Tx)
    requires Covers(ls, i, r1.i, r1.log) && Covers(ls, r1.i, r2.i, r2.log)
    requires Agreement(r2.log, r1.log)
    ensures Covers(ls, i, r2.i, Merged(r2, r1).log)
  {
    CombinePointwise(r2.log, r1.log);
    hide Combine;
    forall m | i <= m < r2.i && m < |ls| ensures WaitsOn(Merged(r2, r1).log, ls[m].x, ls[m].arc) {
      if m < r1.i {
        assert WaitsOn(r1.log, ls[m].x, ls[m].arc) && AgreesAt(r2.log, r1.log, ls[m].x);
      } else {
        assert WaitsOn(r2.log, ls[m].x, ls[m].arc);
      }
    }
  }

  lemma {:induction false} SecondWaitSet(second: Prog, k: Val -> Prog, depth: nat, tag: nat, ls: seq<Load>,
                                         tx: Tx, r1: Outcome)
    requires depth > 0 && r1.Done? && Covers(ls, tx.i, r1.tx.i, r1.tx.log)
    requires var r := ExecSecond(second, k, depth, tag, Recorded(ls), tx, r1);
             r.Done? && !r.ending.Failed? && r.agreed
    ensures var r := ExecSecond(second, k, depth, tag, Recorded(ls), tx, r1);
            Covers(ls, tx.i, r.tx.i, r.tx.log)
    decreases depth, 0, 1
  {
    hide Covers, Exec, Continue, Agreement;
    var before := Restored(tx, r1.tx);
    var r2 := Exec(second, depth - 1, tag, Recorded(ls), before);
    var agreed := r1.agreed && r2.agreed && Agreement(r2.tx.log, r1.tx.log);
    SecondAgreed(second, k, depth, tag, Recorded(ls), tx, r1);
    WaitSet(second, depth - 1, tag, ls, before);
    MergedCovers(ls, tx.i, r1.tx, r2.tx);
    if r2.ending.Returned? {
      ContinueWaitSet(k(r2.ending.v), depth, tag, ls, tx.i, Merged(r2.tx, r1.tx), false, r2.path, agreed);
    }
  }

  lemma ContinueAgreed(p: Prog, depth: nat, tag: nat, src: Source, tx: Tx,
                       first: bool, branch: Path, agreed: bool)
    requires depth > 0
    requires var r := Continue(p, depth, tag, src, tx, first, branch, agreed); r.Done? && r.agreed
    ensures agreed
  {
    hide Exec;
  }

  lemma SecondAgreed(second: Prog, k: Val -> Prog, depth: nat, tag: nat, src: Source, tx: Tx, r1: Outcome)
    requires depth > 0 && r1.Done?
    requires var r := ExecSecond(second, k, depth, tag, src, tx, r1);
             r.Done? && !r.ending.Failed? && r.agreed
    ensures var r2 := Exec(second, depth - 1, tag, src, Restored(tx, r1.tx));
            r1.agreed && r2.agreed && Agreement(r2.tx.log, r1.tx.log)
  {
    hide Exec;
    var r2 := Exec(second, depth - 1, tag, src, Restored(tx, r1.tx));
    if r2.ending.Returned? {
      ContinueAgreed(k(r2.ending.v), depth, tag, src, Merged(r2.tx, r1.tx), false, r2.path,
                     r1.agreed && r2.agreed && Agreement(r2.tx.log, r1.tx.log));
    }
  }
}
