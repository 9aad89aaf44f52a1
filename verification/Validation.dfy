/** Which observations commit validates: exactly those the surviving path has read through. */
module Validation {
  import opened Boxes
  import opened LogVars
  import opened Programs
  import opened Engine
  import opened Observations

  /** The observations that a path reads through, up to its end or to where it is suspended: every read of
      a variable that the log holds an observation of, whether loaded by this read, loaded earlier on the
      path, or inherited from an abandoned branch. */
  ghost function Uses(p: Prog, depth: nat, tag: nat, src: Source, tx: Tx): set<(Var, Arc)>
    decreases depth, 1
  {
    if depth == 0 then {} else
      match p
      case Read(x, k) =>
        if x in tx.log then
          ReadThrough(tx.log, x) + Uses(k(tx.log[x].Value().val), depth - 1, tag, src, Reread(tx, x))
        else (
          match Fetch(src, x, tx.i)
          case Got(a) => {(x, a)} + Uses(k(a.val), depth - 1, tag, src, Loaded(tx, x, a))
          case _ => {})
      case Write(x, v, next) => Uses(next, depth - 1, tag, src, Written(tag, tx, x, v))
      case Or(first, second, k) =>
        var r := Exec(first, depth - 1, tag, src, tx);
        if r.Done? && r.ending.Retried? then UsesSecond(second, k, depth, tag, src, tx, r.tx)
        else
          Uses(first, depth - 1, tag, src, tx)
          + (if r.Done? && r.ending.Returned? then Uses(k(r.ending.v), depth - 1, tag, src, r.tx) else {})
      case _ => {}
  }

  ghost function ReadThrough(log: Log, x: Var): set<(Var, Arc)> {
    if Observed(log, x).Some? then {(x, Observed(log, x).value)} else {}
  }

  ghost function UsesSecond(second: Prog, k: Val -> Prog, depth: nat, tag: nat, src: Source, tx: Tx,
                            tx1: Tx): set<(Var, Arc)>
    requires depth > 0
    decreases depth, 0
  {
    var r := Exec(second, depth - 1, tag, src, Restored(tx, tx1));
    Uses(second, depth - 1, tag, src, Restored(tx, tx1))
    + (if r.Done? && r.ending.Returned? then Uses(k(r.ending.v), depth - 1, tag, src, Merged(r.tx, tx1)) else {})
  }

  /** After `b` commit validates what it did after `a` and, in addition, exactly `uses`. */
  ghost predicate Checks(a: Log, b: Log, uses: set<(Var, Arc)>) {
    forall x: Var, v: Arc :: Validated(b, x) == Some(v) <==> Validated(a, x) == Some(v) || (x, v) in uses
  }

  lemma ChecksTrans(a: Log, b: Log, c: Log, u1: set<(Var, Arc)>, u2: set<(Var, Arc)>)
    requires Checks(a, b, u1) && Checks(b, c, u2)
    ensures Checks(a, c, u1 + u2)
  {
    hide Validated;
  }

  lemma NothingChecked(log: Log)
    ensures Checks(log, log, {})
  {}

  lemma RereadChecks(log: Log, x: Var)
    requires x in log
    ensures Checks(log, LogRead(log, x), ReadThrough(log, x))
  {}

  lemma LoadChecks(log: Log, x: Var, a: Arc)
    requires x !in log
    ensures Checks(log, LogLoad(log, x, a), {(x, a)})
  {}

  lemma WriteChecks(log: Log, x: Var, b: Arc)
    ensures Checks(log, LogWrite(log, x, b), {})
  {
    WritePointwise(log, x, b);
    hide LogWrite, Validated;
  }

  /** The run has ended, in whatever way, or waits for a load: it has a log. */
  predicate HasLog(r: Outcome) {
    r.Done? || r.NeedLoad?
  }

  /** Validation is complete and exact at every point of an attempt: the log, when the run ends and whenever
      it is about to load, validates what the log it started from did, and the observations that the path
      taken so far has read through, each with exactly the box it used; nothing drops a check and an
      abandoned branch adds none. */
  lemma {:induction false} ValidationExact(p: Prog, depth: nat, tag: nat, src: Source, tx: Tx)
    requires HasLog(Exec(p, depth, tag, src, tx))
    ensures Checks(tx.log, Exec(p, depth, tag, src, tx).tx.log, Uses(p, depth, tag, src, tx))
    decreases depth, 1
  {
    match p
    case Read(x, k) =>
      hide Checks;
      var r := Exec(p, depth, tag, src, tx);
      if x in tx.log {
        var next, mid := k(tx.log[x].Value().val), Reread(tx, x);
        RereadChecks(tx.log, x);
        ValidationExact(next, depth - 1, tag, src, mid);
        ChecksTrans(tx.log, mid.log, r.tx.log, ReadThrough(tx.log, x), Uses(next, depth - 1, tag, src, mid));
      } else if Fetch(src, x, tx.i).Missing? {
        NothingChecked(tx.log);
      } else {
        var a := Fetch(src, x, tx.i).arc;
        var next, mid := k(a.val), Loaded(tx, x, a);
        LoadChecks(tx.log, x, a);
        ValidationExact(next, depth - 1, tag, src, mid);
        ChecksTrans(tx.log, mid.log, r.tx.log, {(x, a)}, Uses(next, depth - 1, tag, src, mid));
      }
    case Write(x, v, next) =>
      hide Checks;
      var mid := Written(tag, tx, x, v);
      var uses := Uses(next, depth - 1, tag, src, mid);
      WriteChecks(tx.log, x, NewBox(tag, tx, v));
      ValidationExact(next, depth - 1, tag, src, mid);
      ChecksTrans(tx.log, mid.log, Exec(p, depth, tag, src, tx).tx.log, {}, uses);
      assert {} + uses == uses;
    case Or(first, second, k) =>
      hide Checks;
      ValidationExact(first, depth - 1, tag, src, tx);
      var r1 := Exec(first, depth - 1, tag, src, tx);
      var uses := Uses(first, depth - 1, tag, src, tx);
      if r1.Done? && r1.ending.Returned? {
        ContinueChecks(k(r1.ending.v), depth, tag, src, tx.log, r1.tx, true, r1.path, r1.agreed, uses);
      } else if r1.Done? && r1.ending.Retried? {
        SecondChecks(second, k, depth, tag, src, tx, r1);
      } else {
        assert uses + {} == uses;
      }
    case _ =>
  }

  lemma {:induction false} ContinueChecks(p: Prog, depth: nat, tag: nat, src: Source, before: Log, mid: Tx,
                                          first: bool, branch: Path, agreed: bool, uses: set<(Var, Arc)>)
    requires depth > 0 && Checks(before, mid.log, uses)
    requires HasLog(Continue(p, depth, tag, src, mid, first, branch, agreed))
    ensures Checks(before, Continue(p, depth, tag, src, mid, first, branch, agreed).tx.log,
                   uses + Uses(p, depth - 1, tag, src, mid))
    decreases depth, 0, 0
  {
    hide Checks, Exec, Uses;
    ValidationExact(p, depth - 1, tag, src, mid);
    ChecksTrans(before, mid.log, Exec(p, depth - 1, tag, src, mid).tx.log, uses,
                Uses(p, depth - 1, tag, src, mid));
  }

  lemma MergedChecks(before: Log, r1: Tx, r2: Tx, uses: set<(Var, Arc)>)
    requires Checks(before, r2.log, uses)
    ensures Checks(before, Merged(r2, r1).log, uses)
  {
    CombinePointwise(r2.log, r1.log);
    hide Combine, Validated;
  }

  lemma {:induction false} SecondChecks(second: Prog, k: Val -> Prog, depth: nat, tag: nat, src: Source,
                                        tx: Tx, r1: Outcome)
    requires depth > 0 && r1.Done?
    requires HasLog(ExecSecond(second, k, depth, tag, src, tx, r1))
    ensures Checks(tx.log, ExecSecond(second, k, depth, tag, src, tx, r1).tx.log,
                   UsesSecond(second, k, depth, tag, src, tx, r1.tx))
    decreases depth, 0, 1
  {
    hide Checks, Exec, Continue, Uses;
    var before := Restored(tx, r1.tx);
    var r2 := Exec(second, depth - 1, tag, src, before);
    var uses := Uses(second, depth - 1, tag, src, before);
    ValidationExact(second, depth - 1, tag, src, before);
    MergedChecks(before.log, r1.tx, r2.tx, uses);
    if r2.Done? && r2.ending.Returned? {
      ContinueChecks(k(r2.ending.v), depth, tag, src, before.log, Merged(r2.tx, r1.tx), false, r2.path,
                     r1.agreed && r2.agreed && Agreement(r2.tx.log, r1.tx.log), uses);
    } else {
      assert uses + {} == uses;
    }
  }
}
