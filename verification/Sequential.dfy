/** The engine without interference, and what its loads being current means. */
module Sequential {
  import opened Boxes
  import opened LogVars
  import opened Programs
  import opened Engine
  import opened Observations

  const EMPTY := Tx(map[], 0, 0)

  /** Everything the log observed, obsolete or not, is what `s` holds. */
  ghost predicate Sees(log: Log, s: Store) {
    forall x :: Observed(log, x).Some? ==> s[x] == Observed(log, x).value
  }

  /** The loads from number `i` on that a run with outcome `r` consumed returned what `s` holds. */
  ghost predicate Served(src: Source, s: Store, i: nat, r: Outcome) {
    match src
    case Live(t) => s == t
    case Recorded(ls) =>
      r.Done? && forall m :: i <= m < r.tx.i && m < |ls| ==> s[ls[m].x] == ls[m].arc
  }

  /** What an outcome says about the atomic run on `s`. */
  ghost function Meaning(r: Outcome, s: Store): Atomic {
    match r
    case Done(Returned(v), tx, _, _) => Committed(v, Effect(tx.log, s))
    case Done(Retried, _, _, _) => Blocked
    case Done(Failed, _, _, _) => Aborted
    case _ => TooDeep
  }

  lemma SeesKept(src: Source, tag: nat, s: Store, a: Tx, r: Outcome)
    requires r.Done? && Grows(src, tag, a, r.tx) && Sees(a.log, s) && Served(src, s, a.i, r)
    ensures Sees(r.tx.log, s)
  {
    hide Observed, FreshBoxes;
  }

  lemma RereadPointwise(log: Log, x: Var)
    requires x in log
    ensures forall y :: Observed(LogRead(log, x), y) == Observed(log, y)
    ensures forall y :: Pending(LogRead(log, x), y) == Pending(log, y)
  {}

  lemma SeesReread(tx: Tx, x: Var, s: Store)
    requires x in tx.log && Sees(tx.log, s)
    ensures Sees(Reread(tx, x).log, s)
    ensures Effect(Reread(tx, x).log, s) == Effect(tx.log, s)
    ensures tx.log[x].Value().val == Effect(tx.log, s)[x]
  {
    assert tx.log[x].Value().val == Effect(tx.log, s)[x] by {
      assert Observed(tx.log, x) == tx.log[x].ReadValue();
    }
    RereadPointwise(tx.log, x);
    hide Observed, Pending, LogRead;
  }

  lemma SeesLoaded(tx: Tx, x: Var, s: Store)
    requires x !in tx.log && Sees(tx.log, s)
    ensures Sees(Loaded(tx, x, s[x]).log, s)
    ensures Effect(Loaded(tx, x, s[x]).log, s) == Effect(tx.log, s)
    ensures s[x].val == Effect(tx.log, s)[x]
  {}

  lemma SeesWritten(tx: Tx, x: Var, v: Val, tag: nat, s: Store)
    requires Sees(tx.log, s)
    ensures Sees(Written(tag, tx, x, v).log, s)
    ensures Effect(Written(tag, tx, x, v).log, s) == Effect(tx.log, s)[x := v]
  {
    WritePointwise(tx.log, x, NewBox(tag, tx, v));
    hide Observed, Validated, LogWrite, Pending;
  }

  lemma SeesMerged(second: Tx, first: Tx, s: Store)
    requires Sees(second.log, s) && Sees(first.log, s)
    ensures Sees(Merged(second, first).log, s)
    ensures Effect(Merged(second, first).log, s) == Effect(second.log, s)
  {
    CombinePointwise(second.log, first.log);
    hide Combine, Pending;
  }

  /** A run all of whose loads returned what `s` holds is the left-biased atomic run on `s`; with
      a live store this is an equation without exception. */
  lemma {:induction false} Faithful(p: Prog, depth: nat, tag: nat, src: Source, tx: Tx, s: Store)
    requires Sees(tx.log, s)
    requires var r := Exec(p, depth, tag, src, tx);
             (r.Done? || r.OutOfDepth?) && Served(src, s, tx.i, r)
    ensures Direct(p, depth, Effect(tx.log, s)) == Meaning(Exec(p, depth, tag, src, tx), s)
    decreases depth, 1
  {
    if depth > 0 {
      match p
      case Read(x, k) =>
        if x in tx.log {
          FaithfulReread(x, k, depth, tag, src, tx, s);
        } else {
          FaithfulLoad(x, k, depth, tag, src, tx, s);
        }
      case Write(x, v, next) =>
        hide Sees, Effect;
        SeesWritten(tx, x, v, tag, s);
        Faithful(next, depth - 1, tag, src, Written(tag, tx, x, v), s);
      case Or(first, second, k) =>
        FaithfulOr(first, second, k, depth, tag, src, tx, s);
      case _ =>
    }
  }

  lemma {:induction false} FaithfulLoad(x: Var, k: Val -> Prog, depth: nat, tag: nat, src: Source,
                                        tx: Tx, s: Store)
    requires depth > 0 && x !in tx.log && Sees(tx.log, s)
    requires var r := Exec(Prog.Read(x, k), depth, tag, src, tx);
             (r.Done? || r.OutOfDepth?) && Served(src, s, tx.i, r)
    ensures Direct(Prog.Read(x, k), depth, Effect(tx.log, s))
            == Meaning(Exec(Prog.Read(x, k), depth, tag, src, tx), s)
    decreases depth, 0, 2
  {
    hide Sees, Effect, Exec, Direct, Meaning, Served, Fetch;
    ServedLoad(x, k, depth, tag, src, tx, s);
    SeesLoaded(tx, x, s);
    ExecLoad(x, k, depth, tag, src, tx, s[x]);
    DirectRead(x, k, depth, Effect(tx.log, s));
    Faithful(k(s[x].val), depth - 1, tag, src, Loaded(tx, x, s[x]), s);
  }

  lemma {:induction false} FaithfulReread(x: Var, k: Val -> Prog, depth: nat, tag: nat, src: Source,
                                          tx: Tx, s: Store)
    requires depth > 0 && x in tx.log && Sees(tx.log, s)
    requires var r := Exec(Prog.Read(x, k), depth, tag, src, tx);
             (r.Done? || r.OutOfDepth?) && Served(src, s, tx.i, r)
    ensures Direct(Prog.Read(x, k), depth, Effect(tx.log, s))
            == Meaning(Exec(Prog.Read(x, k), depth, tag, src, tx), s)
    decreases depth, 0, 2
  {
    hide Sees, Effect, Exec, Direct, Meaning, Served;
    SeesReread(tx, x, s);
    ExecReread(x, k, depth, tag, src, tx);
    DirectRead(x, k, depth, Effect(tx.log, s));
    Faithful(k(tx.log[x].Value().val), depth - 1, tag, src, Reread(tx, x), s);
  }

  lemma ExecLoad(x: Var, k: Val -> Prog, depth: nat, tag: nat, src: Source, tx: Tx, a: Arc)
    requires depth > 0 && x !in tx.log && Fetch(src, x, tx.i) == Got(a)
    ensures Exec(Prog.Read(x, k), depth, tag, src, tx)
            == Exec(k(a.val), depth - 1, tag, src, Loaded(tx, x, a))
  {}

  lemma ExecReread(x: Var, k: Val -> Prog, depth: nat, tag: nat, src: Source, tx: Tx)
    requires depth > 0 && x in tx.log
    ensures Exec(Prog.Read(x, k), depth, tag, src, tx)
            == Exec(k(tx.log[x].Value().val), depth - 1, tag, src, Reread(tx, x))
  {}

  lemma DirectRead(x: Var, k: Val -> Prog, depth: nat, s: Vals)
    requires depth > 0
    ensures Direct(Prog.Read(x, k), depth, s) == Direct(k(s[x]), depth - 1, s)
  {}

  lemma ServedLoad(x: Var, k: Val -> Prog, depth: nat, tag: nat, src: Source, tx: Tx, s: Store)
    requires depth > 0 && x !in tx.log
    requires var r := Exec(Prog.Read(x, k), depth, tag, src, tx);
             (r.Done? || r.OutOfDepth?) && Served(src, s, tx.i, r)
    ensures Fetch(src, x, tx.i) == Got(s[x])
    ensures Served(src, s, tx.i + 1, Exec(Prog.Read(x, k), depth, tag, src, tx))
  {
    var a := Fetch(src, x, tx.i).arc;
    var r := Exec(Prog.Read(x, k), depth, tag, src, tx);
    hide Grows;
    if r.Done? {
      ExecGrows(k(a.val), depth - 1, tag, src, Loaded(tx, x, a));
      CursorGrows(src, tag, Loaded(tx, x, a), r.tx);
    }
  }

  lemma CursorGrows(src: Source, tag: nat, a: Tx, b: Tx)
    requires Grows(src, tag, a, b)
    ensures a.i <= b.i && (src.Recorded? ==> b.i == a.i || b.i <= |src.loads|)
  {}

  /** If the whole run was served from `s` then so were the part up to `r1` and the part after. */
  lemma ServedParts(src: Source, s: Store, i: nat, r1: Outcome, r: Outcome)
    requires Served(src, s, i, r) && r1.Done? && i <= r1.tx.i
    requires r.Done? ==> r1.tx.i <= r.tx.i
    ensures Served(src, s, i, r1) && Served(src, s, r1.tx.i, r)
  {}

  lemma {:induction false} FaithfulOr(first: Prog, second: Prog, k: Val -> Prog, depth: nat, tag: nat,
                                      src: Source, tx: Tx, s: Store)
    requires depth > 0 && Sees(tx.log, s)
    requires var r := Exec(Or(first, second, k), depth, tag, src, tx);
             (r.Done? || r.OutOfDepth?) && Served(src, s, tx.i, r)
    ensures Direct(Or(first, second, k), depth, Effect(tx.log, s))
            == Meaning(Exec(Or(first, second, k), depth, tag, src, tx), s)
    decreases depth, 0, 2
  {
    hide Sees, Effect, Grows, Served, Continue, ExecSecond;
    var r := Exec(Or(first, second, k), depth, tag, src, tx);
    var r1 := Exec(first, depth - 1, tag, src, tx);
    if r1.Done? && r1.ending.Returned? {
      ServedFirst(k(r1.ending.v), depth, tag, src, tx, s, first, r1);
      Faithful(first, depth - 1, tag, src, tx, s);
      FaithfulRest(k(r1.ending.v), depth, tag, src, r1.tx, s, true, r1.path, r1.agreed);
    } else if r1.Done? && r1.ending.Retried? {
      ServedBoth(first, second, k, depth, tag, src, tx, s, r1);
      Faithful(first, depth - 1, tag, src, tx, s);
      FaithfulSecond(second, k, depth, tag, src, tx, s, r1);
    } else {
      Faithful(first, depth - 1, tag, src, tx, s);
    }
  }

  /** The part after an `or` that returned, from a transaction that sees `s`. */
  lemma {:induction false} FaithfulRest(p: Prog, depth: nat, tag: nat, src: Source, tx: Tx, s: Store,
                                        first: bool, branch: Path, agreed: bool)
    requires depth > 0 && Sees(tx.log, s)
    requires var r := Continue(p, depth, tag, src, tx, first, branch, agreed);
             (r.Done? || r.OutOfDepth?) && Served(src, s, tx.i, r)
    ensures Direct(p, depth - 1, Effect(tx.log, s))
            == Meaning(Continue(p, depth, tag, src, tx, first, branch, agreed), s)
    decreases depth, 0, 0
  {
    hide Exec, Sees, Effect;
    Faithful(p, depth - 1, tag, src, tx, s);
  }

  lemma {:induction false} ServedFirst(p: Prog, depth: nat, tag: nat, src: Source, tx: Tx, s: Store,
                                       first: Prog, r1: Outcome)
    requires depth > 0 && r1 == Exec(first, depth - 1, tag, src, tx) && r1.Done? && Sees(tx.log, s)
    requires Served(src, s, tx.i, Continue(p, depth, tag, src, r1.tx, true, r1.path, r1.agreed))
    ensures Served(src, s, tx.i, r1) && Sees(r1.tx.log, s)
    ensures Served(src, s, r1.tx.i, Continue(p, depth, tag, src, r1.tx, true, r1.path, r1.agreed))
  {
    hide Exec, Sees, Continue;
    var r := Continue(p, depth, tag, src, r1.tx, true, r1.path, r1.agreed);
    ExecGrows(first, depth - 1, tag, src, tx);
    CursorGrows(src, tag, tx, r1.tx);
    if r.Done? {
      assert Grows(src, tag, r1.tx, r1.tx);
      ContinueGrows(p, depth, tag, src, r1.tx, r1.tx, true, r1.path, r1.agreed);
    }
    hide Grows;
    ServedParts(src, s, tx.i, r1, r);
    SeesKept(src, tag, s, tx, r1);
  }

  lemma {:induction false} ServedBoth(first: Prog, second: Prog, k: Val -> Prog, depth: nat, tag: nat,
                                      src: Source, tx: Tx, s: Store, r1: Outcome)
    requires depth > 0 && r1 == Exec(first, depth - 1, tag, src, tx) && r1.Done? && Sees(tx.log, s)
    requires Served(src, s, tx.i, ExecSecond(second, k, depth, tag, src, tx, r1))
    ensures Served(src, s, tx.i, r1) && Sees(r1.tx.log, s)
    ensures Served(src, s, r1.tx.i, ExecSecond(second, k, depth, tag, src, tx, r1))
  {
    hide Exec, Sees, ExecSecond;
    var r := ExecSecond(second, k, depth, tag, src, tx, r1);
    ExecGrows(first, depth - 1, tag, src, tx);
    CursorGrows(src, tag, tx, r1.tx);
    if r.Done? {
      // the second branch starts at the cursor where the first one stopped
      assert Grows(src, tag, Restored(tx, r1.tx), Tx(tx.log, r1.tx.n, r1.tx.i));
      SecondCursor(second, k, depth, tag, src, tx, r1);
    }
    hide Grows;
    ServedParts(src, s, tx.i, r1, r);
    SeesKept(src, tag, s, tx, r1);
  }

  lemma {:induction false} SecondCursor(second: Prog, k: Val -> Prog, depth: nat, tag: nat, src: Source,
                                        tx: Tx, r1: Outcome)
    requires depth > 0 && r1.Done?
    requires ExecSecond(second, k, depth, tag, src, tx, r1).Done?
    ensures var r2 := Exec(second, depth - 1, tag, src, Restored(tx, r1.tx));
            r2.Done? && r1.tx.i <= r2.tx.i <= ExecSecond(second, k, depth, tag, src, tx, r1).tx.i
  {
    hide Exec, Continue;
    var before := Restored(tx, r1.tx);
    var r2 := Exec(second, depth - 1, tag, src, before);
    ExecGrows(second, depth - 1, tag, src, before);
    CursorGrows(src, tag, before, r2.tx);
    if r2.ending.Returned? {
      var merged := Merged(r2.tx, r1.tx);
      var agreed := r1.agreed && r2.agreed && Agreement(r2.tx.log, r1.tx.log);
      assert Grows(src, tag, merged, merged);
      ContinueGrows(k(r2.ending.v), depth, tag, src, merged, merged, false, r2.path, agreed);
      CursorGrows(src, tag, merged,
                  Continue(k(r2.ending.v), depth, tag, src, merged, false, r2.path, agreed).tx);
    }
  }

  lemma {:induction false} FaithfulSecond(second: Prog, k: Val -> Prog, depth: nat, tag: nat,
                                          src: Source, tx: Tx, s: Store, r1: Outcome)
    requires depth > 0 && r1.Done? && Sees(tx.log, s) && Sees(r1.tx.log, s)
    requires var r := ExecSecond(second, k, depth, tag, src, tx, r1);
             (r.Done? || r.OutOfDepth?) && Served(src, s, r1.tx.i, r)
    ensures Meaning(ExecSecond(second, k, depth, tag, src, tx, r1), s)
            == (match Direct(second, depth - 1, Effect(tx.log, s))
                case Committed(v, vals) => Direct(k(v), depth - 1, vals)
                case a => a)
    decreases depth, 0, 1
  {
    hide Exec, Sees, Effect, Direct, Continue;
    var r := ExecSecond(second, k, depth, tag, src, tx, r1);
    var before := Restored(tx, r1.tx);
    var r2 := Exec(second, depth - 1, tag, src, before);
    if r.Done? { SecondCursor(second, k, depth, tag, src, tx, r1); }
    if r2.Done? {
      ExecGrows(second, depth - 1, tag, src, before);
      CursorGrows(src, tag, before, r2.tx);
      ServedParts(src, s, r1.tx.i, r2, r);
    }
    Faithful(second, depth - 1, tag, src, before, s);
    if r2.Done? && r2.ending.Returned? {
      SeesKept(src, tag, s, before, r2);
      SeesMerged(r2.tx, r1.tx, s);
      FaithfulRest(k(r2.ending.v), depth, tag, src, Merged(r2.tx, r1.tx), s, false, r2.path,
                   r1.agreed && r2.agreed && Agreement(r2.tx.log, r1.tx.log));
    }
  }
}
