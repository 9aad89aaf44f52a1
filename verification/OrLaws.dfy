/** The algebra of `or`, and the places where it is weaker than it reads. */
module OrLaws {
  import opened Boxes
  import opened LogVars
  import opened Programs
  import opened Engine
  import opened Observations
  import opened Sequential
  import opened Attempts
  import opened Suspension

  function Id(): Val -> Prog {
    v => Return(v)
  }

  /** An `or` on outcomes, and going on after an outcome. */
  ghost function Else(r1: Atomic, r2: Atomic): Atomic {
    if r1.Blocked? then r2 else r1
  }

  ghost function Then(r: Atomic, k: Val -> Prog, depth: nat): Atomic {
    match r
    case Committed(v, s) => Direct(k(v), depth, s)
    case _ => r
  }

  lemma DirectOr(first: Prog, second: Prog, k: Val -> Prog, depth: nat, s: Vals)
    requires depth > 0
    ensures Direct(Prog.Or(first, second, k), depth, s)
            == Then(Else(Direct(first, depth - 1, s), Direct(second, depth - 1, s)), k, depth - 1)
  {}

  lemma ThenReturn(r: Atomic, depth: nat)
    requires depth > 0
    ensures Then(r, Id(), depth) == r
  {}

  /** `retry` is a left and a right unit of `or`: what remains is the body and its continuation. */
  lemma RetryUnit(p: Prog, k: Val -> Prog, depth: nat, s: Vals)
    requires depth > 1
    ensures Direct(Prog.Or(Retry, p, k), depth, s) == Then(Direct(p, depth - 1, s), k, depth - 1)
    ensures Direct(Prog.Or(p, Retry, k), depth, s) == Then(Direct(p, depth - 1, s), k, depth - 1)
  {
    assert Direct(Retry, depth - 1, s) == Blocked;
    DirectOr(Retry, p, k, depth, s);
    DirectOr(p, Retry, k, depth, s);
    hide Direct;
  }

  /** `or` is associative: at any depth at which both sides end, they end alike, with the same
      store, for every continuation. */
  lemma OrAssociative(a: Prog, b: Prog, c: Prog, k: Val -> Prog, depth: nat, s: Vals)
    requires depth > 2
    requires !Direct(Prog.Or(Prog.Or(a, b, Id()), c, k), depth, s).TooDeep?
    requires !Direct(Prog.Or(a, Prog.Or(b, c, Id()), k), depth, s).TooDeep?
    ensures Direct(Prog.Or(Prog.Or(a, b, Id()), c, k), depth, s)
            == Direct(Prog.Or(a, Prog.Or(b, c, Id()), k), depth, s)
  {
    hide Direct, Id;
    var ab, bc := Prog.Or(a, b, Id()), Prog.Or(b, c, Id());
    DirectOr(ab, c, k, depth, s);
    DirectOr(a, bc, k, depth, s);
    DirectOr(a, b, Id(), depth - 1, s);
    DirectOr(b, c, Id(), depth - 1, s);
    ThenReturn(Else(Direct(a, depth - 2, s), Direct(b, depth - 2, s)), depth - 2);
    ThenReturn(Else(Direct(b, depth - 2, s), Direct(c, depth - 2, s)), depth - 2);
    if !Direct(a, depth - 2, s).TooDeep? { DirectDeeper(a, depth - 2, depth - 1, s); }
    if !Direct(c, depth - 2, s).TooDeep? { DirectDeeper(c, depth - 2, depth - 1, s); }
  }

  /** The same laws for the engine, on a store that nobody else changes and from any log that is
      consistent with it: result, pending writes and thereby commit effect agree. */
  lemma EngineOrAssociative(a: Prog, b: Prog, c: Prog, k: Val -> Prog, depth: nat, tag: nat, s: Store, tx: Tx)
    requires depth > 2 && Sees(tx.log, s)
    requires Exec(Prog.Or(Prog.Or(a, b, Id()), c, k), depth, tag, Live(s), tx).Done?
    requires Exec(Prog.Or(a, Prog.Or(b, c, Id()), k), depth, tag, Live(s), tx).Done?
    ensures Meaning(Exec(Prog.Or(Prog.Or(a, b, Id()), c, k), depth, tag, Live(s), tx), s)
            == Meaning(Exec(Prog.Or(a, Prog.Or(b, c, Id()), k), depth, tag, Live(s), tx), s)
  {
    hide Direct, Exec, Id, Sees, Effect;
    Faithful(Prog.Or(Prog.Or(a, b, Id()), c, k), depth, tag, Live(s), tx, s);
    Faithful(Prog.Or(a, Prog.Or(b, c, Id()), k), depth, tag, Live(s), tx, s);
    OrAssociative(a, b, c, k, depth, Effect(tx.log, s));
  }

  // The whole log, and with it what a blocked thread waits for

  /** The outcome of running two branches, the second from where the first one left counters and log,
      leaving aside which branches were taken. */
  ghost function Either(r1: Outcome, r2: Outcome): Outcome {
    if r1.Done? && r1.ending.Retried? then
      if r2.Done? && !r2.ending.Failed? then
        Done(r2.ending, Merged(r2.tx, r1.tx), End, r1.agreed && r2.agreed && Agreement(r2.tx.log, r1.tx.log))
      else r2
    else r1
  }

  /** Ended alike, with the same log, allocations and loads; agreement is compared as well. */
  ghost predicate Alike(r: Outcome, r': Outcome) {
    if r.Done? then r'.Done? && r.ending == r'.ending && r.tx == r'.tx && r.agreed == r'.agreed else r == r'
  }

  ghost predicate SameEnd(r: Outcome, r': Outcome) {
    r.Done? && r'.Done? && r.ending == r'.ending && r.tx == r'.tx
  }

  /** Going on with `k`, unless the outcome is no result. */
  ghost function AndThen(r: Outcome, k: Val -> Prog, depth: nat, tag: nat, src: Source): Outcome {
    if r.Done? && r.ending.Returned? then
      var r' := Exec(k(r.ending.v), depth, tag, src, r.tx);
      if r'.Done? then Done(r'.ending, r'.tx, End, r.agreed && r'.agreed) else r'
    else r
  }

  ghost function SecondRun(r1: Outcome, q: Prog, depth: nat, tag: nat, src: Source, tx: Tx): Outcome {
    if r1.Done? then Exec(q, depth, tag, src, Restored(tx, r1.tx)) else r1
  }

  lemma ExecOr(p: Prog, q: Prog, k: Val -> Prog, depth: nat, tag: nat, src: Source, tx: Tx)
    requires depth > 0
    ensures var r1 := Exec(p, depth - 1, tag, src, tx);
            var r2 := SecondRun(r1, q, depth - 1, tag, src, tx);
            Alike(Exec(Prog.Or(p, q, k), depth, tag, src, tx), AndThen(Either(r1, r2), k, depth - 1, tag, src))
  {
    var r1 := Exec(p, depth - 1, tag, src, tx);
    if r1.Done? && r1.ending.Retried? {
      assert Exec(Prog.Or(p, q, k), depth, tag, src, tx) == ExecSecond(q, k, depth, tag, src, tx, r1);
      hide Exec, Alike, AndThen, Either;
      ExecOrSecond(q, k, depth, tag, src, tx, r1);
    } else if r1.Done? && r1.ending.Returned? {
      assert Exec(Prog.Or(p, q, k), depth, tag, src, tx)
             == Continue(k(r1.ending.v), depth, tag, src, r1.tx, true, r1.path, r1.agreed);
      hide Exec;
    }
  }

  lemma ExecOrSecond(q: Prog, k: Val -> Prog, depth: nat, tag: nat, src: Source, tx: Tx, r1: Outcome)
    requires depth > 0 && r1.Done? && r1.ending.Retried?
    ensures var r2 := Exec(q, depth - 1, tag, src, Restored(tx, r1.tx));
            Alike(ExecSecond(q, k, depth, tag, src, tx, r1), AndThen(Either(r1, r2), k, depth - 1, tag, src))
  {
    hide Exec, Agreement;
  }

  lemma AndThenId(r: Outcome, depth: nat, tag: nat, src: Source)
    requires depth > 0
    ensures Alike(AndThen(r, Id(), depth, tag, src), r)
  {}

  lemma EitherAssociative(a: Outcome, b: Outcome, c: Outcome)
    requires Either(Either(a, b), c).Done? && Either(Either(a, b), c).agreed
    ensures Either(a, Either(b, c)).Done?
    ensures Either(a, Either(b, c)).ending == Either(Either(a, b), c).ending
    ensures Either(a, Either(b, c)).tx == Either(Either(a, b), c).tx
  {
    if a.Done? && a.ending.Retried? && b.Done? && b.ending.Retried? && c.Done? && !c.ending.Failed? {
      assert Agreement(b.tx.log, a.tx.log);
      CombineAssociativeIff(c.tx.log, b.tx.log, a.tx.log);
    }
    hide Combine, Agreement;
  }

  /** `retry` is a left unit of `or` in the engine, too: the backup, the swap and the merge leave exactly
      what the body and its continuation would leave, from any log and whatever the loads return. */
  lemma EngineRetryLeft(p: Prog, k: Val -> Prog, depth: nat, tag: nat, src: Source, tx: Tx)
    requires depth > 1
    ensures Alike(Exec(Prog.Or(Retry, p, k), depth, tag, src, tx),
                  AndThen(Exec(p, depth - 1, tag, src, tx), k, depth - 1, tag, src))
  {
    var r1, r2 := Exec(Retry, depth - 1, tag, src, tx), Exec(p, depth - 1, tag, src, tx);
    assert r1 == Done(Retried, tx, End, true);
    ExecOr(Retry, p, k, depth, tag, src, tx);
    hide Exec;
    assert Restored(tx, r1.tx) == tx;
    if r2.Done? && !r2.ending.Failed? {
      ExecGrows(p, depth - 1, tag, src, tx);
      NothingMerged(src, tag, tx, r2.tx);
    }
  }

  lemma NothingMerged(src: Source, tag: nat, tx: Tx, after: Tx)
    requires Grows(src, tag, tx, after)
    ensures Merged(after, tx) == after && Agreement(after.log, tx.log)
  {
    assert forall x :: x in tx.log ==> x in after.log && Observed(after.log, x) == Observed(tx.log, x);
    hide Grows;
    assert Combine(after.log, tx.log) == after.log;
  }

  /** `retry` is a right unit: a body that returns or fails goes on as by itself, and one that retries
      ends with the same loads and allocations and, at every variable, the observation of its own log,
      so the thread waits for the very same; nothing else of the abandoned log survives. */
  lemma EngineRetryRight(p: Prog, k: Val -> Prog, depth: nat, tag: nat, src: Source, tx: Tx)
    requires depth > 1
    ensures var r := Exec(p, depth - 1, tag, src, tx);
            var or := Exec(Prog.Or(p, Retry, k), depth, tag, src, tx);
            if r.Done? && r.ending.Retried? then
              && or.Done? && or.ending.Retried? && or.agreed == r.agreed && or.tx.n == r.tx.n && or.tx.i == r.tx.i
              && (forall x :: Observed(or.tx.log, x) == Observed(r.tx.log, x))
              && (forall x :: Pending(or.tx.log, x) == Pending(tx.log, x))
              && (forall x :: Validated(or.tx.log, x) == Validated(tx.log, x))
            else Alike(or, AndThen(r, k, depth - 1, tag, src))
  {
    var r := Exec(p, depth - 1, tag, src, tx);
    ExecOr(p, Retry, k, depth, tag, src, tx);
    if r.Done? && r.ending.Retried? {
      var r2 := Exec(Retry, depth - 1, tag, src, Restored(tx, r.tx));
      assert r2 == Done(Retried, Restored(tx, r.tx), End, true);
      ExecGrows(p, depth - 1, tag, src, tx);
      hide Exec;
      OnlyWaits(src, tag, tx, r.tx);
    }
  }

  lemma OnlyWaits(src: Source, tag: nat, tx: Tx, after: Tx)
    requires Grows(src, tag, tx, after)
    ensures Agreement(tx.log, after.log)
    ensures var log := Combine(tx.log, after.log);
            && (forall x :: Observed(log, x) == Observed(after.log, x))
            && (forall x :: Pending(log, x) == Pending(tx.log, x))
            && (forall x :: Validated(log, x) == Validated(tx.log, x))
  {
    assert forall x :: x in tx.log ==> x in after.log && Observed(after.log, x) == Observed(tx.log, x);
    hide Grows;
    CombinePointwise(tx.log, after.log);
    hide Combine;
  }

  /** The two associations of `or` leave the very same log, so a thread that they block waits for the
      same variables, whenever agreement held at every merge of the left one: from any log, whatever
      the loads return, and at any depth at which both end. */
  lemma OrAssociativeLog(a: Prog, b: Prog, c: Prog, k: Val -> Prog, depth: nat, tag: nat, src: Source, tx: Tx)
    requires depth > 2
    requires var left := Exec(Prog.Or(Prog.Or(a, b, Id()), c, k), depth, tag, src, tx);
             left.Done? && left.agreed
    requires Exec(Prog.Or(a, Prog.Or(b, c, Id()), k), depth, tag, src, tx).Done?
    ensures var left := Exec(Prog.Or(Prog.Or(a, b, Id()), c, k), depth, tag, src, tx);
            var right := Exec(Prog.Or(a, Prog.Or(b, c, Id()), k), depth, tag, src, tx);
            left.ending == right.ending && left.tx == right.tx
  {
    hide Exec, Id;
    var ab, bc := Prog.Or(a, b, Id()), Prog.Or(b, c, Id());
    var ra := Exec(a, depth - 2, tag, src, tx);
    var rb := SecondRun(ra, b, depth - 2, tag, src, tx);
    var rab := Exec(ab, depth - 1, tag, src, tx);
    assert Alike(rab, Either(ra, rb)) by {
      ExecOr(a, b, Id(), depth - 1, tag, src, tx);
      AndThenId(Either(ra, rb), depth - 2, tag, src);
    }
    var rc := SecondRun(rab, c, depth - 1, tag, src, tx);
    ExecOr(ab, c, k, depth, tag, src, tx);
    assert !ra.OutOfDepth?;
    Deeper(a, depth - 2, depth - 1, tag, src, tx);
    var rbc := SecondRun(ra, bc, depth - 1, tag, src, tx);
    ExecOr(a, bc, k, depth, tag, src, tx);
    assert SameEnd(Either(rab, rc), Either(ra, rbc)) by {
      if ra.Done? && ra.ending.Retried? {
        var tx1 := Restored(tx, ra.tx);
        var rc1 := SecondRun(rb, c, depth - 2, tag, src, tx1);
        assert Alike(rbc, Either(rb, rc1)) by {
          ExecOr(b, c, Id(), depth - 1, tag, src, tx1);
          AndThenId(Either(rb, rc1), depth - 2, tag, src);
        }
        if rb.Done? && rb.ending.Retried? {
          assert Restored(tx1, rb.tx) == Restored(tx, rab.tx);
          assert rc1.Done?;
          Deeper(c, depth - 2, depth - 1, tag, src, Restored(tx1, rb.tx));
          assert rc == rc1;
          EitherAssociative(ra, rb, rc);
        }
      }
    }
  }

  // Where `or` promises more than the code keeps.

  function UnlessZero(): Val -> Prog {
    v => if v == 0 then Retry else Return(v)
  }

  function AlwaysRetry(): Val -> Prog {
    v => Retry
  }

  const OLD := Arc(Initial(0), 0)
  const NEW := Arc(Box(9, 0), 1)

  ghost function Holding(a: Arc): Store {
    imap x: Var :: if x == 0 then a else Arc(Initial(x), 0)
  }

  /** A blind write in the second branch hides what the first one read: both branches retry, the
      thread waits for nothing, and yet the atomic run on the changed store would commit. */
  lemma BlindWriteLosesWait()
    ensures var p := Prog.Or(Prog.Read(0, UnlessZero()), Prog.Write(0, 7, Retry), Id());
            var r := Attempt(p, 4, 1, Recorded([Load(0, OLD, 0)]));
            && r.Done? && r.ending == Retried && !r.agreed
            && (forall x :: Observed(r.tx.log, x) == None)
            && Direct(p, 4, Payloads(Holding(NEW))) == Committed(1, Payloads(Holding(NEW)))
  {
    var ls := [Load(0, OLD, 0)];
    var first := Exec(Prog.Read(0, UnlessZero()), 3, 1, Recorded(ls), EMPTY);
    assert first == Done(Retried, Tx(map[0 := LogVar.Read(OLD)], 0, 1), End, true);
    var b := Arc(Box(1, 0), 7);
    var second := Exec(Prog.Write(0, 7, Retry), 3, 1, Recorded(ls), Tx(map[], 0, 1));
    assert second == Done(Retried, Tx(map[0 := LogVar.Write(b)], 1, 1), End, true);
    assert !AgreesAt(second.tx.log, first.tx.log, 0);
  }

  /** A newer version read by the second branch replaces what the first one read: the thread waits
      for the newer box to go, although with it the first branch would commit. */
  lemma NewerVersionLosesWait()
    ensures var p := Prog.Or(Prog.Read(0, UnlessZero()), Prog.Read(0, AlwaysRetry()), Id());
            var r := Attempt(p, 4, 1, Recorded([Load(0, OLD, 0), Load(0, NEW, 1)]));
            && r.Done? && r.ending == Retried && !r.agreed
            && Unchanged(r.tx.log, Holding(NEW))
            && Direct(p, 4, Payloads(Holding(NEW))) == Committed(1, Payloads(Holding(NEW)))
  {
    var ls := [Load(0, OLD, 0), Load(0, NEW, 1)];
    var first := Exec(Prog.Read(0, UnlessZero()), 3, 1, Recorded(ls), EMPTY);
    assert first == Done(Retried, Tx(map[0 := LogVar.Read(OLD)], 0, 1), End, true);
    var second := Exec(Prog.Read(0, AlwaysRetry()), 3, 1, Recorded(ls), Tx(map[], 0, 1));
    assert second == Done(Retried, Tx(map[0 := LogVar.Read(NEW)], 0, 2), End, true);
    assert !AgreesAt(second.tx.log, first.tx.log, 0);
  }

  /** `or` is not left-biased at commit time: the second branch commits with a result that the
      atomic run on the same store does not have. */
  lemma CommitsSecondBranch()
    ensures var p := Prog.Or(Prog.Read(0, UnlessZero()), Return(2), Id());
            var r := Attempt(p, 4, 1, Recorded([Load(0, OLD, 0)]));
            && r.Done? && r.ending == Returned(2)
            && Valid(r.tx.log, Holding(NEW))
            && Direct(p, 4, Payloads(Holding(NEW))) == Committed(1, Payloads(Holding(NEW)))
  {
    var ls := [Load(0, OLD, 0)];
    var first := Exec(Prog.Read(0, UnlessZero()), 3, 1, Recorded(ls), EMPTY);
    assert first == Done(Retried, Tx(map[0 := LogVar.Read(OLD)], 0, 1), End, true);
    var second := Exec(Return(2), 3, 1, Recorded(ls), Tx(map[], 0, 1));
    assert second == Done(Returned(2), Tx(map[], 0, 1), End, true);
    assert Exec(Return(2), 3, 1, Recorded(ls), Merged(second.tx, first.tx)).Done?;
  }
}
