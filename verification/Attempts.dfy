/** Whole attempts: one run of a transaction body from an empty log. */
module Attempts {
  import opened Boxes
  import opened LogVars
  import opened Programs
  import opened Engine
  import opened Observations
  import opened Sequential

  ghost function Attempt(p: Prog, depth: nat, tag: nat, src: Source): Outcome {
    Exec(p, depth, tag, src, EMPTY)
  }

  lemma EffectOfEmpty(s: Store)
    ensures Effect(map[], s) == Payloads(s)
    ensures Sees(map[], s)
  {}

  lemma EffectOfWrites(log: Log, s: Store)
    ensures Effect(log, s) == Payloads(Overwrite(s, Writes(log)))
  {}

  /** A live store serves every load, so a run can only end or run out of depth. */
  lemma {:induction false} LiveEnds(p: Prog, depth: nat, tag: nat, s: Store, tx: Tx)
    ensures var r := Exec(p, depth, tag, Live(s), tx); r.Done? || r.OutOfDepth?
    decreases depth, 0
  {
    if depth > 0 {
      match p
      case Read(x, k) =>
        if x in tx.log {
          LiveEnds(k(tx.log[x].Value().val), depth - 1, tag, s, Reread(tx, x));
        } else {
          LiveEnds(k(s[x].val), depth - 1, tag, s, Loaded(tx, x, s[x]));
        }
      case Write(x, v, next) => LiveEnds(next, depth - 1, tag, s, Written(tag, tx, x, v));
      case Or(first, second, k) =>
        LiveEnds(first, depth - 1, tag, s, tx);
        var r1 := Exec(first, depth - 1, tag, Live(s), tx);
        if r1.Done? && r1.ending.Returned? {
          LiveEnds(k(r1.ending.v), depth - 1, tag, s, r1.tx);
        } else if r1.Done? && r1.ending.Retried? {
          LiveEndsSecond(second, k, depth, tag, s, tx, r1);
        }
      case _ =>
    }
  }

  lemma {:induction false} LiveEndsSecond(second: Prog, k: Val -> Prog, depth: nat, tag: nat, s: Store,
                                          tx: Tx, r1: Outcome)
    requires depth > 0 && r1.Done?
    ensures var r := ExecSecond(second, k, depth, tag, Live(s), tx, r1); r.Done? || r.OutOfDepth?
    decreases depth - 1, 1
  {
    hide Exec;
    LiveEnds(second, depth - 1, tag, s, Restored(tx, r1.tx));
    var r2 := Exec(second, depth - 1, tag, Live(s), Restored(tx, r1.tx));
    if r2.Done? && r2.ending.Returned? {
      LiveEnds(k(r2.ending.v), depth - 1, tag, s, Merged(r2.tx, r1.tx));
    }
  }

  /** Without interference the engine is the direct-update semantics: same ending, and when the
      body returns, the log validates against the store and its writes produce the same store. */
  lemma SequentialAttempt(p: Prog, depth: nat, tag: nat, s: Store)
    ensures var r := Attempt(p, depth, tag, Live(s));
            match Direct(p, depth, Payloads(s))
            case Committed(v, vals) =>
              && r.Done? && r.ending == Returned(v)
              && Valid(r.tx.log, s)
              && Payloads(Overwrite(s, Writes(r.tx.log))) == vals
            case Blocked => r.Done? && r.ending == Retried
            case Aborted => r.Done? && r.ending == Failed
            case TooDeep => r.OutOfDepth?
  {
    hide Exec, Direct, Writes, Overwrite, Effect;
    LiveEnds(p, depth, tag, s, EMPTY);
    EffectOfEmpty(s);
    Faithful(p, depth, tag, Live(s), EMPTY, s);
    var r := Attempt(p, depth, tag, Live(s));
    if r.Done? {
      ExecGrows(p, depth, tag, Live(s), EMPTY);
      SeesKept(Live(s), tag, s, EMPTY, r);
      EffectOfWrites(r.tx.log, s);
    }
  }

  /** What a returned attempt is, on any store where everything its log validates still holds: the
      atomic run of its surviving branches.  Its loads may have come from anywhere. */
  lemma AttemptReplays(p: Prog, depth: nat, tag: nat, ls: seq<Load>, s: Store)
    requires var r := Attempt(p, depth, tag, Recorded(ls));
             r.Done? && r.ending.Returned? && Valid(r.tx.log, s)
    ensures var r := Attempt(p, depth, tag, Recorded(ls));
            Along(p, depth, Payloads(s), r.path)
            == Committed(r.ending.v, Payloads(Overwrite(s, Writes(r.tx.log))))
  {
    hide Exec, Along, Effect, Valid, Writes;
    EffectOfEmpty(s);
    Replay(p, depth, tag, Recorded(ls), EMPTY, s);
    EffectOfWrites(Attempt(p, depth, tag, Recorded(ls)).tx.log, s);
  }

  /** A store holds what a log waits for, by pointer comparison. */
  ghost predicate Unchanged(log: Log, s: Store) {
    forall x :: Observed(log, x).Some? ==> PtrEq(s[x], Observed(log, x).value)
  }

  /** Boxes that the loads and the store share are told apart by their identities. */
  ghost predicate SameBoxes(ls: seq<Load>, s: Store) {
    forall m :: 0 <= m < |ls| && PtrEq(s[ls[m].x], ls[m].arc) ==> s[ls[m].x] == ls[m].arc
  }

  /** A store that still holds everything an attempt waits for holds everything it loaded, if
      agreement held at every merge. */
  lemma UnchangedServes(p: Prog, depth: nat, tag: nat, ls: seq<Load>, s: Store)
    requires var r := Attempt(p, depth, tag, Recorded(ls));
             r.Done? && !r.ending.Failed? && r.agreed && Unchanged(r.tx.log, s)
    requires SameBoxes(ls, s)
    ensures Served(Recorded(ls), s, 0, Attempt(p, depth, tag, Recorded(ls)))
  {
    hide Exec;
    var r := Attempt(p, depth, tag, Recorded(ls));
    WaitSet(p, depth, tag, ls, EMPTY);
    forall m | 0 <= m < r.tx.i && m < |ls| ensures s[ls[m].x] == ls[m].arc {
      assert WaitsOn(r.tx.log, ls[m].x, ls[m].arc);
    }
  }

  /** Retry soundness of one attempt: if agreement held at every merge, then on any store that
      still holds everything the attempt waits for, the atomic run blocks again. */
  lemma RetryReplays(p: Prog, depth: nat, tag: nat, ls: seq<Load>, s: Store)
    requires var r := Attempt(p, depth, tag, Recorded(ls));
             r.Done? && r.ending.Retried? && r.agreed && Unchanged(r.tx.log, s)
    requires SameBoxes(ls, s)
    ensures Direct(p, depth, Payloads(s)) == Blocked
  {
    hide Exec, Direct, Served, Effect, Unchanged;
    UnchangedServes(p, depth, tag, ls, s);
    EffectOfEmpty(s);
    Faithful(p, depth, tag, Recorded(ls), EMPTY, s);
  }

  /** If moreover everything observed on abandoned branches still holds, a returned attempt is the
      left-biased atomic run itself. */
  lemma CurrentIsLeftBiased(p: Prog, depth: nat, tag: nat, ls: seq<Load>, s: Store)
    requires var r := Attempt(p, depth, tag, Recorded(ls));
             r.Done? && r.ending.Returned? && r.agreed && Unchanged(r.tx.log, s)
    requires SameBoxes(ls, s)
    ensures var r := Attempt(p, depth, tag, Recorded(ls));
            Direct(p, depth, Payloads(s))
            == Committed(r.ending.v, Payloads(Overwrite(s, Writes(r.tx.log))))
  {
    hide Exec, Direct, Served, Effect, Unchanged, Overwrite, Writes;
    UnchangedServes(p, depth, tag, ls, s);
    EffectOfEmpty(s);
    Faithful(p, depth, tag, Recorded(ls), EMPTY, s);
    EffectOfWrites(Attempt(p, depth, tag, Recorded(ls)).tx.log, s);
  }

  /** A run of a body that uses no `or` takes no branches, and agreement is never in question. */
  lemma {:induction false} OrFreeRun(p: Prog, depth: nat, tag: nat, src: Source, tx: Tx)
    requires OrFree(p, depth) && Exec(p, depth, tag, src, tx).Done?
    ensures var r := Exec(p, depth, tag, src, tx); r.path == End && r.agreed
    decreases depth
  {
    match p
    case Read(x, k) =>
      if x in tx.log {
        OrFreeRun(k(tx.log[x].Value().val), depth - 1, tag, src, Reread(tx, x));
      } else {
        var a := Fetch(src, x, tx.i).arc;
        OrFreeRun(k(a.val), depth - 1, tag, src, Loaded(tx, x, a));
      }
    case Write(x, v, next) => OrFreeRun(next, depth - 1, tag, src, Written(tag, tx, x, v));
    case _ =>
  }

  /** What the log of an attempt holds. */
  lemma AttemptLog(p: Prog, depth: nat, tag: nat, ls: seq<Load>)
    requires Attempt(p, depth, tag, Recorded(ls)).Done?
    ensures var tx := Attempt(p, depth, tag, Recorded(ls)).tx;
            && FreshBoxes(tx.log, tag, tx.n)
            && tx.i <= |ls|
            && (forall x :: Observed(tx.log, x).Some? ==>
                  LoadedBetween(Recorded(ls), 0, tx.i, x, Observed(tx.log, x).value))
  {
    hide Exec;
    ExecGrows(p, depth, tag, Recorded(ls), EMPTY);
  }
}
