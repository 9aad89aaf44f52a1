/** An attempt that is suspended at a load and resumed later continues the same run. */
module Suspension {
  import opened Boxes
  import opened LogVars
  import opened Programs
  import opened Engine
  import opened Observations

  /** Later loads do not change what a run did before it needed them. */
  lemma {:induction false} LaterLoads(p: Prog, depth: nat, tag: nat, ls: seq<Load>, more: seq<Load>, tx: Tx)
    requires ls <= more
    requires !Exec(p, depth, tag, Recorded(ls), tx).NeedLoad?
    ensures Exec(p, depth, tag, Recorded(more), tx) == Exec(p, depth, tag, Recorded(ls), tx)
    decreases depth, 0
  {
    if depth > 0 {
      match p
      case Read(x, k) =>
        if x in tx.log {
          LaterLoads(k(tx.log[x].Value().val), depth - 1, tag, ls, more, Reread(tx, x));
        } else {
          match Fetch(Recorded(ls), x, tx.i)
          case Got(a) => LaterLoads(k(a.val), depth - 1, tag, ls, more, Loaded(tx, x, a));
          case _ =>
        }
      case Write(x, v, next) => LaterLoads(next, depth - 1, tag, ls, more, Written(tag, tx, x, v));
      case Or(first, second, k) =>
        LaterLoads(first, depth - 1, tag, ls, more, tx);
        var r1 := Exec(first, depth - 1, tag, Recorded(ls), tx);
        if r1.Done? && r1.ending.Returned? {
          LaterLoads(k(r1.ending.v), depth - 1, tag, ls, more, r1.tx);
        } else if r1.Done? && r1.ending.Retried? {
          LaterLoadsSecond(second, k, depth, tag, ls, more, tx, r1);
        }
      case _ =>
    }
  }

  lemma {:induction false} LaterLoadsSecond(second: Prog, k: Val -> Prog, depth: nat, tag: nat,
                                            ls: seq<Load>, more: seq<Load>, tx: Tx, r1: Outcome)
    requires depth > 0 && r1.Done? && ls <= more
    requires !ExecSecond(second, k, depth, tag, Recorded(ls), tx, r1).NeedLoad?
    ensures ExecSecond(second, k, depth, tag, Recorded(more), tx, r1)
            == ExecSecond(second, k, depth, tag, Recorded(ls), tx, r1)
    decreases depth - 1, 1
  {
    hide Exec;
    LaterLoads(second, depth - 1, tag, ls, more, Restored(tx, r1.tx));
    var r2 := Exec(second, depth - 1, tag, Recorded(ls), Restored(tx, r1.tx));
    if r2.Done? && r2.ending.Returned? {
      LaterLoads(k(r2.ending.v), depth - 1, tag, ls, more, Merged(r2.tx, r1.tx));
    }
  }

  /** A run that did not run out of depth does the same at every larger depth. */
  lemma {:induction false} Deeper(p: Prog, depth: nat, more: nat, tag: nat, src: Source, tx: Tx)
    requires depth <= more
    requires !Exec(p, depth, tag, src, tx).OutOfDepth?
    ensures Exec(p, more, tag, src, tx) == Exec(p, depth, tag, src, tx)
    decreases depth, 0
  {
    match p
    case Read(x, k) =>
      if x in tx.log {
        Deeper(k(tx.log[x].Value().val), depth - 1, more - 1, tag, src, Reread(tx, x));
      } else {
        match Fetch(src, x, tx.i)
        case Got(a) => Deeper(k(a.val), depth - 1, more - 1, tag, src, Loaded(tx, x, a));
        case _ =>
      }
    case Write(x, v, next) => Deeper(next, depth - 1, more - 1, tag, src, Written(tag, tx, x, v));
    case Or(first, second, k) =>
      Deeper(first, depth - 1, more - 1, tag, src, tx);
      var r1 := Exec(first, depth - 1, tag, src, tx);
      if r1.Done? && r1.ending.Returned? {
        Deeper(k(r1.ending.v), depth - 1, more - 1, tag, src, r1.tx);
      } else if r1.Done? && r1.ending.Retried? {
        DeeperSecond(second, k, depth, more, tag, src, tx, r1);
      }
    case _ =>
  }

  lemma {:induction false} DeeperSecond(second: Prog, k: Val -> Prog, depth: nat, more: nat, tag: nat,
                                        src: Source, tx: Tx, r1: Outcome)
    requires 0 < depth <= more && r1.Done?
    requires !ExecSecond(second, k, depth, tag, src, tx, r1).OutOfDepth?
    ensures ExecSecond(second, k, more, tag, src, tx, r1) == ExecSecond(second, k, depth, tag, src, tx, r1)
    decreases depth - 1, 1
  {
    hide Exec;
    Deeper(second, depth - 1, more - 1, tag, src, Restored(tx, r1.tx));
    var r2 := Exec(second, depth - 1, tag, src, Restored(tx, r1.tx));
    if r2.Done? && r2.ending.Returned? {
      Deeper(k(r2.ending.v), depth - 1, more - 1, tag, src, Merged(r2.tx, r1.tx));
    }
  }

  /** Beyond its recorded loads a run asks for more and never goes off track. */
  lemma {:induction false} Exhausted(p: Prog, depth: nat, tag: nat, ls: seq<Load>, tx: Tx)
    requires tx.i >= |ls|
    ensures var r := Exec(p, depth, tag, Recorded(ls), tx); !r.OffTrack? && (r.Done? ==> r.tx.i == tx.i)
    decreases depth, 0
  {
    if depth > 0 {
      match p
      case Read(x, k) =>
        if x in tx.log { Exhausted(k(tx.log[x].Value().val), depth - 1, tag, ls, Reread(tx, x)); }
      case Write(x, v, next) => Exhausted(next, depth - 1, tag, ls, Written(tag, tx, x, v));
      case Or(first, second, k) =>
        Exhausted(first, depth - 1, tag, ls, tx);
        var r1 := Exec(first, depth - 1, tag, Recorded(ls), tx);
        if r1.Done? {
          if r1.ending.Returned? {
            Exhausted(k(r1.ending.v), depth - 1, tag, ls, r1.tx);
          } else if r1.ending.Retried? {
            ExhaustedSecond(second, k, depth, tag, ls, tx, r1);
          }
        }
      case _ =>
    }
  }

  lemma CursorAfter(p: Prog, depth: nat, tag: nat, ls: seq<Load>, tx: Tx)
    requires depth > 0 && Exec(p, depth - 1, tag, Recorded(ls), tx).Done?
    ensures var r := Exec(p, depth - 1, tag, Recorded(ls), tx);
            tx.i <= r.tx.i && (tx.i <= |ls| ==> r.tx.i <= |ls|)
  {
    ExecGrows(p, depth - 1, tag, Recorded(ls), tx);
    hide Exec;
  }

  lemma {:induction false} ExhaustedSecond(second: Prog, k: Val -> Prog, depth: nat, tag: nat,
                                           ls: seq<Load>, tx: Tx, r1: Outcome)
    requires depth > 0 && r1.Done? && r1.tx.i >= |ls|
    ensures var r := ExecSecond(second, k, depth, tag, Recorded(ls), tx, r1);
            !r.OffTrack? && (r.Done? ==> r.tx.i == r1.tx.i)
    decreases depth - 1, 1
  {
    hide Exec;
    var before := Restored(tx, r1.tx);
    Exhausted(second, depth - 1, tag, ls, before);
    var r2 := Exec(second, depth - 1, tag, Recorded(ls), before);
    if r2.Done? {
      if r2.ending.Returned? {
        Exhausted(k(r2.ending.v), depth - 1, tag, ls, Merged(r2.tx, r1.tx));
      }
    }
  }

  /** A run that needs a load of `x` goes on once that load has been made. */
  lemma {:induction false} Resume(p: Prog, depth: nat, tag: nat, ls: seq<Load>, l: Load, tx: Tx)
    requires tx.i <= |ls|
    requires var r := Exec(p, depth, tag, Recorded(ls), tx); r.NeedLoad? && r.x == l.x
    ensures var r := Exec(p, depth, tag, Recorded(ls + [l]), tx);
            !r.OffTrack? && (r.Done? ==> r.tx.i == |ls| + 1)
    decreases depth, 0
  {
    var more := ls + [l];
    match p
    case Read(x, k) =>
      if x in tx.log {
        Resume(k(tx.log[x].Value().val), depth - 1, tag, ls, l, Reread(tx, x));
      } else {
        match Fetch(Recorded(ls), x, tx.i)
        case Got(a) => Resume(k(a.val), depth - 1, tag, ls, l, Loaded(tx, x, a));
        case Missing => Exhausted(k(l.arc.val), depth - 1, tag, more, Loaded(tx, x, l.arc));
        case Mismatch =>
      }
    case Write(x, v, next) => Resume(next, depth - 1, tag, ls, l, Written(tag, tx, x, v));
    case Or(first, second, k) => ResumeOr(first, second, k, depth, tag, ls, l, tx);
    case _ =>
  }

  lemma {:induction false} ResumeOr(first: Prog, second: Prog, k: Val -> Prog, depth: nat, tag: nat,
                                    ls: seq<Load>, l: Load, tx: Tx)
    requires depth > 0 && tx.i <= |ls|
    requires var r := Exec(Prog.Or(first, second, k), depth, tag, Recorded(ls), tx); r.NeedLoad? && r.x == l.x
    ensures var r := Exec(Prog.Or(first, second, k), depth, tag, Recorded(ls + [l]), tx);
            !r.OffTrack? && (r.Done? ==> r.tx.i == |ls| + 1)
    decreases depth - 1, 2
  {
    var more := ls + [l];
    var r1 := Exec(first, depth - 1, tag, Recorded(ls), tx);
    if r1.NeedLoad? {
      Resume(first, depth - 1, tag, ls, l, tx);
      var q1 := Exec(first, depth - 1, tag, Recorded(more), tx);
      if q1.Done? {
        if q1.ending.Returned? {
          Exhausted(k(q1.ending.v), depth - 1, tag, more, q1.tx);
        } else if q1.ending.Retried? {
          ExhaustedSecond(second, k, depth, tag, more, tx, q1);
        }
      }
    } else {
      LaterLoads(first, depth - 1, tag, ls, more, tx);
      CursorAfter(first, depth, tag, ls, tx);
      if r1.ending.Returned? {
        Resume(k(r1.ending.v), depth - 1, tag, ls, l, r1.tx);
      } else {
        ResumeSecond(second, k, depth, tag, ls, l, tx, r1);
      }
    }
  }

  lemma {:induction false} ResumeSecond(second: Prog, k: Val -> Prog, depth: nat, tag: nat,
                                        ls: seq<Load>, l: Load, tx: Tx, r1: Outcome)
    requires depth > 0 && r1.Done? && r1.tx.i <= |ls|
    requires var r := ExecSecond(second, k, depth, tag, Recorded(ls), tx, r1); r.NeedLoad? && r.x == l.x
    ensures var r := ExecSecond(second, k, depth, tag, Recorded(ls + [l]), tx, r1);
            !r.OffTrack? && (r.Done? ==> r.tx.i == |ls| + 1)
    decreases depth - 1, 1
  {
    hide Exec;
    var more := ls + [l];
    var before := Restored(tx, r1.tx);
    var r2 := Exec(second, depth - 1, tag, Recorded(ls), before);
    if r2.NeedLoad? {
      Resume(second, depth - 1, tag, ls, l, before);
      var q2 := Exec(second, depth - 1, tag, Recorded(more), before);
      if q2.Done? && q2.ending.Returned? {
        Exhausted(k(q2.ending.v), depth - 1, tag, more, Merged(q2.tx, r1.tx));
      }
    } else {
      LaterLoads(second, depth - 1, tag, ls, more, before);
      CursorAfter(second, depth, tag, ls, before);
      Resume(k(r2.ending.v), depth - 1, tag, ls, l, Merged(r2.tx, r1.tx));
    }
  }
}
