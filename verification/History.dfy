/** The serialized history: identities, and what reading the same box twice means. */
module History {
  import opened Boxes
  import opened LogVars
  import opened Programs
  import opened Engine
  import opened Attempts
  import opened Machine

  /** The run of an attempt that has made these loads. */
  ghost function JobRun(job: Job, loads: seq<Load>): Outcome {
    Attempt(job.prog, job.depth, job.tag, Recorded(loads))
  }

  /** Boxes allocated under one tag, each for one variable. */
  ghost predicate FreshWrites(w: map<Var, Arc>, tag: nat) {
    && (forall x | x in w :: w[x].id.Box? && w[x].id.tag == tag)
    && (forall x, y | x in w && y in w && x != y :: w[x].id != w[y].id)
  }

  /** The commit is the given attempt's, and everything it validated held just before it. */
  ghost predicate Explained(ev: Event, before: Store, e: nat)
    requires ev.Commit?
  {
    && ev.done == JobRun(ev.job, ev.loads)
    && ev.done.Done? && ev.done.ending.Returned?
    && ev.writes == Writes(ev.done.tx.log)
    && Valid(ev.done.tx.log, before)
    && ev.job.called <= ev.job.born <= e
  }

  ghost predicate EventOk(s: State, e: nat)
    requires |s.stores| == |s.history| + 1 && e < |s.history|
  {
    var ev := s.history[e];
    && ev.Tag() < s.nextTag
    && FreshWrites(ev.writes, ev.Tag())
    && s.stores[e + 1] == Overwrite(s.stores[e], ev.writes)
  }

  ghost predicate HistoryOk(s: State) {
    && |s.stores| == |s.history| + 1
    && (forall e: nat :: e < |s.history| ==> EventOk(s, e))
    && (forall e, f :: 0 <= e < f < |s.history| ==> s.history[e].Tag() != s.history[f].Tag())
    && (forall x: Var :: s.stores[0][x].id == Initial(x))
  }

  /** Every load returned what the logical store held when it was made, after the attempt began and
      not after the first `e` updates. */
  ghost predicate LoadedBy(stores: seq<Store>, job: Job, loads: seq<Load>, e: nat) {
    forall m :: 0 <= m < |loads| ==>
      && job.born <= loads[m].at <= e && loads[m].at < |stores|
      && stores[loads[m].at][loads[m].x] == loads[m].arc
  }

  ghost predicate AllExplained(s: State)
    requires |s.stores| == |s.history| + 1
  {
    forall e: nat :: e < |s.history| && s.history[e].Commit? ==>
      && Explained(s.history[e], s.stores[e], e)
      && LoadedBy(s.stores, s.history[e].job, s.history[e].loads, e)
  }

  /** The last update before the i-th store that wrote `x`, or -1. */
  function Writer(s: State, x: Var, i: nat): (w: int)
    requires i <= |s.history|
    ensures -1 <= w < i
  {
    if i == 0 then -1 else if x in s.history[i - 1].writes then i - 1 else Writer(s, x, i - 1)
  }

  lemma {:induction false} WriterWrote(s: State, x: Var, i: nat)
    requires HistoryOk(s) && i <= |s.history|
    ensures var w := Writer(s, x, i);
            if w < 0 then s.stores[i][x] == s.stores[0][x]
            else x in s.history[w].writes && s.stores[i][x] == s.history[w].writes[x]
  {
    if i > 0 {
      WriterWrote(s, x, i - 1);
      assert EventOk(s, i - 1);
    }
  }

  lemma {:induction false} WriterBetween(s: State, x: Var, i: nat, j: nat)
    requires i <= j <= |s.history|
    ensures var w := Writer(s, x, j);
            if w < i then w == Writer(s, x, i) && forall e :: i <= e < j ==> x !in s.history[e].writes
            else x in s.history[w].writes
  {
    if j > i {
      WriterBetween(s, x, i, j - 1);
    }
  }

  lemma BoxOrigin(s: State, x: Var, i: nat)
    requires HistoryOk(s) && i <= |s.history|
    ensures var w := Writer(s, x, i);
            var id := s.stores[i][x].id;
            if w < 0 then id == Initial(x) && s.stores[i][x] == s.stores[0][x]
            else x in s.history[w].writes && s.stores[i][x] == s.history[w].writes[x]
                 && id.Box? && id.tag == s.history[w].Tag()
  {
    WriterWrote(s, x, i);
    hide Writer;
    var w := Writer(s, x, i);
    if w >= 0 { assert EventOk(s, w); }
  }

  /** Identity means unchanged: the logical store holds boxes with the same identity at two moments
      exactly when no update in between wrote the variable, and then it holds the same box. */
  lemma IdentityMeansUnchanged(s: State, x: Var, i: nat, j: nat)
    requires HistoryOk(s) && i <= j <= |s.history|
    ensures PtrEq(s.stores[i][x], s.stores[j][x])
            <==> forall e :: i <= e < j ==> x !in s.history[e].writes
    ensures PtrEq(s.stores[i][x], s.stores[j][x]) ==> s.stores[i][x] == s.stores[j][x]
  {
    hide Writer, EventOk;
    BoxOrigin(s, x, i);
    BoxOrigin(s, x, j);
    WriterBetween(s, x, i, j);
    var v, w := Writer(s, x, i), Writer(s, x, j);
    if w >= i && v >= 0 {
      assert s.history[v].Tag() != s.history[w].Tag();
    }
  }

  /** Every box is installed in at most one variable and at most once. */
  lemma InstalledOnce(s: State, e: nat, f: nat, x: Var, y: Var)
    requires HistoryOk(s) && e < |s.history| && f < |s.history|
    requires x in s.history[e].writes && y in s.history[f].writes
    requires PtrEq(s.history[e].writes[x], s.history[f].writes[y])
    ensures e == f && x == y
  {
    assert EventOk(s, e) && EventOk(s, f);
  }
}
