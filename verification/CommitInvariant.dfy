/** What every step keeps about commits: locks, validation, the logical store and its history. */
module CommitInvariant {
  import opened Boxes
  import opened LogVars
  import opened Programs
  import opened Engine
  import opened Sorting
  import opened Machine
  import opened History

  ghost predicate JobOk(s: State, job: Job) {
    job.tag < s.nextTag && job.called <= job.born <= |s.history|
  }

  ghost predicate LoadsOk(s: State, job: Job, loads: seq<Load>) {
    LoadedBy(s.stores, job, loads, |s.history|)
  }

  /** Nothing of this attempt is in the history, nor anything of its thread since it began. */
  ghost predicate Unpublished(s: State, t: Tid, job: Job) {
    && (forall e :: 0 <= e < |s.history| ==> s.history[e].Tag() != job.tag)
    && (forall e :: job.born <= e < |s.history| ==> s.history[e].tid != t)
  }

  /** The variables before `todo` in the walk are locked as their entries demand and validated. */
  ghost predicate LocksOk(cells: Store, log: Log, todo: seq<Var>, rlocks: set<Var>, wlocks: set<Var>) {
    && Ascending(todo)
    && (forall x :: x in todo ==> x in log)
    && (forall x :: x in rlocks <==> x in log && x !in todo && log[x].Read?)
    && (forall x :: x in wlocks <==> x in log && x !in todo && log[x].Pending().Some?)
    && (forall x, y :: x in log && x !in todo && y in todo ==> x < y)
    && (forall x :: x in log && x !in todo && Validated(log, x).Some? ==>
          PtrEq(cells[x], Validated(log, x).value))
  }

  /** A commit being written back is an entry of the history; what is still to be written is already
      in the logical store, and the variable holds what the entry overwrote. */
  ghost predicate WritingOk(s: State, t: Tid, ph: Phase)
    requires ph.Writing? && WellFormed(s)
  {
    && Published(s, t, ph.job, ph.index)
    && Ascending(ph.written + ph.todo)
    && (forall x :: x in s.history[ph.index].writes <==> x in ph.written + ph.todo)
    && (forall x :: x in ph.todo ==>
          && Now(s)[x] == s.history[ph.index].writes[x]
          && s.cells[x] == s.stores[ph.index][x])
  }

  ghost predicate Published(s: State, t: Tid, job: Job, index: nat) {
    index < |s.history|
    && s.history[index].Commit? && s.history[index].tid == t && s.history[index].job == job
  }

  ghost predicate Retries(s: State, job: Job, loads: seq<Load>, done: Outcome) {
    && done == JobRun(job, loads) && done.Done? && done.ending.Retried?
    && JobOk(s, job) && LoadsOk(s, job, loads)
  }

  ghost predicate PhaseOk(s: State, t: Tid, ph: Phase)
    requires WellFormed(s)
  {
    match ph
    case Idle => true
    case Running(job, loads) =>
      JobOk(s, job) && LoadsOk(s, job, loads) && Unpublished(s, t, job) && !JobRun(job, loads).OffTrack?
    case Locking(job, loads, done, todo, rlocks, wlocks) =>
      && JobOk(s, job) && LoadsOk(s, job, loads) && Unpublished(s, t, job)
      && done == JobRun(job, loads) && done.Done? && done.ending.Returned?
      && LocksOk(s.cells, done.tx.log, todo, rlocks, wlocks)
    case Writing(_, _, _, _) => WritingOk(s, t, ph)
    case Waking(job, index, todo, _, _) =>
      Published(s, t, job, index) && Ascending(todo) && forall x :: x in todo ==> x in s.history[index].writes
    case Registering(job, loads, done, _, _, _) => Retries(s, job, loads, done)
    case Checking(job, loads, done, _, _, _) => Retries(s, job, loads, done)
    case Waiting(job, loads, done, _, _, _) => Retries(s, job, loads, done)
    case Cleaning(job, _, _, _) => JobOk(s, job)
  }

  predicate Active(ph: Phase) {
    ph.Running? || ph.Locking?
  }

  /** Reader/writer exclusion. */
  ghost predicate Exclusive(s: State) {
    forall t, u, x :: 0 <= t < |s.threads| && 0 <= u < |s.threads| && t != u && x in HeldWrites(s.threads[t])
      ==> x !in HeldReads(s.threads[u]) && x !in HeldWrites(s.threads[u])
  }

  ghost predicate TagsDistinct(s: State) {
    forall t, u | 0 <= t < |s.threads| && 0 <= u < |s.threads| && t != u ::
      Active(s.threads[t]) && Active(s.threads[u]) ==> s.threads[t].job.tag != s.threads[u].job.tag
  }

  /** No committer has yet to store a new value of `x`. */
  ghost predicate Settled(s: State, x: Var) {
    forall t :: 0 <= t < |s.threads| ==> x !in Unwritten(s.threads[t])
  }

  /** The logical store is the physical one, overridden by what committers have yet to store. */
  ghost predicate Logical(s: State)
    requires WellFormed(s)
  {
    forall x: Var :: Settled(s, x) ==> Now(s)[x] == s.cells[x]
  }

  /** The number of updates among the first `n` that threads other than `t` made with at least one
      write. */
  ghost function Others(h: seq<Event>, n: nat, t: Tid): nat
    requires n <= |h|
  {
    if n == 0 then 0 else
      Others(h, n - 1, t) + (if h[n - 1].tid != t && h[n - 1].writes != map[] then 1 else 0)
  }

  /** The updates that have had a chance to make an attempt of `t` fail so far. */
  function Limit(s: State, t: Tid): nat
    requires t < |s.threads|
  {
    if Active(s.threads[t]) then s.threads[t].job.born else |s.history|
  }

  ghost predicate FailuresOk(s: State, t: Tid)
    requires WellFormed(s) && t < |s.threads|
  {
    Limit(s, t) <= |s.history| && s.failures[t] <= Others(s.history, Limit(s, t), t)
  }

  ghost predicate CommitInv(s: State) {
    && WellFormed(s)
    && HistoryOk(s) && AllExplained(s)
    && (forall t: nat :: t < |s.threads| ==> PhaseOk(s, t, s.threads[t]))
    && (forall t: nat :: t < |s.threads| ==> FailuresOk(s, t))
    && Exclusive(s) && TagsDistinct(s) && Logical(s)
  }

  // Steps that touch neither the store nor the history

  /** The history only grows. */
  ghost predicate Grown(s: State, s': State) {
    && WellFormed(s) && WellFormed(s') && |s'.threads| == |s.threads|
    && s.history <= s'.history && s.stores <= s'.stores && s.nextTag <= s'.nextTag
  }

  lemma LoadsStay(s: State, s': State, job: Job, loads: seq<Load>)
    requires Grown(s, s') && LoadsOk(s, job, loads)
    ensures LoadsOk(s', job, loads)
  {
    forall m | 0 <= m < |loads|
      ensures job.born <= loads[m].at <= |s'.history| && loads[m].at < |s'.stores|
              && s'.stores[loads[m].at][loads[m].x] == loads[m].arc
    {
      assert s'.stores[loads[m].at] == s.stores[loads[m].at];
    }
  }

  lemma RetriesStays(s: State, s': State, job: Job, loads: seq<Load>, done: Outcome)
    requires Grown(s, s') && Retries(s, job, loads, done)
    ensures Retries(s', job, loads, done)
  {
    hide JobRun;
    LoadsStay(s, s', job, loads);
    hide LoadsOk;
  }

  lemma UnpublishedStays(s: State, s': State, t: Tid, u: Tid, job: Job)
    requires Grown(s, s') && t != u && Unpublished(s, u, job)
    requires forall e :: |s.history| <= e < |s'.history| ==>
               s'.history[e].tid == t && s'.history[e].Tag() != job.tag
    ensures Unpublished(s', u, job)
  {}

  lemma LocksStay(cells: Store, cells': Store, log: Log, todo: seq<Var>, rlocks: set<Var>, wlocks: set<Var>)
    requires LocksOk(cells, log, todo, rlocks, wlocks)
    requires forall x :: x in rlocks || x in wlocks ==> cells'[x] == cells[x]
    ensures LocksOk(cells', log, todo, rlocks, wlocks)
  {}

  lemma WritingStays(s: State, s': State, t: Tid, ph: Phase)
    requires Grown(s, s') && ph.Writing? && WritingOk(s, t, ph)
    requires forall x :: x in ph.todo ==> s'.cells[x] == s.cells[x] && Now(s')[x] == Now(s)[x]
    ensures WritingOk(s', t, ph)
  {
    assert s'.history[ph.index] == s.history[ph.index] && s'.stores[ph.index] == s.stores[ph.index];
    hide Ascending;
  }

  /** What a phase asserts survives a step of another thread, `t`. */
  lemma PhaseStays(s: State, s': State, t: Tid, u: Tid, ph: Phase)
    requires Grown(s, s') && t != u && PhaseOk(s, u, ph)
    requires forall e :: |s.history| <= e < |s'.history| ==> s'.history[e].tid == t
    requires Active(ph) ==> forall e :: |s.history| <= e < |s'.history| ==> s'.history[e].Tag() != ph.job.tag
    requires forall x :: x in HeldReads(ph) || x in HeldWrites(ph) ==> s'.cells[x] == s.cells[x]
    requires forall x :: x in Unwritten(ph) ==> Now(s')[x] == Now(s)[x]
    ensures PhaseOk(s', u, ph)
  {
    hide JobRun, LoadsOk, LocksOk, Unpublished, WritingOk, Retries;
    match ph
    case Running(job, loads) =>
      LoadsStay(s, s', job, loads);
      UnpublishedStays(s, s', t, u, job);
    case Locking(job, loads, done, todo, rlocks, wlocks) =>
      LoadsStay(s, s', job, loads);
      UnpublishedStays(s, s', t, u, job);
      LocksStay(s.cells, s'.cells, done.tx.log, todo, rlocks, wlocks);
    case Registering(job, loads, done, _, _, _) => RetriesStays(s, s', job, loads, done);
    case Checking(job, loads, done, _, _, _) => RetriesStays(s, s', job, loads, done);
    case Waiting(job, loads, done, _, _, _) => RetriesStays(s, s', job, loads, done);
    case Writing(_, _, _, _) => WritingStays(s, s', u, ph);
    case Waking(_, index, _, _, _) =>
      assert s'.history[index] == s.history[index];
    case _ =>
  }

  lemma {:induction false} OthersMonotone(h: seq<Event>, m: nat, n: nat, t: Tid)
    requires m <= n <= |h|
    ensures Others(h, m, t) <= Others(h, n, t)
    ensures (exists e :: m <= e < n && h[e].tid != t && h[e].writes != map[]) ==>
              Others(h, m, t) < Others(h, n, t)
  {
    if m < n {
      OthersMonotone(h, m, n - 1, t);
    }
  }

  lemma {:induction false} OthersPrefix(h: seq<Event>, h': seq<Event>, n: nat, t: Tid)
    requires h <= h' && n <= |h|
    ensures Others(h', n, t) == Others(h, n, t)
  {
    if n > 0 {
      OthersPrefix(h, h', n - 1, t);
    }
  }

  /** Only thread `t` moves, it acquires no lock and stores nothing; a tag it takes up is new. */
  ghost predicate Quiet(s: State, s': State, t: Tid) {
    && WellFormed(s) && WellFormed(s') && |s'.threads| == |s.threads| && t < |s.threads|
    && s'.cells == s.cells && s'.history == s.history && s'.stores == s.stores && s.nextTag <= s'.nextTag
    && (forall u: nat :: u < |s.threads| && u != t ==>
          s'.threads[u] == s.threads[u] && s'.failures[u] == s.failures[u])
    && var ph, ph' := s.threads[t], s'.threads[t];
       && HeldReads(ph') <= HeldReads(ph) && HeldWrites(ph') <= HeldWrites(ph)
       && Unwritten(ph') == Unwritten(ph)
       && (Active(ph') ==> (Active(ph) && ph'.job.tag == ph.job.tag) || ph'.job.tag == s.nextTag)
  }

  lemma QuietPhases(s: State, s': State, t: Tid)
    requires CommitInv(s) && Quiet(s, s', t) && PhaseOk(s', t, s'.threads[t])
    ensures forall u: nat :: u < |s'.threads| ==> PhaseOk(s', u, s'.threads[u])
  {
    hide PhaseOk, FailuresOk, HistoryOk, AllExplained, Exclusive, TagsDistinct, Logical;
    forall u: nat | u < |s'.threads| ensures PhaseOk(s', u, s'.threads[u]) {
      if u != t { PhaseStays(s, s', t, u, s.threads[u]); }
    }
  }

  lemma ActiveTags(s: State)
    requires CommitInv(s)
    ensures forall u: nat :: u < |s.threads| && Active(s.threads[u]) ==> s.threads[u].job.tag < s.nextTag
  {
    hide FailuresOk, HistoryOk, AllExplained, LocksOk, LoadsOk, Unpublished, JobRun;
    forall u: nat | u < |s.threads| && Active(s.threads[u]) ensures s.threads[u].job.tag < s.nextTag {
      assert PhaseOk(s, u, s.threads[u]);
    }
  }

  lemma QuietTags(s: State, s': State, t: Tid)
    requires TagsDistinct(s) && Quiet(s, s', t)
    requires forall u: nat :: u < |s.threads| && Active(s.threads[u]) ==> s.threads[u].job.tag < s.nextTag
    ensures TagsDistinct(s')
  {
    hide HeldReads, HeldWrites, Unwritten;
  }

  lemma QuietExclusive(s: State, s': State, t: Tid)
    requires Exclusive(s) && Quiet(s, s', t)
    ensures Exclusive(s')
  {
    hide HeldReads, HeldWrites, Unwritten, Active;
  }

  lemma QuietLogical(s: State, s': State, t: Tid)
    requires WellFormed(s) && Logical(s) && Quiet(s, s', t)
    ensures Logical(s')
  {
    hide HeldReads, HeldWrites, Unwritten, Active;
    forall x: Var | Settled(s', x) ensures Now(s')[x] == s'.cells[x] {
      assert Settled(s, x) by {
        forall u | 0 <= u < |s.threads| ensures x !in Unwritten(s.threads[u]) {
          assert Unwritten(s'.threads[u]) == Unwritten(s.threads[u]);
        }
      }
    }
  }

  lemma QuietHistory(s: State, s': State, t: Tid)
    requires CommitInv(s) && Quiet(s, s', t)
    ensures HistoryOk(s') && AllExplained(s')
  {
    hide PhaseOk, FailuresOk, Explained, LoadedBy;
    forall e: nat | e < |s'.history| ensures EventOk(s', e) { assert EventOk(s, e); }
  }

  lemma QuietFailures(s: State, s': State, t: Tid)
    requires CommitInv(s) && Quiet(s, s', t) && FailuresOk(s', t)
    ensures forall u: nat :: u < |s'.threads| ==> FailuresOk(s', u)
  {
    hide PhaseOk, HistoryOk, AllExplained;
    forall u: nat | u < |s'.threads| ensures FailuresOk(s', u) {
      if u != t { assert FailuresOk(s, u); }
    }
  }

  lemma QuietKeeps(s: State, s': State, t: Tid)
    requires CommitInv(s) && Quiet(s, s', t)
    requires PhaseOk(s', t, s'.threads[t]) && FailuresOk(s', t)
    ensures CommitInv(s')
  {
    QuietPhases(s, s', t);
    ActiveTags(s);
    QuietTags(s, s', t);
    QuietExclusive(s, s', t);
    QuietLogical(s, s', t);
    QuietHistory(s, s', t);
    QuietFailures(s, s', t);
    hide PhaseOk, FailuresOk, HistoryOk, AllExplained, Exclusive, TagsDistinct, Logical;
  }
}
