/** The steps of a commit that lock, serialize and store, and the write outside transactions. */
module CommitUpdates {
  import opened Boxes
  import opened LogVars
  import opened Engine
  import opened Observations
  import opened Attempts
  import opened Sorting
  import opened Machine
  import opened History
  import opened CommitInvariant
  import opened CommitSteps

  /** Everything an attempt observed is one of its loads. */
  lemma ObservedWasLoaded(job: Job, loads: seq<Load>, x: Var, a: Arc) returns (m: nat)
    requires JobRun(job, loads).Done? && Observed(JobRun(job, loads).tx.log, x) == Some(a)
    ensures m < |loads| && loads[m].x == x && loads[m].arc == a
  {
    hide Exec;
    AttemptLog(job.prog, job.depth, job.tag, loads);
    var tx := JobRun(job, loads).tx;
    assert LoadedBetween(Recorded(loads), 0, tx.i, x, a);
    m :| 0 <= m < tx.i && m < |loads| && loads[m].x == x && loads[m].arc == a;
  }

  /** An observation of an unfinished attempt, compared with the logical store of now: it is still
      there, or some update since the load, by another thread or outside transactions, wrote the
      variable. */
  lemma ObservationNow(s: State, job: Job, loads: seq<Load>, x: Var, a: Arc)
    requires WellFormed(s) && HistoryOk(s) && LoadsOk(s, job, loads)
    requires JobRun(job, loads).Done? && Observed(JobRun(job, loads).tx.log, x) == Some(a)
    ensures PtrEq(Now(s)[x], a) ==> Now(s)[x] == a
    ensures !PtrEq(Now(s)[x], a) ==>
              exists m: nat, e: nat :: UpdatedSince(s, loads, x, a, m, e) && job.born <= e
  {
    hide JobRun, HistoryOk;
    var m := ObservedWasLoaded(job, loads, x, a);
    IdentityMeansUnchanged(s, x, loads[m].at, |s.history|);
    if !PtrEq(Now(s)[x], a) {
      var e :| loads[m].at <= e < |s.history| && x in s.history[e].writes;
      assert UpdatedSince(s, loads, x, a, m, e);
    }
  }

  /** The `m`-th load returned `a` from `x`, and update `e`, which wrote `x`, came after it. */
  ghost predicate UpdatedSince(s: State, loads: seq<Load>, x: Var, a: Arc, m: nat, e: nat) {
    && m < |loads| && loads[m].x == x && loads[m].arc == a
    && loads[m].at <= e < |s.history| && x in s.history[e].writes
  }

  /** After some load of `a` from `x`, another thread's update wrote `x`. */
  ghost predicate Interfered(s: State, t: Tid, job: Job, loads: seq<Load>, x: Var, a: Arc) {
    exists m: nat, e: nat :: UpdatedSince(s, loads, x, a, m, e) && job.born <= e && s.history[e].tid != t
  }

  /** A failed validation has a cause: since the load that it is about, another thread's update wrote
      the variable. */
  lemma FailureHasCause(s: State, t: Tid)
    requires CommitInv(s) && t < |s.threads|
    requires var ph := s.threads[t];
             CanLockNext(s, t, ph) && Stale(s, ph.done.tx.log[ph.todo[0]], ph.todo[0])
    ensures var ph := s.threads[t];
            var x := ph.todo[0];
            Interfered(s, t, ph.job, ph.loads, x, ph.done.tx.log[x].Checked().value)
  {
    var ph := s.threads[t];
    var x := ph.todo[0];
    var a := ph.done.tx.log[x].Checked().value;
    assert NoWriter(s, t, x);
    LoadIsLogical(s, t, x);
    PhaseFact(s, t);
    assert HistoryOk(s);
    hide CommitInv, HistoryOk, JobRun, LocksOk, FailuresOk;
    assert Observed(ph.done.tx.log, x) == Some(a);
    ObservationNow(s, ph.job, ph.loads, x, a);
    var m: nat, e: nat :| UpdatedSince(s, ph.loads, x, a, m, e) && ph.job.born <= e;
    assert s.history[e].tid != t;
  }

  lemma FailureIsCharged(s: State, t: Tid)
    requires CommitInv(s) && t < |s.threads|
    requires var ph := s.threads[t];
             CanLockNext(s, t, ph) && Stale(s, ph.done.tx.log[ph.todo[0]], ph.todo[0])
    ensures s.failures[t] + 1 <= Others(s.history, |s.history|, t)
    ensures s.threads[t].job.called <= |s.history|
  {
    var ph := s.threads[t];
    FailureHasCause(s, t);
    hide CommitInv, CanLockNext, Stale;
    PhaseFact(s, t);
    assert JobOk(s, ph.job);
    hide PhaseOk;
    var x := ph.todo[0];
    var a := ph.done.tx.log[x].Checked().value;
    var m: nat, e: nat :| UpdatedSince(s, ph.loads, x, a, m, e) && ph.job.born <= e && s.history[e].tid != t;
    assert s.history[e].writes != map[];
    OthersMonotone(s.history, ph.job.born, |s.history|, t);
    assert FailuresOk(s, t) && Limit(s, t) == ph.job.born;
  }

  lemma LocksNextFails(s: State, t: Tid, s': State)
    requires CommitInv(s) && LocksNext(s, t, s')
    requires var ph := s.threads[t]; Stale(s, ph.done.tx.log[ph.todo[0]], ph.todo[0])
    ensures CommitInv(s')
  {
    hide CommitInv, CanLock, Others;
    FailureIsCharged(s, t);
    var job := s.threads[t].job.(tag := s.nextTag, born := |s.history|);
    assert StartsOver(s, s', t, job, s.failures[t] + 1);
    hide LocksNext, StartsOver;
    AgainKeeps(s, s', t, job, s.failures[t] + 1);
  }

  // Acquiring a lock

  lemma LocksAdvance(cells: Store, log: Log, todo: seq<Var>, rlocks: set<Var>, wlocks: set<Var>)
    requires LocksOk(cells, log, todo, rlocks, wlocks) && todo != []
    requires Validated(log, todo[0]).Some? ==> PtrEq(cells[todo[0]], Validated(log, todo[0]).value)
    ensures todo[0] in log
    ensures var x := todo[0];
            LocksOk(cells, log, todo[1..], if log[x].Read? then rlocks + {x} else rlocks,
                    if log[x].Pending().Some? then wlocks + {x} else wlocks)
  {
    var x, rest := todo[0], todo[1..];
    assert x in todo;
    assert forall y :: y in todo <==> y == x || y in rest;
    assert x !in rest;
    assert forall y :: y in rest ==> x < y;
  }

  lemma AcquiresPhase(s: State, t: Tid, s': State)
    requires CommitInv(s) && LocksNext(s, t, s')
    requires var ph := s.threads[t]; !Stale(s, ph.done.tx.log[ph.todo[0]], ph.todo[0])
    ensures PhaseOk(s', t, s'.threads[t])
  {
    hide CommitInv, CanLock;
    var ph := s.threads[t];
    PhaseFact(s, t);
    LocksAdvance(s.cells, ph.done.tx.log, ph.todo, ph.rlocks, ph.wlocks);
    LoadsMoved(s, s', ph.job, ph.loads);
    hide LocksOk, LoadsOk, JobRun, FailuresOk, Pending;
  }

  lemma AcquiresExclusively(s: State, t: Tid, s': State)
    requires CommitInv(s) && LocksNext(s, t, s')
    requires var ph := s.threads[t]; !Stale(s, ph.done.tx.log[ph.todo[0]], ph.todo[0])
    ensures Exclusive(s')
  {
    hide PhaseOk, FailuresOk, HistoryOk, AllExplained, TagsDistinct, Logical;
    var ph := s.threads[t];
    var x := ph.todo[0];
    var ph' := s'.threads[t];
    assert HeldReads(ph') <= HeldReads(ph) + {x} && HeldWrites(ph') <= HeldWrites(ph) + {x};
    assert x in HeldWrites(ph') && x !in HeldWrites(ph) ==> NoHolder(s, t, x);
    assert x in HeldReads(ph') && x !in HeldReads(ph) ==> NoWriter(s, t, x);
    hide LocksNext, HeldReads, HeldWrites;
    assert forall u :: 0 <= u < |s.threads| && u != t ==> s'.threads[u] == s.threads[u];
  }

  /** A step that moves one thread, leaving everything shared alone. */
  ghost predicate MovesOnly(s: State, s': State, t: Tid) {
    && WellFormed(s) && WellFormed(s') && t < |s.threads| == |s'.threads|
    && s'.cells == s.cells && s'.history == s.history && s'.stores == s.stores && s'.nextTag == s.nextTag
    && s'.failures == s.failures
    && forall u: nat :: u < |s.threads| && u != t ==> s'.threads[u] == s.threads[u]
  }

  lemma MovesOnlyKeeps(s: State, s': State, t: Tid)
    requires CommitInv(s) && MovesOnly(s, s', t)
    requires PhaseOk(s', t, s'.threads[t]) && Exclusive(s')
    requires Active(s.threads[t]) && Active(s'.threads[t]) && s'.threads[t].job == s.threads[t].job
    ensures CommitInv(s')
  {
    hide HistoryOk, Explained, LoadedBy, PhaseOk, Exclusive;
    MovesOnlyHistory(s, s', t);
    assert forall u: nat :: u < |s'.threads| ==> PhaseOk(s', u, s'.threads[u]) by {
      hide FailuresOk, AllExplained, TagsDistinct, Logical;
      forall u: nat | u < |s'.threads| ensures PhaseOk(s', u, s'.threads[u]) {
        if u != t { PhaseStays(s, s', t, u, s.threads[u]); }
      }
    }
    hide PhaseOk;
    assert forall u: nat :: u < |s'.threads| ==> FailuresOk(s', u) by {
      hide AllExplained, TagsDistinct, Logical;
      forall u: nat | u < |s'.threads| ensures FailuresOk(s', u) { assert FailuresOk(s, u); }
    }
    assert TagsDistinct(s') by { hide FailuresOk, AllExplained, Logical; }
    assert Logical(s') by {
      hide FailuresOk, AllExplained, TagsDistinct;
      MovesOnlyLogical(s, s', t);
    }
  }

  lemma MovesOnlyHistory(s: State, s': State, t: Tid)
    requires HistoryOk(s) && AllExplained(s) && MovesOnly(s, s', t)
    ensures HistoryOk(s') && AllExplained(s')
  {
    hide Explained, LoadedBy;
    forall e: nat | e < |s'.history| ensures EventOk(s', e) { assert EventOk(s, e); }
  }

  lemma MovesOnlyLogical(s: State, s': State, t: Tid)
    requires WellFormed(s) && Logical(s) && MovesOnly(s, s', t)
    requires Active(s.threads[t]) && Active(s'.threads[t])
    ensures Logical(s')
  {
    forall x: Var | Settled(s', x) ensures Now(s')[x] == s'.cells[x] {
      assert Settled(s, x) by {
        forall u | 0 <= u < |s.threads| ensures x !in Unwritten(s.threads[u]) {
          assert u != t ==> x !in Unwritten(s'.threads[u]);
        }
      }
    }
  }

  lemma LocksNextKeeps(s: State, t: Tid, s': State)
    requires CommitInv(s) && LocksNext(s, t, s')
    ensures CommitInv(s')
  {
    hide CommitInv, CanLock, Stale;
    var ph := s.threads[t];
    if Stale(s, ph.done.tx.log[ph.todo[0]], ph.todo[0]) {
      LocksNextFails(s, t, s');
    } else {
      AcquiresPhase(s, t, s');
      AcquiresExclusively(s, t, s');
      hide PhaseOk, Exclusive, MovesOnly;
      AcquiresMoves(s, t, s');
      MovesOnlyKeeps(s, s', t);
    }
  }

  lemma AcquiresMoves(s: State, t: Tid, s': State)
    requires LocksNext(s, t, s')
    requires var ph := s.threads[t]; !Stale(s, ph.done.tx.log[ph.todo[0]], ph.todo[0])
    ensures MovesOnly(s, s', t)
    ensures Active(s.threads[t]) && Active(s'.threads[t]) && s'.threads[t].job == s.threads[t].job
  {
    hide CanLock, Stale;
  }

  // New entries of the history

  /** One update is appended to the history and to the logical stores. */
  ghost predicate Appends(s: State, s': State, ev: Event) {
    && WellFormed(s) && WellFormed(s') && |s'.threads| == |s.threads|
    && s'.history == s.history + [ev] && s'.stores == s.stores + [Overwrite(Now(s), ev.writes)]
    && s'.failures == s.failures && s.nextTag <= s'.nextTag
    && ev.Tag() < s'.nextTag && FreshWrites(ev.writes, ev.Tag())
    && (forall e :: 0 <= e < |s.history| ==> s.history[e].Tag() != ev.Tag())
  }

  lemma AppendsHistory(s: State, s': State, ev: Event)
    requires HistoryOk(s) && Appends(s, s', ev)
    ensures HistoryOk(s')
  {
    var n := |s.history|;
    forall e: nat | e < n + 1 ensures EventOk(s', e) {
      if e < n {
        assert EventOk(s, e);
        assert s'.history[e] == s.history[e];
        assert s'.stores[e] == s.stores[e] && s'.stores[e + 1] == s.stores[e + 1];
      } else {
        assert s'.history[n] == ev && s'.stores[n] == Now(s);
      }
    }
    assert s'.stores[0] == s.stores[0];
    hide EventOk, FreshWrites;
  }

  lemma AppendsExplained(s: State, s': State, ev: Event)
    requires WellFormed(s) && AllExplained(s) && Appends(s, s', ev)
    requires ev.Commit? ==>
               Explained(ev, Now(s), |s.history|) && LoadedBy(s.stores, ev.job, ev.loads, |s.history|)
    ensures AllExplained(s')
  {
    hide Explained, FreshWrites, LoadedBy;
    forall e: nat | e < |s'.history| && s'.history[e].Commit?
      ensures Explained(s'.history[e], s'.stores[e], e)
      ensures LoadedBy(s'.stores, s'.history[e].job, s'.history[e].loads, e)
    {
      assert s'.stores[e] == s.stores[e];
      if e < |s.history| {
        assert s'.history[e] == s.history[e];
        assert Explained(s.history[e], s.stores[e], e);
      }
      LoadedByStays(s.stores, s'.stores, s'.history[e].job, s'.history[e].loads, e);
    }
  }

  lemma LoadedByStays(stores: seq<Store>, stores': seq<Store>, job: Job, loads: seq<Load>, e: nat)
    requires stores <= stores' && LoadedBy(stores, job, loads, e)
    ensures LoadedBy(stores', job, loads, e)
  {}

  lemma AppendsFailures(s: State, s': State, ev: Event, t: Tid)
    requires WellFormed(s) && Appends(s, s', ev) && t < |s.threads|
    requires forall u: nat :: u < |s.threads| ==> FailuresOk(s, u)
    requires forall u: nat :: u < |s.threads| && u != t ==> s'.threads[u] == s.threads[u]
    requires !Active(s'.threads[t])
    ensures forall u: nat :: u < |s'.threads| ==> FailuresOk(s', u)
  {
    hide FreshWrites;
    forall u: nat | u < |s'.threads| ensures FailuresOk(s', u) {
      assert FailuresOk(s, u);
      var m := Limit(s, u);
      OthersPrefix(s.history, s'.history, m, u);
      assert s.history <= s'.history;
      OthersMonotone(s'.history, m, Limit(s', u), u);
    }
  }

  lemma AppendsPhases(s: State, s': State, ev: Event, t: Tid)
    requires CommitInv(s) && Appends(s, s', ev) && ev.tid == t && t < |s.threads|
    requires forall u: nat :: u < |s.threads| && u != t ==> s'.threads[u] == s.threads[u]
    requires forall u: nat :: u < |s.threads| && u != t && Active(s.threads[u]) ==>
               s.threads[u].job.tag != ev.Tag()
    requires forall u: nat, x :: u < |s.threads| && u != t && x in HeldReads(s.threads[u]) ==>
               s'.cells[x] == s.cells[x]
    requires forall u: nat, x :: u < |s.threads| && u != t && x in HeldWrites(s.threads[u]) ==>
               s'.cells[x] == s.cells[x] && x !in ev.writes
    requires PhaseOk(s', t, s'.threads[t])
    ensures forall u: nat :: u < |s'.threads| ==> PhaseOk(s', u, s'.threads[u])
  {
    hide PhaseOk, FailuresOk, HistoryOk, AllExplained, Exclusive, TagsDistinct, Logical, FreshWrites, HeldReads;
    forall u: nat | u < |s'.threads| ensures PhaseOk(s', u, s'.threads[u]) {
      if u != t {
        assert Now(s') == Overwrite(Now(s), ev.writes);
        assert forall e :: |s.history| <= e < |s'.history| ==> s'.history[e] == ev;
        assert forall x :: x in Unwritten(s.threads[u]) ==> x in HeldWrites(s.threads[u]);
        PhaseStays(s, s', t, u, s.threads[u]);
      }
    }
  }

  // Serialization

  ghost function NewEvent(t: Tid, ph: Phase): Event
    requires ph.Locking? && ph.done.Done?
  {
    Commit(t, ph.job, ph.loads, ph.done, Writes(ph.done.tx.log))
  }

  lemma SerializesAppends(s: State, t: Tid, s': State)
    requires CommitInv(s) && Serializes(s, t, s')
    ensures Appends(s, s', NewEvent(t, s.threads[t]))
  {
    var ph := s.threads[t];
    PhaseFact(s, t);
    assert JobOk(s, ph.job) && Unpublished(s, t, ph.job) && ph.done == JobRun(ph.job, ph.loads);
    hide CommitInv, PhaseOk, FailuresOk, Exec;
    AttemptLog(ph.job.prog, ph.job.depth, ph.job.tag, ph.loads);
    hide JobRun, Attempt;
    FreshLogWrites(ph.done.tx.log, ph.job.tag, ph.done.tx.n);
  }

  lemma FreshLogWrites(log: Log, tag: nat, n: nat)
    requires FreshBoxes(log, tag, n)
    ensures FreshWrites(Writes(log), tag)
  {
    forall x | x in Writes(log) ensures Pending(log, x) == Some(Writes(log)[x]) {}
    hide Writes, Pending;
  }

  /** What a committer has locked nobody else is about to change. */
  lemma LockedIsCurrent(s: State, t: Tid, x: Var)
    requires CommitInv(s) && t < |s.threads| && s.threads[t].Locking?
    requires x in s.threads[t].wlocks || x in s.threads[t].rlocks
    ensures s.cells[x] == Now(s)[x]
  {
    assert NoWriter(s, t, x) by {
      hide PhaseOk, FailuresOk, HistoryOk, AllExplained, TagsDistinct, Logical;
      assert x in HeldWrites(s.threads[t]) || x in HeldReads(s.threads[t]);
    }
    hide CommitInv, NoWriter;
    LoadIsLogical(s, t, x);
  }

  /** A committer that has locked everything: everything it validated is what the logical store
      holds, and everything it is about to overwrite is up to date. */
  lemma AllLocked(s: State, t: Tid)
    requires CommitInv(s) && t < |s.threads| && CanSerialize(s.threads[t])
    ensures var ph := s.threads[t];
            && Valid(ph.done.tx.log, Now(s))
            && Writes(ph.done.tx.log).Keys == ph.wlocks
            && forall x :: x in ph.wlocks ==> s.cells[x] == Now(s)[x]
  {
    hide CommitInv, LocksOk, Writes, Valid;
    var ph := s.threads[t];
    var log := ph.done.tx.log;
    Basics(s);
    LocksHeld(s, t);
    LocksCover(s.cells, log, ph.rlocks, ph.wlocks);
    forall x | x in ph.wlocks ensures s.cells[x] == Now(s)[x] { LockedIsCurrent(s, t, x); }
    forall x | x in log && Validated(log, x).Some? ensures Now(s)[x] == Validated(log, x).value {
      ValidatedIsCurrent(s, t, x);
    }
    assert Valid(log, Now(s)) by { ValidIf(log, Now(s)); }
  }

  lemma ValidIf(log: Log, s: Store)
    requires forall x | x in log && Validated(log, x).Some? :: s[x] == Validated(log, x).value
    ensures Valid(log, s)
  {}

  lemma LocksHeld(s: State, t: Tid)
    requires CommitInv(s) && t < |s.threads| && CanSerialize(s.threads[t])
    ensures var ph := s.threads[t]; LocksOk(s.cells, ph.done.tx.log, [], ph.rlocks, ph.wlocks)
  {
    hide CommitInv, LocksOk, JobRun, LoadsOk, Unpublished, FailuresOk;
    PhaseFact(s, t);
  }

  lemma LocksCover(cells: Store, log: Log, rlocks: set<Var>, wlocks: set<Var>)
    requires LocksOk(cells, log, [], rlocks, wlocks)
    ensures Writes(log).Keys == wlocks
    ensures forall x :: x in log && Validated(log, x).Some? ==> x in rlocks || x in wlocks
  {}

  lemma ValidatedIsCurrent(s: State, t: Tid, x: Var)
    requires CommitInv(s) && t < |s.threads| && CanSerialize(s.threads[t])
    requires var ph := s.threads[t];
             (x in ph.rlocks || x in ph.wlocks) && Validated(ph.done.tx.log, x).Some?
    ensures Now(s)[x] == Validated(s.threads[t].done.tx.log, x).value
  {
    var ph := s.threads[t];
    var log := ph.done.tx.log;
    PhaseFact(s, t);
    assert HistoryOk(s);
    assert PtrEq(s.cells[x], Validated(log, x).value);
    assert Observed(log, x) == Validated(log, x);
    hide CommitInv, FailuresOk, HistoryOk, JobRun, LoadsOk, LocksOk;
    LockedIsCurrent(s, t, x);
    ObservationNow(s, ph.job, ph.loads, x, Validated(log, x).value);
  }

  lemma SerializesExplained(s: State, t: Tid)
    requires CommitInv(s) && t < |s.threads| && CanSerialize(s.threads[t])
    ensures Explained(NewEvent(t, s.threads[t]), Now(s), |s.history|)
    ensures LoadedBy(s.stores, s.threads[t].job, s.threads[t].loads, |s.history|)
  {
    var ph := s.threads[t];
    AllLocked(s, t);
    PhaseFact(s, t);
    assert LoadsOk(s, ph.job, ph.loads);
    hide CommitInv, FailuresOk, JobRun, LoadedBy, LocksOk, Unpublished, Valid, Writes;
  }

  lemma WritingStarts(s: State, s': State, t: Tid, ev: Event)
    requires Appends(s, s', ev) && ev.Commit? && ev.tid == t && s'.cells == s.cells
    requires forall x :: x in ev.writes ==> s.cells[x] == Now(s)[x]
    ensures PhaseOk(s', t, Writing(ev.job, |s.history|, InOrder(ev.writes.Keys), []))
  {
    hide FreshWrites, InOrder;
    var n := |s.history|;
    assert s'.history[n] == ev && s'.stores[n] == Now(s);
    var todo := InOrder(ev.writes.Keys);
    assert [] + todo == todo;
    hide Ascending;
    assert Published(s', t, ev.job, n);
    assert Now(s') == Overwrite(Now(s), ev.writes);
    assert WritingOk(s', t, Writing(ev.job, n, todo, []));
  }

  lemma SerializesPhase(s: State, t: Tid, s': State)
    requires CommitInv(s) && Serializes(s, t, s')
    ensures PhaseOk(s', t, s'.threads[t])
  {
    AllLocked(s, t);
    SerializesAppends(s, t, s');
    hide CommitInv, Valid, Appends, PhaseOk;
    WritingStarts(s, s', t, NewEvent(t, s.threads[t]));
  }

  lemma ExclusiveShrinks(s: State, s': State, t: Tid)
    requires Exclusive(s) && TagsDistinct(s) && t < |s.threads| == |s'.threads|
    requires forall u: nat :: u < |s.threads| && u != t ==> s'.threads[u] == s.threads[u]
    requires HeldReads(s'.threads[t]) <= HeldReads(s.threads[t])
    requires HeldWrites(s'.threads[t]) <= HeldWrites(s.threads[t])
    requires !Active(s'.threads[t])
    ensures Exclusive(s') && TagsDistinct(s')
  {
    hide HeldReads, HeldWrites;
  }

  lemma SerializesLocks(s: State, t: Tid, s': State)
    requires CommitInv(s) && Serializes(s, t, s')
    ensures t < |s.threads| == |s'.threads| && !Active(s'.threads[t])
    ensures HeldWrites(s'.threads[t]) == HeldWrites(s.threads[t]) && HeldReads(s'.threads[t]) == {}
    ensures forall u: nat :: u < |s.threads| && u != t ==> s'.threads[u] == s.threads[u]
  {
    var ph := s.threads[t];
    assert Writes(ph.done.tx.log).Keys == ph.wlocks by { AllLocked(s, t); }
    hide CommitInv, InOrder, Writes;
  }

  lemma SerializesPairs(s: State, t: Tid, s': State)
    requires CommitInv(s) && Serializes(s, t, s')
    ensures Exclusive(s') && TagsDistinct(s')
  {
    assert Exclusive(s) && TagsDistinct(s);
    hide Exclusive, TagsDistinct;
    SerializesLocks(s, t, s');
    hide CommitInv, Serializes, HeldReads, HeldWrites;
    ExclusiveShrinks(s, s', t);
  }

  lemma LogicalIf(s: State)
    requires WellFormed(s) && forall x: Var :: Settled(s, x) ==> Now(s)[x] == s.cells[x]
    ensures Logical(s)
  {}

  lemma LogicalAt(s: State, x: Var)
    requires WellFormed(s) && Logical(s) && Settled(s, x)
    ensures Now(s)[x] == s.cells[x]
  {}

  lemma SerializesLogical(s: State, t: Tid, s': State)
    requires CommitInv(s) && Serializes(s, t, s')
    ensures Logical(s')
  {
    Basics(s);
    assert Logical(s);
    hide CommitInv, Logical;
    var ev := NewEvent(t, s.threads[t]);
    assert Now(s') == Overwrite(Now(s), ev.writes);
    assert forall x :: x in Unwritten(s'.threads[t]) <==> x in ev.writes;
    assert forall u: nat :: u < |s.threads| && u != t ==> s'.threads[u] == s.threads[u];
    assert Unwritten(s.threads[t]) == {};
    assert s'.cells == s.cells;
    hide Serializes, NewEvent, Unwritten;
    assert forall x: Var :: Settled(s', x) ==> Now(s')[x] == s'.cells[x] by {
     forall x: Var | Settled(s', x) ensures Now(s')[x] == s'.cells[x] {
      assert x !in Unwritten(s'.threads[t]);
      assert Settled(s, x) by {
        forall u | 0 <= u < |s.threads| ensures x !in Unwritten(s.threads[u]) {
          assert u != t ==> x !in Unwritten(s'.threads[u]);
        }
      }
      assert Now(s)[x] == s.cells[x] by { LogicalAt(s, x); }
    }
    }
    LogicalIf(s');
  }

  /** The invariant from its parts, for a step that extends the history. */
  lemma AppendsKeeps(s: State, s': State, ev: Event, t: Tid)
    requires CommitInv(s) && Appends(s, s', ev) && t < |s.threads| && !Active(s'.threads[t])
    requires forall u: nat :: u < |s.threads| && u != t ==> s'.threads[u] == s.threads[u]
    requires ev.Commit? ==>
               Explained(ev, Now(s), |s.history|) && LoadedBy(s.stores, ev.job, ev.loads, |s.history|)
    requires forall u: nat :: u < |s'.threads| ==> PhaseOk(s', u, s'.threads[u])
    requires Exclusive(s') && TagsDistinct(s') && Logical(s')
    ensures CommitInv(s')
  {
    hide PhaseOk, Exclusive, TagsDistinct, Logical, HistoryOk, AllExplained, FailuresOk, Explained, LoadedBy;
    AppendsHistory(s, s', ev);
    AppendsExplained(s, s', ev);
    AppendsFailures(s, s', ev, t);
    hide Appends;
  }

  lemma SerializesPhases(s: State, t: Tid, s': State)
    requires CommitInv(s) && Serializes(s, t, s')
    ensures forall u: nat :: u < |s'.threads| ==> PhaseOk(s', u, s'.threads[u])
  {
    var ph := s.threads[t];
    var ev := NewEvent(t, ph);
    AllLocked(s, t);
    SerializesAppends(s, t, s');
    SerializesPhase(s, t, s');
    assert ev.writes.Keys == HeldWrites(ph) && s.cells == s'.cells;
    hide CommitInv, Valid, Appends, PhaseOk, Writes, Serializes, HeldWrites;
    OthersWrite(s, t, ev.writes.Keys);
    AppendsPhases(s, s', ev, t);
  }

  lemma OthersWrite(s: State, t: Tid, xs: set<Var>)
    requires CommitInv(s) && t < |s.threads| && xs == HeldWrites(s.threads[t])
    ensures forall u: nat, x :: u < |s.threads| && u != t && x in HeldWrites(s.threads[u]) ==> x !in xs
  {
    assert Exclusive(s);
    hide CommitInv, HeldWrites, HeldReads;
  }

  lemma SerializesKeeps(s: State, t: Tid, s': State)
    requires CommitInv(s) && Serializes(s, t, s')
    ensures CommitInv(s')
  {
    hide CommitInv, Explained, LoadedBy, Appends, PhaseOk, Exclusive, TagsDistinct, Logical;
    SerializesAppends(s, t, s');
    SerializesExplained(s, t);
    SerializesPhases(s, t, s');
    SerializesPairs(s, t, s');
    SerializesLogical(s, t, s');
    AppendsKeeps(s, s', NewEvent(t, s.threads[t]), t);
  }

  // Write-back

  lemma WritingAdvances(written: seq<Var>, todo: seq<Var>)
    requires todo != [] && Ascending(written + todo)
    ensures (written + [todo[0]]) + todo[1..] == written + todo
    ensures forall x :: x in todo[1..] ==> x in todo && x != todo[0]
  {
    forall x | x in todo[1..] ensures x != todo[0] {
      var i :| 1 <= i < |todo| && todo[i] == x;
      assert (written + todo)[|written|] == todo[0] && (written + todo)[|written| + i] == x;
    }
  }

  lemma WritingFact(s: State, t: Tid)
    requires CommitInv(s) && t < |s.threads| && s.threads[t].Writing?
    ensures WellFormed(s) && WritingOk(s, t, s.threads[t])
  {
    hide CommitInv, WritingOk;
    PhaseFact(s, t);
  }

  lemma WritingMoves(s: State, s': State, t: Tid, ph: Phase)
    requires WellFormed(s) && ph.Writing? && WritingOk(s, t, ph) && CanWriteBack(s, ph)
    requires t < |s.threads| && s' == DoWriteBack(s, t, ph)
    ensures WritingOk(s', t, s'.threads[t])
  {
    WritingAdvances(ph.written, ph.todo);
    hide Ascending;
    assert s'.cells == s.cells[ph.todo[0] := s.history[ph.index].writes[ph.todo[0]]];
  }

  lemma WritesBackPhase(s: State, t: Tid, s': State)
    requires CommitInv(s) && WritesBack(s, t, s')
    ensures PhaseOk(s', t, s'.threads[t])
  {
    hide CommitInv, WritingOk;
    WritingFact(s, t);
    WritingMoves(s, s', t, s.threads[t]);
  }

  lemma WritesBackFrame(s: State, t: Tid, s': State)
    requires CommitInv(s) && WritesBack(s, t, s')
    ensures t < |s.threads|
    ensures Grown(s, s') && s'.history == s.history && s'.stores == s.stores
    ensures forall u: nat :: u < |s.threads| && u != t ==> s'.threads[u] == s.threads[u]
    ensures s.threads[t].Writing? && s.threads[t].todo != []
    ensures s.threads[t].todo[0] in HeldWrites(s.threads[t])
    ensures forall y: Var :: y != s.threads[t].todo[0] ==> s'.cells[y] == s.cells[y]
  {
    hide CommitInv;
    assert s.threads[t].todo[0] in s.threads[t].todo;
  }

  lemma WritesBackPhases(s: State, t: Tid, s': State)
    requires CommitInv(s) && WritesBack(s, t, s')
    ensures forall u: nat :: u < |s'.threads| ==> PhaseOk(s', u, s'.threads[u])
  {
    WritesBackPhase(s, t, s');
    assert WellFormed(s') && |s'.threads| == |s.threads|;
    hide WritesBack, PhaseOk, CommitInv;
    forall u: nat | u < |s'.threads| ensures PhaseOk(s', u, s'.threads[u]) {
      if u != t { WritesBackOther(s, t, s', u); }
    }
  }

  lemma WritesBackOther(s: State, t: Tid, s': State, u: Tid)
    requires CommitInv(s) && WritesBack(s, t, s') && u < |s.threads| && u != t
    ensures WellFormed(s') && u < |s'.threads| && PhaseOk(s', u, s'.threads[u])
  {
    hide WritesBack, HeldReads, HeldWrites, PhaseOk, CommitInv;
    WritesBackFrame(s, t, s');
    OthersHold(s, t, u, s.threads[t].todo[0]);
    PhaseFact(s, u);
    PhaseApart(s, s', t, u, s.threads[t].todo[0], s.threads[u]);
  }

  lemma OthersHold(s: State, t: Tid, u: Tid, x: Var)
    requires CommitInv(s) && t < |s.threads| && u < |s.threads| && t != u && x in HeldWrites(s.threads[t])
    ensures x !in HeldReads(s.threads[u]) && x !in HeldWrites(s.threads[u])
  {
    assert Exclusive(s);
    hide CommitInv, HeldReads, HeldWrites;
  }

  /** A store to a variable that the thread has not locked leaves what its phase asserts alone. */
  lemma PhaseApart(s: State, s': State, t: Tid, u: Tid, x: Var, ph: Phase)
    requires Grown(s, s') && t != u && PhaseOk(s, u, ph) && s'.history == s.history && s'.stores == s.stores
    requires x !in HeldReads(ph) && x !in HeldWrites(ph) && forall y: Var :: y != x ==> s'.cells[y] == s.cells[y]
    ensures PhaseOk(s', u, ph)
  {
    hide *;
    SameNow(s, s');
    UnwrittenHeld(ph);
    PhaseStays(s, s', t, u, ph);
  }

  lemma SameNow(s: State, s': State)
    requires Grown(s, s') && s'.stores == s.stores
    ensures s.stores != [] && Now(s') == Now(s)
  {}

  lemma UnwrittenHeld(ph: Phase)
    ensures Unwritten(ph) <= HeldWrites(ph)
  {}

  lemma WritesBackPairs(s: State, t: Tid, s': State)
    requires CommitInv(s) && WritesBack(s, t, s')
    ensures Exclusive(s') && TagsDistinct(s')
  {
    assert Exclusive(s) && TagsDistinct(s);
    hide CommitInv, Exclusive, TagsDistinct;
    var ph, ph' := s.threads[t], s'.threads[t];
    assert HeldWrites(ph') <= HeldWrites(ph) && HeldReads(ph') == {} && !Active(ph');
    ExclusiveShrinks(s, s', t);
  }

  lemma WritesBackLogical(s: State, t: Tid, s': State)
    requires CommitInv(s) && WritesBack(s, t, s')
    ensures Logical(s')
  {
    Basics(s);
    PhaseFact(s, t);
    var ph, ph' := s.threads[t], s'.threads[t];
    var x := ph.todo[0];
    assert Logical(s);
    assert Now(s)[x] == s.history[ph.index].writes[x];
    hide CommitInv, Logical, PhaseOk, FailuresOk;
    assert forall y :: y in Unwritten(s.threads[t]) && y != x ==> y in Unwritten(s'.threads[t]);
    assert forall y: Var :: Settled(s', y) ==> Now(s')[y] == s'.cells[y] by {
      forall y: Var | Settled(s', y) ensures Now(s')[y] == s'.cells[y] {
        if y != x {
          assert Settled(s, y) by {
            forall u | 0 <= u < |s.threads| ensures y !in Unwritten(s.threads[u]) {
              assert y !in Unwritten(s'.threads[u]);
            }
          }
          LogicalAt(s, y);
        }
      }
    }
    LogicalIf(s');
  }

  lemma SameHistory(s: State, s': State)
    requires HistoryOk(s) && AllExplained(s)
    requires s'.history == s.history && s'.stores == s.stores && s'.nextTag == s.nextTag
    ensures HistoryOk(s') && AllExplained(s')
  {
    hide Explained, LoadedBy;
    forall e: nat | e < |s'.history| ensures EventOk(s', e) { assert EventOk(s, e); }
  }

  lemma SameFailures(s: State, s': State, t: Tid)
    requires WellFormed(s) && WellFormed(s') && t < |s.threads| == |s'.threads|
    requires s'.history == s.history && s'.failures == s.failures
    requires forall u: nat :: u < |s.threads| && u != t ==> s'.threads[u] == s.threads[u]
    requires !Active(s.threads[t]) && !Active(s'.threads[t])
    requires forall u: nat :: u < |s.threads| ==> FailuresOk(s, u)
    ensures forall u: nat :: u < |s'.threads| ==> FailuresOk(s', u)
  {
    forall u: nat | u < |s'.threads| ensures FailuresOk(s', u) { assert FailuresOk(s, u); }
  }

  lemma WritesBackKeeps(s: State, t: Tid, s': State)
    requires CommitInv(s) && WritesBack(s, t, s')
    ensures CommitInv(s')
  {
    hide PhaseOk, Exclusive, TagsDistinct, Logical, HistoryOk, AllExplained, FailuresOk;
    WritesBackPhases(s, t, s');
    WritesBackPairs(s, t, s');
    WritesBackLogical(s, t, s');
    SameHistory(s, s');
    SameFailures(s, s', t);
  }

  // Writes outside transactions

  lemma WritesAtomicAppends(s: State, t: Tid, x: Var, v: Val, s': State)
    requires CommitInv(s) && WritesAtomic(s, t, x, v, s')
    ensures Appends(s, s', Bare(t, s.nextTag, map[x := Arc(Box(s.nextTag, 0), v)]))
  {
    hide PhaseOk, FailuresOk, AllExplained, Exclusive, TagsDistinct, Logical;
    forall e: nat | e < |s.history| ensures s.history[e].Tag() != s.nextTag { assert EventOk(s, e); }
  }

  lemma WritesAtomicPhases(s: State, t: Tid, x: Var, v: Val, s': State)
    requires CommitInv(s) && WritesAtomic(s, t, x, v, s')
    ensures forall u: nat :: u < |s'.threads| ==> PhaseOk(s', u, s'.threads[u])
  {
    hide CommitInv, Appends, PhaseOk, HeldReads, HeldWrites;
    WritesAtomicAppends(s, t, x, v, s');
    ActiveTags(s);
    assert PhaseOk(s', t, s'.threads[t]) by { WritesAtomicPhase(s, t, x, v, s'); }
    assert NoHolder(s, t, x) && s'.threads == s.threads;
    hide WritesAtomic;
    AppendsPhases(s, s', Bare(t, s.nextTag, map[x := Arc(Box(s.nextTag, 0), v)]), t);
  }

  lemma WritesAtomicPhase(s: State, t: Tid, x: Var, v: Val, s': State)
    requires WritesAtomic(s, t, x, v, s')
    ensures PhaseOk(s', t, s'.threads[t])
  {
    hide NoHolder;
  }

  lemma WritesAtomicLogical(s: State, t: Tid, x: Var, v: Val, s': State)
    requires CommitInv(s) && WritesAtomic(s, t, x, v, s')
    ensures Logical(s')
  {
    Basics(s);
    assert Logical(s);
    hide CommitInv, Logical, NoHolder;
    assert forall y: Var :: Settled(s', y) ==> Now(s')[y] == s'.cells[y] by {
      forall y: Var | Settled(s', y) ensures Now(s')[y] == s'.cells[y] {
        assert Settled(s, y);
        LogicalAt(s, y);
      }
    }
    LogicalIf(s');
  }

  lemma SameThreads(s: State, s': State)
    requires s'.threads == s.threads && Exclusive(s) && TagsDistinct(s)
    ensures Exclusive(s') && TagsDistinct(s')
  {}

  lemma WritesAtomicKeeps(s: State, t: Tid, x: Var, v: Val, s': State)
    requires CommitInv(s) && WritesAtomic(s, t, x, v, s')
    ensures CommitInv(s')
  {
    WritesAtomicAppends(s, t, x, v, s');
    WritesAtomicPhases(s, t, x, v, s');
    WritesAtomicLogical(s, t, x, v, s');
    assert Exclusive(s) && TagsDistinct(s);
    hide CommitInv, Appends, PhaseOk, Exclusive, TagsDistinct, Logical, NoHolder;
    SameThreads(s, s');
    AppendsKeeps(s, s', Bare(t, s.nextTag, map[x := Arc(Box(s.nextTag, 0), v)]), t);
  }
}
