/** Every step keeps the wait invariant. */
module WaitSteps {
  import opened Boxes
  import opened LogVars
  import opened Engine
  import opened Sorting
  import opened Attempts
  import opened Machine
  import opened WaitInvariant

  lemma CbsStay(s: State, s': State, t: Tid)
    requires Moves(s, s', t) && s'.cbs == s.cbs
    requires forall c: nat :: c < |s.cbs| ==> CbOk(s, c)
    requires HasBlock(s.threads[t]) ==> HasBlock(s'.threads[t]) && s'.threads[t].cb == s.threads[t].cb
    ensures forall c: nat :: c < |s'.cbs| ==> CbOk(s', c)
  {
    forall c: nat | c < |s'.cbs| ensures CbOk(s', c) { assert CbOk(s, c); }
  }

  lemma WaitFact(s: State, t: Tid)
    requires WaitInv(s) && t < |s.threads|
    ensures WellFormed(s) && WaitOk(s, t, s.threads[t])
  {
    hide WaitOk, CbOk, ListsOk;
  }

  lemma CbFacts(s: State)
    requires WaitInv(s)
    ensures WellFormed(s) && forall c: nat :: c < |s.cbs| ==> CbOk(s, c)
    ensures ListsOk(s)
  {
    hide WaitOk, CbOk, ListsOk;
  }

  /** Steps by which a thread neither takes up nor lays down a block, nor wakes anybody. */
  lemma OutsideKeeps(s: State, s': State, t: Tid)
    requires WaitInv(s) && WaitQuiet(s, s', t) && s'.cbs == s.cbs
    requires var ph := s'.threads[t];
             && !HasBlock(s.threads[t]) && !HasBlock(ph)
             && (ph.Waking? ==> ph.taken == [] && ph.grip.NoGrip?)
    ensures WaitInv(s')
  {
    CbFacts(s);
    assert WaitOk(s', t, s'.threads[t]);
    hide WaitInv, WaitOk, CbOk, ListsOk;
    CbsStay(s, s', t);
    hide WaitQuiet;
    QuietKeeps(s, s', t);
  }

  lemma RunningKeeps(s: State, t: Tid, s': State)
    requires WaitInv(s)
    requires Loads(s, t, s') || StartsCommit(s, t, s') || GivesUp(s, t, s')
    ensures WaitInv(s')
  {
    hide WaitInv, RunOf, NoWriter;
    OutsideKeeps(s, s', t);
  }

  lemma RestartingKeeps(s: State, t: Tid, s': State)
    requires WaitInv(s)
    requires Reruns(s, t, s') || exists prog, depth :: Begins(s, t, prog, depth, s')
    ensures WaitInv(s')
  {
    hide WaitInv, RunOf;
    OutsideKeeps(s, s', t);
  }

  lemma LocksNextKeeps(s: State, t: Tid, s': State)
    requires WaitInv(s) && LocksNext(s, t, s')
    ensures WaitInv(s')
  {
    hide WaitInv, WaitQuiet;
    LocksNextFrame(s, t, s');
    hide LocksNext;
    OutsideKeeps(s, s', t);
  }

  lemma LocksNextFrame(s: State, t: Tid, s': State)
    requires LocksNext(s, t, s')
    ensures WaitQuiet(s, s', t) && s'.cbs == s.cbs
    ensures var ph' := s'.threads[t]; !HasBlock(s.threads[t]) && !HasBlock(ph') && !ph'.Waking?
  {
    LocksNextMoves(s, t, s');
    hide LocksNext;
  }

  lemma LocksNextMoves(s: State, t: Tid, s': State)
    requires LocksNext(s, t, s')
    ensures WellFormed(s) && WellFormed(s') && t < |s.threads| == |s'.threads|
    ensures forall u: nat :: u < |s.threads| && u != t ==> s'.threads[u] == s.threads[u]
    ensures s'.cells == s.cells && s'.waiters == s.waiters && s'.cbs == s.cbs && s'.tokens == s.tokens
    ensures s'.history == s.history
    ensures s.threads[t].Locking? && (s'.threads[t].Running? || s'.threads[t].Locking?)
  {
    hide CanLock, Stale;
  }

  lemma SerializesKeeps(s: State, t: Tid, s': State)
    requires WaitInv(s) && Serializes(s, t, s')
    ensures WaitInv(s')
  {
    hide WaitInv, Writes, InOrder;
    OutsideKeeps(s, s', t);
  }

  lemma FinishingKeeps(s: State, t: Tid, s': State)
    requires WaitInv(s) && (StartsWaking(s, t, s') || Finishes(s, t, s'))
    ensures WaitInv(s')
  {
    hide WaitInv;
    OutsideKeeps(s, s', t);
  }

  /** Steps by which a thread goes on waiting with its block. */
  lemma InsideKeeps(s: State, s': State, t: Tid)
    requires WaitInv(s) && WaitQuiet(s, s', t) && s'.cbs == s.cbs
    requires HasBlock(s.threads[t]) && HasBlock(s'.threads[t]) && s'.threads[t].cb == s.threads[t].cb
    requires WaitOk(s', t, s'.threads[t])
    ensures WaitInv(s')
  {
    CbFacts(s);
    hide WaitInv, WaitOk, CbOk, ListsOk;
    CbsStay(s, s', t);
    hide WaitQuiet;
    QuietKeeps(s, s', t);
  }

  lemma SamePromises(s: State, s': State, t: Tid, cb: CbId, loads: seq<Load>, log: Log, xs: seq<Var>)
    requires WaitQuiet(s, s', t) && s'.cbs == s.cbs && cb < |s.cbs|
    ensures Linked(s, cb, xs) ==> Linked(s', cb, xs)
    ensures Watched(s, loads, log, cb, xs) ==> Watched(s', loads, log, cb, xs)
    ensures BeingUnparked(s, cb) ==> BeingUnparked(s', cb)
  {
    QuietSame(s, s', t);
    ExcusedMore(s.history, s'.history);
    hide List, InFlight, WillWake, BeingUnparked, Holds, Excused;
  }

  lemma ChecksKeeps(s: State, t: Tid, s': State)
    requires WaitInv(s) && Checks(s, t, s')
    ensures WaitInv(s')
  {
    hide WaitInv, WaitOk, WaitQuiet;
    ChecksFrame(s, t, s');
    WaitFact(s, t);
    ChecksOk(s, t, s');
    hide Checks;
    InsideKeeps(s, s', t);
  }

  lemma ChecksFrame(s: State, t: Tid, s': State)
    requires Checks(s, t, s')
    ensures WaitQuiet(s, s', t) && s'.cbs == s.cbs
    ensures HasBlock(s.threads[t]) && HasBlock(s'.threads[t]) && s'.threads[t].cb == s.threads[t].cb
  {
    hide NoWriter;
  }

  lemma ChecksOk(s: State, t: Tid, s': State)
    requires Checks(s, t, s') && WaitQuiet(s, s', t) && s'.cbs == s.cbs && WaitOk(s, t, s.threads[t])
    ensures WaitOk(s', t, s'.threads[t])
  {
    hide NoWriter, WaitQuiet, Linked, Watched, Holds, BeingUnparked, WaitKeys;
    var ph, ph' := s.threads[t], s'.threads[t];
    SamePromises(s, s', t, ph.cb, ph.loads, ph.done.tx.log, ph.seen);
    SamePromises(s, s', t, ph.cb, ph.loads, ph.done.tx.log, ph.seen + [ph.todo[0]]);
    if ph'.Registering? {
      assert ph'.seen + ph'.todo == ph.seen + ph.todo;
      assert Holds(s'.cells, ph.done.tx.log, ph.todo[0]) by { FoundSame(s, t, s'); }
      OneMoreWatched(s', ph.cb, ph.loads, ph.done.tx.log, ph.seen, ph.todo[0]);
    }
  }

  lemma FoundSame(s: State, t: Tid, s': State)
    requires Checks(s, t, s') && s'.threads[t].Registering?
    ensures Holds(s'.cells, s.threads[t].done.tx.log, s.threads[t].todo[0])
  {
    hide NoWriter;
  }

  lemma OneMoreWatched(s: State, cb: CbId, loads: seq<Load>, log: Log, xs: seq<Var>, x: Var)
    requires cb < |s.cbs| && Watched(s, loads, log, cb, xs) && Holds(s.cells, log, x)
    ensures Watched(s, loads, log, cb, xs + [x])
  {
    hide Holds, InFlight, WillWake, Excused;
  }

  lemma BlocksKeeps(s: State, t: Tid, s': State)
    requires WaitInv(s) && Blocks(s, t, s')
    ensures WaitInv(s')
  {
    hide WaitInv;
    WaitFact(s, t);
    var ph := s.threads[t];
    assert ph.seen + ph.todo == ph.seen;
    SamePromises(s, s', t, ph.cb, ph.loads, ph.done.tx.log, ph.seen);
    hide Linked, Watched;
    InsideKeeps(s, s', t);
  }

  lemma IsUnparkedKeeps(s: State, t: Tid, spurious: bool, s': State)
    requires WaitInv(s) && IsUnparked(s, t, spurious, s')
    ensures WaitInv(s')
  {
    hide WaitInv;
    WaitFact(s, t);
    var ph := s.threads[t];
    SamePromises(s, s', t, ph.cb, ph.loads, ph.done.tx.log, ph.seen);
    hide Linked, Watched, BeingUnparked;
    InsideKeeps(s, s', t);
  }

  lemma PollsKeeps(s: State, t: Tid, s': State)
    requires WaitInv(s) && Polls(s, t, s')
    ensures WaitInv(s')
  {
    hide WaitInv;
    WaitFact(s, t);
    var ph := s.threads[t];
    SamePromises(s, s', t, ph.cb, ph.loads, ph.done.tx.log, ph.seen);
    hide Linked, Watched, BeingUnparked;
    InsideKeeps(s, s', t);
  }

  lemma NewBlock(s: State, s': State, t: Tid, ph: Phase)
    requires WellFormed(s) && t < |s.threads| && !HasBlock(s.threads[t])
    requires s' == s.(threads := s.threads[t := ph], cbs := s.cbs + [Cb(t, true, true, 0, {})])
    requires HasBlock(ph) && ph.cb == |s.cbs|
    requires forall c: nat :: c < |s.cbs| ==> CbOk(s, c)
    ensures forall c: nat :: c < |s'.cbs| ==> CbOk(s', c)
  {
    forall c: nat | c < |s'.cbs| ensures CbOk(s', c) {
      if c < |s.cbs| { assert CbOk(s, c); }
    }
  }

  lemma StartsWaitKeeps(s: State, t: Tid, s': State)
    requires WaitInv(s) && StartsWait(s, t, s')
    ensures WaitInv(s')
  {
    assert WellFormed(s);
    hide WaitInv, WaitOk, WaitQuiet, CbOk;
    StartsWaitFrame(s, t, s');
    StartsWaitOk(s, t, s');
    NewBlock(s, s', t, s'.threads[t]) by { CbFacts(s); }
    hide StartsWait;
    QuietKeeps(s, s', t);
  }

  lemma StartsWaitFrame(s: State, t: Tid, s': State)
    requires StartsWait(s, t, s')
    ensures WaitQuiet(s, s', t)
  {
    hide Attempt, WaitKeys;
  }

  lemma StartsWaitOk(s: State, t: Tid, s': State)
    requires StartsWait(s, t, s')
    ensures WaitOk(s', t, s'.threads[t])
  {
    hide Attempt, WaitKeys, List, InFlight, WillWake;
    assert s'.threads[t].seen + s'.threads[t].todo == s'.threads[t].todo;
  }

  lemma AnnouncesKeeps(s: State, t: Tid, s': State)
    requires WaitInv(s) && Announces(s, t, s')
    ensures WaitInv(s')
  {
    CbFacts(s);
    WaitFact(s, t);
    hide WaitInv;
    assert WaitQuiet(s, s', t) by { hide CbOk; }
    forall c: nat | c < |s'.cbs| ensures CbOk(s', c) { assert CbOk(s, c); }
    hide WaitQuiet, CbOk;
    assert WaitOk(s', t, s'.threads[t]);
    hide WaitOk, Announces;
    QuietKeeps(s, s', t);
  }

  lemma ResetsKeeps(s: State, t: Tid, s': State)
    requires WaitInv(s) && Resets(s, t, s')
    ensures WaitInv(s')
  {
    WaitFact(s, t);
    hide WaitInv, MutexFree;
    InsideKeeps(s, s', t);
  }

  lemma DropsBlockKeeps(s: State, t: Tid, s': State)
    requires WaitInv(s) && DropsBlock(s, t, s')
    ensures WaitInv(s')
  {
    CbFacts(s);
    WaitFact(s, t);
    hide WaitInv;
    assert WaitQuiet(s, s', t) by { hide CbOk; }
    forall c: nat | c < |s'.cbs| ensures CbOk(s', c) { assert CbOk(s, c); }
    hide WaitQuiet, CbOk;
    assert WaitOk(s', t, s'.threads[t]);
    hide WaitOk, DropsBlock;
    QuietKeeps(s, s', t);
  }

  // Steps that change a list

  /** The waiter lists change, in the hands of one thread, and nothing else that matters to others. */
  ghost predicate ListsMove(s: State, s': State, t: Tid) {
    && Moves(s, s', t) && s'.cells == s.cells && s'.history == s.history && s'.tokens == s.tokens
    && s'.cbs == s.cbs
    && var ph, ph' := s.threads[t], s'.threads[t];
       WakeVars(ph') == WakeVars(ph) && Taken(ph') == Taken(ph) && Unparking(ph') == Unparking(ph)
  }

  lemma ListsMoveSame(s: State, s': State, t: Tid)
    requires ListsMove(s, s', t)
    ensures forall x :: WillWake(s', x) <==> WillWake(s, x)
    ensures forall c :: InFlight(s', c) <==> InFlight(s, c)
    ensures forall c :: BeingUnparked(s', c) <==> BeingUnparked(s, c)
  {
    assert forall u: nat :: u < |s.threads| ==>
      WakeVars(s'.threads[u]) == WakeVars(s.threads[u]) && Taken(s'.threads[u]) == Taken(s.threads[u])
      && Unparking(s'.threads[u]) == Unparking(s.threads[u]);
    hide WakeVars, Taken, Unparking;
  }

  lemma ListsMoveKeeps(s: State, s': State, t: Tid)
    requires WaitInv(s) && ListsMove(s, s', t)
    requires forall x, c: nat :: c in List(s, x) && c < |s.cbs| && s.cbs[c].alive ==> c in List(s', x)
    requires HasBlock(s.threads[t]) && HasBlock(s'.threads[t]) && s'.threads[t].cb == s.threads[t].cb
    requires WaitOk(s', t, s'.threads[t]) && ListsOk(s')
    ensures WaitInv(s')
  {
    ListsMoveSame(s, s', t);
    CbFacts(s);
    CbsStay(s, s', t);
    hide List, InFlight, WillWake, BeingUnparked, CbOk, ListsOk;
    forall u: nat | u < |s.threads| && u != t && HasBlock(s.threads[u]) && s.threads[u].cb < |s.cbs|
      ensures Spares(s, s', u, s.threads[u].cb)
    {
      assert s.cbs[s.threads[u].cb].alive by { assert WaitOk(s, u, s.threads[u]); }
    }
    assert forall u: nat | Watcher(s, t, u) ::
             KeepsWatch(s, s', s.threads[u].loads, s.threads[u].done.tx.log, s.threads[u].cb, s.threads[u].seen) by {
      hide WaitOk;
    }
    hide WaitOk, Spares, KeepsWatch;
    Assemble(s, s', t);
  }

  lemma RegistersKeeps(s: State, t: Tid, s': State)
    requires WaitInv(s) && Registers(s, t, s')
    ensures WaitInv(s')
  {
    WaitFact(s, t);
    CbFacts(s);
    hide WaitInv, MutexFree, CbOk;
    var ph, ph' := s.threads[t], s'.threads[t];
    var x := ph.todo[0];
    assert ListsMove(s, s', t) by { hide WaitOk; }
    ListsMoveSame(s, s', t);
    assert forall y :: List(s', y) == if y == x then List(s, x) + [ph.cb] else List(s, y);
    hide ListsMove, List;
    assert Linked(s', ph.cb, ph.seen + [x]) by { hide InFlight; }
    assert Watched(s', ph.loads, ph.done.tx.log, ph.cb, ph.seen) by { hide WillWake, InFlight, Holds; }
    hide Linked, Watched, InFlight, WillWake;
    assert WaitOk(s', t, ph');
    hide WaitOk;
    assert ListsOk(s');
    hide ListsOk;
    ListsMoveKeeps(s, s', t);
  }

  /** A sweep removes no block that somebody still refers to, and adds none. */
  lemma ProbesList(s: State, t: Tid, s': State, c: CbId)
    requires Probes(s, t, s')
    ensures forall y :: c in List(s', y) ==> c in List(s, y)
    ensures c < |s.cbs| && Upgradable(s, c) ==> forall y :: c in List(s, y) ==> c in List(s', y)
  {
    var ph := s.threads[t];
    var x := ph.todo[0];
    var cs, pos := List(s, x), ph.gc.pos;
    assert cs == cs[..pos] + [cs[pos]] + cs[pos + 1..];
    hide Upgradable;
    assert forall y :: List(s', y) == List(s, y) || (y == x && List(s', x) == Without(cs, pos));
  }

  lemma ProbesKeeps(s: State, t: Tid, s': State)
    requires WaitInv(s) && Probes(s, t, s')
    ensures WaitInv(s')
  {
    hide WaitInv, CbOk, ListsOk, WaitOk, List;
    WaitFact(s, t);
    CbFacts(s);
    ProbesFrame(s, t, s');
    forall y, c: nat | c in List(s, y) && c < |s.cbs| && s.cbs[c].alive ensures c in List(s', y) {
      ProbesList(s, t, s', c);
      assert Upgradable(s, c);
    }
    forall y, c | c in List(s', y) ensures c in List(s, y) { ProbesList(s, t, s', c); }
    hide Probes, ListsMove;
    FewerOnLists(s, s');
    ListsMoveKeeps(s, s', t);
  }

  lemma ProbesFrame(s: State, t: Tid, s': State)
    requires Probes(s, t, s') && WaitOk(s, t, s.threads[t])
    ensures ListsMove(s, s', t) && WaitOk(s', t, s'.threads[t])
    ensures HasBlock(s.threads[t]) && HasBlock(s'.threads[t]) && s'.threads[t].cb == s.threads[t].cb
  {
    hide Upgradable, Without;
  }

  lemma SweepingKeeps(s: State, t: Tid, s': State)
    requires WaitInv(s) && (Unprobes(s, t, s') || EndsSweep(s, t, s'))
    ensures WaitInv(s')
  {
    WaitFact(s, t);
    hide WaitInv;
    InsideKeeps(s, s', t);
  }

  // Steps that store or wake

  /** The thread stores a value or hands a list or a token on; the blocks of others live on. */
  ghost predicate Wakes(s: State, s': State, t: Tid) {
    && Moves(s, s', t) && |s'.cbs| == |s.cbs|
    && !HasBlock(s.threads[t]) && !HasBlock(s'.threads[t])
    && (forall u: nat :: u < |s.threads| && s.tokens[u] ==> s'.tokens[u])
    && (forall c: nat :: c < |s.cbs| ==>
          && s'.cbs[c].alive == s.cbs[c].alive
          && s'.cbs[c].wakers == s.cbs[c].wakers
             + (if s.cbs[c].blocked && !s'.cbs[c].blocked then 1 else 0))
  }

  lemma WakesKeeps(s: State, s': State, t: Tid)
    requires WaitInv(s) && Wakes(s, s', t)
    requires forall u: nat
               | u < |s.threads| && u != t && HasBlock(s.threads[u]) && BlockOk(s, u, s.threads[u].cb) ::
               Spares(s, s', u, s.threads[u].cb)
    requires forall u: nat | Watcher(s, t, u) && WaitOk(s, u, s.threads[u]) ::
               KeepsWatch(s, s', s.threads[u].loads, s.threads[u].done.tx.log, s.threads[u].cb, s.threads[u].seen)
    requires WaitOk(s', t, s'.threads[t]) && ListsOk(s')
    ensures WaitInv(s')
  {
    CbFacts(s);
    forall c: nat | c < |s'.cbs| ensures CbOk(s', c) {
      assert CbOk(s, c);
    }
    hide CbOk, ListsOk, Spares, KeepsWatch;
    forall u: nat | u < |s.threads| && u != t && HasBlock(s.threads[u]) && s.threads[u].cb < |s.cbs|
      ensures Spares(s, s', u, s.threads[u].cb)
    {
      assert WaitOk(s, u, s.threads[u]);
    }
    hide WaitOk;
    forall u: nat | Watcher(s, t, u)
      ensures KeepsWatch(s, s', s.threads[u].loads, s.threads[u].done.tx.log, s.threads[u].cb, s.threads[u].seen)
    {
      WaitFact(s, u);
    }
    hide Wakes;
    WakesMoves(s, s', t);
    Assemble(s, s', t);
  }

  lemma WakesMoves(s: State, s': State, t: Tid)
    requires Wakes(s, s', t)
    ensures Moves(s, s', t)
    ensures forall u: nat :: u < |s.threads| && s.tokens[u] ==> s'.tokens[u]
  {}

  lemma FewerOnLists(s: State, s': State)
    requires ListsOk(s) && |s.cbs| <= |s'.cbs|
    requires forall y, c :: c in List(s', y) ==> c in List(s, y)
    ensures ListsOk(s')
  {
    hide List;
  }

  lemma WritesBackEffect(s: State, t: Tid, s': State, x: Var)
    requires WritesBack(s, t, s') && x == s.threads[t].todo[0]
    ensures forall y :: WillWake(s, y) ==> WillWake(s', y)
    ensures WillWake(s', x)
    ensures forall c :: InFlight(s', c) <==> InFlight(s, c)
    ensures forall c :: BeingUnparked(s', c) <==> BeingUnparked(s, c)
    ensures forall y :: List(s', y) == List(s, y)
    ensures forall y: Var :: y != x ==> s'.cells[y] == s.cells[y]
    ensures s'.cbs == s.cbs && s'.history == s.history
    ensures Wakes(s, s', t) && WaitOk(s', t, s'.threads[t])
  {
    var ph, ph' := s.threads[t], s'.threads[t];
    assert Wakes(s, s', t);
    hide Wakes;
    assert x in WakeVars(ph') && WakeVars(ph) <= WakeVars(ph');
    assert Taken(ph') == Taken(ph) && Unparking(ph') == Unparking(ph);
    assert forall u: nat :: u < |s.threads| && u != t ==> s'.threads[u] == s.threads[u];
    hide WakeVars, Taken, Unparking;
  }

  /** A store: whoever watches the variable is going to be woken. */
  lemma WritesBackKeeps(s: State, t: Tid, s': State)
    requires WaitInv(s) && WritesBack(s, t, s')
    ensures WaitInv(s')
  {
    CbFacts(s);
    hide WaitInv, WaitOk, CbOk, ListsOk;
    WritesBackEffect(s, t, s', s.threads[t].todo[0]);
    hide WillWake, InFlight, BeingUnparked, List, WritesBack, Wakes;
    FewerOnLists(s, s');
    WakesKeeps(s, s', t);
  }

  /** The time stamps of these loads lie in the past. */
  ghost predicate Dated(s: State, loads: seq<Load>) {
    forall m :: 0 <= m < |loads| ==> loads[m].at <= |s.history|
  }

  lemma ExcusedByWrite(s: State, t: Tid, x: Var, v: Val, s': State, loads: seq<Load>, log: Log)
    requires WritesAtomic(s, t, x, v, s') && Dated(s, loads)
    ensures Excused(s'.history, loads, log, x)
  {
    hide NoHolder;
    assert s'.history[|s.history|].Bare? && x in s'.history[|s.history|].writes;
  }

  /** A write outside transactions: it excuses whoever watches the variable. */
  lemma WritesAtomicKeeps(s: State, t: Tid, x: Var, v: Val, s': State)
    requires WaitInv(s) && WritesAtomic(s, t, x, v, s')
    requires forall u: nat | Watcher(s, t, u) :: Dated(s, s.threads[u].loads)
    ensures WaitInv(s')
  {
    CbFacts(s);
    hide WaitInv, CbOk, NoHolder, ListsOk;
    assert Wakes(s, s', t) && WaitOk(s', t, s'.threads[t]);
    hide WaitOk, Wakes;
    assert forall y :: WillWake(s', y) <==> WillWake(s, y);
    assert forall c :: InFlight(s', c) <==> InFlight(s, c);
    assert forall c :: BeingUnparked(s', c) <==> BeingUnparked(s, c);
    assert forall y :: List(s', y) == List(s, y);
    hide WillWake, InFlight, BeingUnparked, List;
    FewerOnLists(s, s');
    assert forall y: Var :: y != x ==> s'.cells[y] == s.cells[y];
    assert s'.cbs == s.cbs && s.history <= s'.history;
    ExcusedMore(s.history, s'.history);
    forall u: nat | Watcher(s, t, u)
      ensures KeepsWatch(s, s', s.threads[u].loads, s.threads[u].done.tx.log, s.threads[u].cb, s.threads[u].seen)
    {
      ExcusedByWrite(s, t, x, v, s', s.threads[u].loads, s.threads[u].done.tx.log);
      hide WritesAtomic, Excused, Holds;
    }
    hide WritesAtomic, KeepsWatch, Excused;
    WakesKeeps(s, s', t);
  }

  /** Taking a list: every block on it is in flight from then on. */
  lemma TakesListKeeps(s: State, t: Tid, s': State)
    requires WaitInv(s) && TakesList(s, t, s')
    ensures WaitInv(s')
  {
    CbFacts(s);
    hide WaitInv, CbOk, MutexFree;
    var x := s.threads[t].todo[0];
    assert forall c :: c in List(s, x) ==> c < |s.cbs|;
    hide ListsOk, List;
    assert Wakes(s, s', t) && WaitOk(s', t, s'.threads[t]);
    hide WaitOk;
    TakesListEffect(s, t, s', x);
    FewerOnLists(s, s');
    hide WillWake, InFlight, BeingUnparked, List, TakesList, Wakes;
    forall u: nat | Watcher(s, t, u) && WaitOk(s, u, s.threads[u])
      ensures KeepsWatch(s, s', s.threads[u].loads, s.threads[u].done.tx.log, s.threads[u].cb, s.threads[u].seen)
    {
      SeenLinked(s, u, s.threads[u]);
    }
    WakesKeeps(s, s', t);
  }

  lemma SeenLinked(s: State, u: Tid, ph: Phase)
    requires u < |s.tokens| && InWait(ph) && ph.cb < |s.cbs| && WaitOk(s, u, ph)
    ensures Linked(s, ph.cb, ph.seen)
  {}

  lemma TakesListEffect(s: State, t: Tid, s': State, x: Var)
    requires TakesList(s, t, s') && x == s.threads[t].todo[0]
    ensures forall y :: y != x && WillWake(s, y) ==> WillWake(s', y)
    ensures forall c :: InFlight(s, c) || c in List(s, x) ==> InFlight(s', c)
    ensures forall c :: BeingUnparked(s', c) <==> BeingUnparked(s, c)
    ensures forall y :: List(s', y) == if y == x then [] else List(s, y)
    ensures s'.cells == s.cells && s'.cbs == s.cbs && s'.history == s.history
  {
    hide MutexFree;
    var ph, ph' := s.threads[t], s'.threads[t];
    assert Taken(ph') == List(s, x) && Taken(ph) == [];
    assert forall y :: y != x && y in WakeVars(ph) ==> y in WakeVars(ph');
    assert Unparking(ph') == Unparking(ph);
    assert forall u: nat :: u < |s.threads| && u != t ==> s'.threads[u] == s.threads[u];
    hide WakeVars, Taken, Unparking;
  }

  /** Upgrading a block: it fails only if its owner is gone. */
  lemma UpgradesKeeps(s: State, t: Tid, s': State)
    requires WaitInv(s) && Upgrades(s, t, s')
    ensures WaitInv(s')
  {
    hide WaitInv, WaitOk, CbOk, ListsOk, WillWake, InFlight, BeingUnparked, List, Wakes, Upgradable;
    WaitFact(s, t);
    CbFacts(s);
    UpgradesWakes(s, t, s');
    UpgradesEffect(s, t, s', s.threads[t].taken[0]);
    FewerOnLists(s, s');
    hide Upgrades;
    WakesKeeps(s, s', t);
  }

  lemma UpgradesWakes(s: State, t: Tid, s': State)
    requires Upgrades(s, t, s') && WaitOk(s, t, s.threads[t])
    ensures Wakes(s, s', t) && WaitOk(s', t, s'.threads[t])
  {
    hide Upgradable;
    var taken := s.threads[t].taken;
    assert forall d :: d in taken[1..] ==> d in taken;
  }

  lemma UpgradesEffect(s: State, t: Tid, s': State, c: CbId)
    requires Upgrades(s, t, s') && c == s.threads[t].taken[0]
    ensures forall y :: WillWake(s', y) <==> WillWake(s, y)
    ensures forall d :: InFlight(s, d) && (d != c || s.cbs[c].alive) ==> InFlight(s', d)
    ensures forall d :: InFlight(s', d) ==> InFlight(s, d)
    ensures forall d :: BeingUnparked(s', d) <==> BeingUnparked(s, d)
    ensures forall y :: List(s', y) == List(s, y)
    ensures s'.cells == s.cells && s'.history == s.history && s'.cbs == s.cbs
  {
    var ph, ph' := s.threads[t], s'.threads[t];
    assert s.cbs[c].alive ==> Upgradable(s, c);
    hide Upgradable;
    assert WakeVars(ph') == WakeVars(ph) && Unparking(ph') == Unparking(ph);
    assert Taken(ph) == [c] + ph.taken[1..];
    assert Taken(ph') == [c] + ph.taken[1..] || (Taken(ph') == ph.taken[1..] && !s.cbs[c].alive);
    assert forall u: nat :: u < |s.threads| && u != t ==> s'.threads[u] == s.threads[u];
    hide WakeVars, Taken, Unparking;
  }

  /** Informing a block: it is unblocked and its owner is going to be unparked. */
  lemma SetsChangedKeeps(s: State, t: Tid, s': State)
    requires WaitInv(s) && SetsChanged(s, t, s')
    ensures WaitInv(s')
  {
    hide WaitInv, WaitOk, CbOk, ListsOk, WillWake, InFlight, BeingUnparked, List, Wakes;
    WaitFact(s, t);
    CbFacts(s);
    SetsChangedWakes(s, t, s');
    SetsChangedEffect(s, t, s', s.threads[t].grip.c);
    FewerOnLists(s, s');
    hide SetsChanged;
    WakesKeeps(s, s', t);
  }

  lemma SetsChangedWakes(s: State, t: Tid, s': State)
    requires SetsChanged(s, t, s') && WaitOk(s, t, s.threads[t])
    ensures Wakes(s, s', t) && WaitOk(s', t, s'.threads[t])
  {}

  lemma SetsChangedEffect(s: State, t: Tid, s': State, c: CbId)
    requires SetsChanged(s, t, s') && c == s.threads[t].grip.c
    ensures forall y :: WillWake(s', y) <==> WillWake(s, y)
    ensures forall d :: d != c && InFlight(s, d) ==> InFlight(s', d)
    ensures forall d :: BeingUnparked(s, d) ==> BeingUnparked(s', d)
    ensures s.cbs[c].blocked ==> BeingUnparked(s', c)
    ensures !s'.cbs[c].blocked
    ensures forall d :: 0 <= d < |s.cbs| && d != c ==> s'.cbs[d] == s.cbs[d]
    ensures forall y :: List(s', y) == List(s, y)
    ensures s'.cells == s.cells && s'.history == s.history
  {
    var ph, ph' := s.threads[t], s'.threads[t];
    assert WakeVars(ph') == WakeVars(ph);
    assert Taken(ph') == ph.taken && Taken(ph) == [c] + ph.taken;
    assert Unparking(ph) == None;
    assert s.cbs[c].blocked ==> Unparking(ph') == Some(c);
    assert forall u: nat :: u < |s.threads| && u != t ==> s'.threads[u] == s.threads[u];
    hide WakeVars, Taken, Unparking;
  }

  lemma UnparksKeeps(s: State, t: Tid, s': State)
    requires WaitInv(s) && Unparks(s, t, s')
    ensures WaitInv(s')
  {
    WaitFact(s, t);
    CbFacts(s);
    hide WaitInv, CbOk, ListsOk;
    assert Wakes(s, s', t) && WaitOk(s', t, s'.threads[t]);
    hide WaitOk;
    UnparksEffect(s, t, s', s.threads[t].grip.c);
    FewerOnLists(s, s');
    hide WillWake, InFlight, BeingUnparked, List, Unparks, Wakes;
    WakesKeeps(s, s', t);
  }

  lemma UnparksEffect(s: State, t: Tid, s': State, c: CbId)
    requires Unparks(s, t, s') && s.threads[t].grip == MustUnpark(c)
    ensures forall y :: WillWake(s', y) <==> WillWake(s, y)
    ensures forall d :: InFlight(s', d) <==> InFlight(s, d)
    ensures forall d :: d != c && BeingUnparked(s, d) ==> BeingUnparked(s', d)
    ensures c < |s.cbs| && s.cbs[c].owner < |s'.tokens| && s'.tokens[s.cbs[c].owner]
    ensures forall y :: List(s', y) == List(s, y)
    ensures s'.cells == s.cells && s'.cbs == s.cbs && s'.history == s.history
  {
    var ph, ph' := s.threads[t], s'.threads[t];
    assert WakeVars(ph') == WakeVars(ph) && Taken(ph') == Taken(ph);
    assert Unparking(ph) == Some(c);
    assert forall u: nat :: u < |s.threads| && u != t ==> s'.threads[u] == s.threads[u];
    hide WakeVars, Taken, Unparking;
  }

  lemma ReleasesKeeps(s: State, t: Tid, s': State)
    requires WaitInv(s) && Releases(s, t, s')
    ensures WaitInv(s')
  {
    hide WaitInv, WaitOk, CbOk, ListsOk, WaitQuiet;
    CbFacts(s);
    WaitFact(s, t);
    ReleasesFrame(s, t, s');
    CbsStay(s, s', t);
    hide Releases;
    QuietKeeps(s, s', t);
  }

  lemma ReleasesFrame(s: State, t: Tid, s': State)
    requires Releases(s, t, s') && WaitOk(s, t, s.threads[t])
    ensures WaitQuiet(s, s', t) && Moves(s, s', t) && s'.cbs == s.cbs && !HasBlock(s.threads[t])
    ensures WaitOk(s', t, s'.threads[t])
  {}
}
