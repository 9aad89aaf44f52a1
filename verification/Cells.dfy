/** The shared objects: wake-up blocks and the control blocks of variables. */
module Cells {
  import opened Boxes

  /** A thread, as far as parking is concerned. */
  class ThreadHandle {
    var token: bool

    constructor ()
      ensures !token
    {
      token := false;
    }

    method Unpark()
      modifies this`token
      ensures token
    {
      token := true;
    }
  }

  class ControlBlock {
    const thread: ThreadHandle
    var blocked: bool
    var strong: bool  // some strong reference exists, so a weak one can be upgraded

    constructor (current: ThreadHandle)
      ensures thread == current && blocked && strong
    {
      thread := current;
      blocked := true;
      strong := true;
    }

    /** Only the call that finds the block blocked wakes the thread. */
    method SetChanged()
      modifies this`blocked, thread`token
      ensures !blocked
      ensures thread.token == (old(thread.token) || old(blocked))
    {
      var was := blocked;
      blocked := false;
      if was {
        thread.Unpark();
      }
    }
  }

  /** The references on a list that can still be upgraded, in order. */
  function Alive(bs: seq<ControlBlock>): (r: seq<ControlBlock>)
    reads bs`strong
    ensures forall b | b in r :: b in bs && b.strong
    ensures forall b | b in bs && b.strong :: b in r
  {
    if bs == [] then [] else (if bs[0].strong then [bs[0]] else []) + Alive(bs[1..])
  }

  lemma {:induction false} AliveAppend(bs: seq<ControlBlock>, b: ControlBlock)
    ensures Alive(bs + [b]) == Alive(bs) + (if b.strong then [b] else [])
  {
    if bs == [] {
      assert bs + [b] == [b];
    } else {
      assert (bs + [b])[0] == bs[0] && (bs + [b])[1..] == bs[1..] + [b];
      AliveAppend(bs[1..], b);
    }
  }

  class VarControlBlock {
    var waiting: seq<ControlBlock>
    var dead: nat
    var value: Arc
    // the lock of `value`
    var readers: nat
    var writer: bool
    // how often the waiter list has been taken
    ghost var taken: nat

    constructor (initial: Arc)
      ensures waiting == [] && dead == 0 && value == initial && readers == 0 && !writer && taken == 0
    {
      waiting, dead, value, readers, writer, taken := [], 0, initial, 0, false, 0;
    }

    ghost predicate Unlocked()
      reads this
    {
      readers == 0 && !writer
    }

    method LockRead()
      requires !writer
      modifies this`readers
      ensures readers == old(readers) + 1
    {
      readers := readers + 1;
    }

    method UnlockRead()
      requires readers > 0
      modifies this`readers
      ensures readers == old(readers) - 1
    {
      readers := readers - 1;
    }

    method LockWrite()
      requires Unlocked()
      modifies this`writer
      ensures writer
    {
      writer := true;
    }

    method UnlockWrite()
      requires writer
      modifies this`writer
      ensures !writer
    {
      writer := false;
    }

    /** `read_ref_atomic` */
    method ReadRefAtomic() returns (a: Arc)
      requires !writer
      modifies this`readers
      ensures a == value && readers == old(readers)
    {
      LockRead();
      a := value;
      UnlockRead();
    }

    /** `write_atomic`: the value changes and nobody is woken. */
    method WriteAtomic(a: Arc)
      requires Unlocked()
      modifies this`value, this`writer
      ensures value == a && Unlocked()
    {
      LockWrite();
      value := a;
      UnlockWrite();
    }

    /** Every block on the list that still exists is informed, and the thread of each that was still
        blocked is unparked; the list is empty afterwards. */
    method WakeAll()
      modifies this`waiting, this`taken, waiting`blocked, (set b | b in waiting :: b.thread)`token
      ensures waiting == [] && taken == old(taken) + 1
      ensures forall b :: b in old(waiting) ==> b.blocked == (old(b.blocked) && !b.strong)
      ensures forall b :: b in old(waiting) && b.strong && old(b.blocked) ==> b.thread.token
      ensures forall b :: b in old(waiting) ==>
                (b.thread.token
                 <==> (old(b.thread.token)
                       || exists d :: d in old(waiting) && d.strong && old(d.blocked) && d.thread == b.thread))
    {
      var threads := waiting;
      waiting := [];
      taken := taken + 1;
      var i := 0;
      while i < |threads|
        invariant 0 <= i <= |threads|
        invariant waiting == [] && taken == old(taken) + 1 && threads == old(waiting)
        invariant forall b :: b in threads && b !in threads[..i] ==> b.blocked == old(b.blocked)
        invariant forall b :: b in threads[..i] ==> b.blocked == (old(b.blocked) && !b.strong)
        invariant forall b :: b in threads[..i] && b.strong && old(b.blocked) ==> b.thread.token
        invariant forall b :: b in threads ==>
                    (b.thread.token
                     <==> (old(b.thread.token)
                           || exists d :: d in threads[..i] && d.strong && old(d.blocked) && d.thread == b.thread))
      {
        var b := threads[i];
        assert threads[..i + 1] == threads[..i] + [b];
        if b.strong {
          b.SetChanged();
        }
        i := i + 1;
      }
      assert threads[..i] == threads;
    }

    /** `wait` */
    method Enlist(b: ControlBlock)
      modifies this`waiting
      ensures waiting == old(waiting) + [b]
    {
      waiting := waiting + [b];
    }

    /** The blocks of a list that can still be upgraded. */
    method Retain(all: seq<ControlBlock>) returns (kept: seq<ControlBlock>)
      ensures kept == Alive(all)
    {
      kept := [];
      for i := 0 to |all|
        invariant kept == Alive(all[..i])
      {
        AliveAppend(all[..i], all[i]);
        assert all[..i + 1] == all[..i] + [all[i]];
        if all[i].strong {
          kept := kept + [all[i]];
        }
      }
      assert all[..|all|] == all;
    }

    /** One more dead waiter; every 65th call sweeps the list. */
    method SetDead()
      modifies this`waiting, this`dead
      ensures old(dead) < 64 ==> dead == old(dead) + 1 && waiting == old(waiting)
      ensures old(dead) >= 64 ==> dead == 0 && waiting == Alive(old(waiting))
    {
      var deads := dead;
      dead := dead + 1;
      if deads >= 64 {
        dead := 0;
        var kept := Retain(waiting);
        waiting := kept;
      }
    }
  }
}
