/** Variables, boxed values and stores.

    A transactional variable is identified by the address of its control block.  What a variable
    holds is a shared box: an immutable payload together with the identity of its allocation, which
    is what pointer comparison looks at. */
module Boxes {

  datatype Option<+T> = None | Some(value: T)

  type Var = nat  // the address of a control block
  type Val = int  // the payload of a box

  /** The identity of an allocation: the box a variable was created with, or the n-th box that the
      attempt (or atomic write) numbered `tag` allocated. */
  datatype Id = Initial(x: Var) | Box(tag: nat, n: nat)

  datatype Arc = Arc(id: Id, val: Val)

  /** Pointer comparison. */
  predicate PtrEq(a: Arc, b: Arc) {
    a.id == b.id
  }

  /** What every variable holds. */
  type Store = m: imap<Var, Arc> | forall x: Var :: x in m
    ghost witness imap x: Var :: Arc(Initial(x), 0)

  /** The payload of every variable. */
  type Vals = m: imap<Var, Val> | forall x: Var :: x in m
    ghost witness imap x: Var :: 0

  ghost function Payloads(s: Store): Vals {
    imap x: Var :: s[x].val
  }

  ghost function Overwrite(s: Store, w: map<Var, Arc>): Store {
    imap x: Var :: if x in w then w[x] else s[x]
  }
}
