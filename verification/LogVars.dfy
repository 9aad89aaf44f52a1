/** The five-state log entry: what was observed, what is pending, and whether the observation has
    to be validated at commit. */
module LogVars {
  import opened Boxes

  datatype LogVar =
    | Read(orig: Arc)
    | Write(w: Arc)
    | ReadWrite(orig: Arc, w: Arc)
    | ReadObsolete(orig: Arc)
    | ReadObsoleteWrite(orig: Arc, w: Arc)
  {
    /** The value a read through this entry returns. */
    function Value(): Arc {
      match this
      case Read(v) => v
      case Write(v) => v
      case ReadWrite(_, v) => v
      case ReadObsolete(v) => v
      case ReadObsoleteWrite(_, v) => v
    }

    /** The entry after a read: an obsolete observation becomes one that is validated. */
    function AfterRead(): LogVar {
      match this
      case ReadObsolete(v) => Read(v)
      case ReadObsoleteWrite(o, v) => ReadWrite(o, v)
      case _ => this
    }

    function AfterWrite(b: Arc): LogVar {
      match this
      case Write(_) => Write(b)
      case ReadObsolete(r) => ReadObsoleteWrite(r, b)
      case ReadObsoleteWrite(r, _) => ReadObsoleteWrite(r, b)
      case Read(r) => ReadWrite(r, b)
      case ReadWrite(r, _) => ReadWrite(r, b)
    }

    /** The value observed in the store, whether or not it is still to be validated. */
    function ReadValue(): Option<Arc> {
      match this
      case Read(v) => Some(v)
      case ReadWrite(v, _) => Some(v)
      case ReadObsolete(v) => Some(v)
      case ReadObsoleteWrite(v, _) => Some(v)
      case Write(_) => None
    }

    function Obsolete(): Option<LogVar> {
      match ReadValue()
      case Some(v) => Some(ReadObsolete(v))
      case None => None
    }

    /** The observation that commit compares with the variable. */
    function Checked(): Option<Arc> {
      match this
      case Read(v) => Some(v)
      case ReadWrite(v, _) => Some(v)
      case _ => None
    }

    /** The box that commit stores. */
    function Pending(): Option<Arc> {
      match this
      case Write(v) => Some(v)
      case ReadWrite(_, v) => Some(v)
      case ReadObsoleteWrite(_, v) => Some(v)
      case _ => None
    }
  }

  type Log = map<Var, LogVar>

  function Observed(log: Log, x: Var): Option<Arc> {
    if x in log then log[x].ReadValue() else None
  }

  function Validated(log: Log, x: Var): Option<Arc> {
    if x in log then log[x].Checked() else None
  }

  function Pending(log: Log, x: Var): Option<Arc> {
    if x in log then log[x].Pending() else None
  }

  /** What a commit of `log` installs. */
  function Writes(log: Log): map<Var, Arc> {
    map x | x in log && log[x].Pending().Some? :: log[x].Pending().value
  }

  /** The merge after both branches of an `or` have run: `other` is the abandoned first branch. */
  function Combine(self: Log, other: Log): Log {
    map x | x in self.Keys + other.Keys && (x in self || other[x].Obsolete().Some?)
      :: if x in self then self[x] else other[x].Obsolete().value
  }

  /** The side condition under which a merge loses no observation: where the abandoned branch
      observed a variable, the surviving log either has no entry or observed the same box. */
  predicate AgreesAt(self: Log, other: Log, x: Var) {
    Observed(other, x).Some? && x in self ==>
      Observed(self, x).Some? && PtrEq(Observed(self, x).value, Observed(other, x).value)
  }

  predicate Agreement(self: Log, other: Log) {
    forall x | x in other :: AgreesAt(self, other, x)
  }

  /** The log holds an observation of `x` with the identity of `a`: the thread would wait for `x`
      to stop holding `a`. */
  predicate WaitsOn(log: Log, x: Var, a: Arc) {
    Observed(log, x).Some? && PtrEq(Observed(log, x).value, a)
  }

  /** A single merge keeps waiting on an observation of the abandoned branch exactly when the two
      logs agree on that variable. */
  lemma CombineKeepsWaitIff(self: Log, other: Log, x: Var, a: Arc)
    requires Observed(other, x) == Some(a)
    ensures WaitsOn(Combine(self, other), x, a) <==> AgreesAt(self, other, x)
  {
    assert x in Combine(self, other);
  }

  /** Over all variables: the merge waits on everything either branch observed exactly when
      agreement holds. */
  lemma CombineWaitsIffAgreement(self: Log, other: Log)
    ensures forall x, a :: Observed(self, x) == Some(a) ==> WaitsOn(Combine(self, other), x, a)
    ensures (forall x, a :: Observed(other, x) == Some(a) ==> WaitsOn(Combine(self, other), x, a))
      <==> Agreement(self, other)
  {
    forall x, a | Observed(other, x) == Some(a)
      ensures WaitsOn(Combine(self, other), x, a) <==> AgreesAt(self, other, x)
    {
      CombineKeepsWaitIff(self, other, x, a);
    }
    if forall x, a :: Observed(other, x) == Some(a) ==> WaitsOn(Combine(self, other), x, a) {
      forall x | x in other ensures AgreesAt(self, other, x) {
        if Observed(other, x).Some? {
          assert WaitsOn(Combine(self, other), x, Observed(other, x).value);
        }
      }
    }
  }

  /** A merge never changes what is pending or what commit validates. */
  lemma CombineKeepsCommit(self: Log, other: Log)
    ensures Writes(Combine(self, other)) == Writes(self)
    ensures forall x :: Validated(Combine(self, other), x) == Validated(self, x)
    ensures forall x :: Pending(Combine(self, other), x) == Pending(self, x)
  {
  }

  /** The two ways of merging three branches differ exactly where the middle one blindly wrote a
      variable that the first one observed and the last one never touched. */
  lemma CombineAssociativeIff(c: Log, b: Log, a: Log)
    ensures Combine(c, Combine(b, a)) == Combine(Combine(c, b), a)
      <==> !exists x :: x !in c && x in b && b[x].Write? && Observed(a, x).Some?
  {
    var left, right := Combine(c, Combine(b, a)), Combine(Combine(c, b), a);
    if x :| x !in c && x in b && b[x].Write? && Observed(a, x).Some? {
      assert x in right && x !in left;
    } else {
      forall x ensures (x in left <==> x in right) && (x in left ==> left[x] == right[x]) {
        CombineAt(c, b, a, x);
      }
      assert left.Keys == right.Keys;
    }
  }

  lemma CombineAt(c: Log, b: Log, a: Log, x: Var)
    requires !(x !in c && x in b && b[x].Write? && Observed(a, x).Some?)
    ensures var left, right := Combine(c, Combine(b, a)), Combine(Combine(c, b), a);
            (x in left <==> x in right) && (x in left ==> left[x] == right[x])
  {}
}
