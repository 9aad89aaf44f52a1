/** User transactions and what they mean when run atomically, updating a store directly.

    A transaction body is a deterministic tree; a continuation receives the value just read or the
    result of an `or`.  Interpreters take a recursion `depth`: a body that returns does so at some
    depth and at every larger one with the same outcome, and one that never returns is out of depth
    at all of them, so quantifying over depths quantifies over all terminating executions. */
module Programs {
  import opened Boxes

  datatype Prog =
    | Return(v: Val)
    | Retry
    | Fail
    | Read(x: Var, k: Val -> Prog)
    | Write(x: Var, v: Val, next: Prog)
    | Or(first: Prog, second: Prog, k: Val -> Prog)

  datatype Ending = Returned(v: Val) | Retried | Failed

  datatype Atomic = Committed(v: Val, vals: Vals) | Blocked | Aborted | TooDeep

  /** The atomic run: `or` takes its first branch unless that retries, and an abandoned branch
      leaves nothing behind. */
  ghost function Direct(p: Prog, depth: nat, s: Vals): Atomic
    decreases depth
  {
    if depth == 0 then TooDeep else
      match p
      case Return(v) => Committed(v, s)
      case Retry => Blocked
      case Fail => Aborted
      case Read(x, k) => Direct(k(s[x]), depth - 1, s)
      case Write(x, v, next) => Direct(next, depth - 1, s[x := v])
      case Or(first, second, k) =>
        match Direct(first, depth - 1, s)
        case Committed(v, s1) => Direct(k(v), depth - 1, s1)
        case Blocked =>
          (match Direct(second, depth - 1, s)
           case Committed(v, s1) => Direct(k(v), depth - 1, s1)
           case r => r)
        case r => r
  }

  /** Which branch every `or` on a path took. */
  datatype Path = End | Took(first: bool, branch: Path, rest: Path)

  /** The atomic run of the program with every `or` replaced by the branch that `path` names; the path
      has to name a branch for each `or` on it and no more. */
  ghost function Along(p: Prog, depth: nat, s: Vals, path: Path): Atomic
    decreases depth
  {
    if depth == 0 then TooDeep else
      match p
      case Return(v) => if path.End? then Committed(v, s) else Aborted
      case Retry => Blocked
      case Fail => Aborted
      case Read(x, k) => Along(k(s[x]), depth - 1, s, path)
      case Write(x, v, next) => Along(next, depth - 1, s[x := v], path)
      case Or(first, second, k) =>
        if path.End? then Aborted else
          match Along(if path.first then first else second, depth - 1, s, path.branch)
          case Committed(v, s1) => Along(k(v), depth - 1, s1, path.rest)
          case r => r
  }

  /** The body uses no `or`, whatever its reads return. */
  ghost predicate OrFree(p: Prog, depth: nat)
    decreases depth
  {
    depth == 0
    || match p
       case Return(_) => true
       case Retry => true
       case Fail => true
       case Read(_, k) => forall v :: OrFree(k(v), depth - 1)
       case Write(_, _, next) => OrFree(next, depth - 1)
       case Or(_, _, _) => false
  }

  /** No `or` on the path fell through to its second branch. */
  predicate FirstBranches(path: Path) {
    path.End? || (path.first && FirstBranches(path.branch) && FirstBranches(path.rest))
  }

  /** Every `or` on the path that took its second branch did so where the first one blocks. */
  ghost predicate Forced(p: Prog, depth: nat, s: Vals, path: Path)
    decreases depth
  {
    if depth == 0 then true else
      match p
      case Return(_) => true
      case Retry => true
      case Fail => true
      case Read(x, k) => Forced(k(s[x]), depth - 1, s, path)
      case Write(x, v, next) => Forced(next, depth - 1, s[x := v], path)
      case Or(first, second, k) =>
        if path.End? then true else
          var branch := if path.first then first else second;
          && (path.first || Direct(first, depth - 1, s).Blocked?)
          && Forced(branch, depth - 1, s, path.branch)
          && (match Along(branch, depth - 1, s, path.branch)
              case Committed(v, s1) => Forced(k(v), depth - 1, s1, path.rest)
              case _ => true)
  }

  lemma {:induction false} FirstBranchesForced(p: Prog, depth: nat, s: Vals, path: Path)
    requires FirstBranches(path)
    ensures Forced(p, depth, s, path)
    decreases depth
  {
    if depth > 0 {
      match p
      case Return(_) =>
      case Retry =>
      case Fail =>
      case Read(x, k) => FirstBranchesForced(k(s[x]), depth - 1, s, path);
      case Write(x, v, next) => FirstBranchesForced(next, depth - 1, s[x := v], path);
      case Or(first, second, k) =>
        if !path.End? {
          FirstBranchesForced(first, depth - 1, s, path.branch);
          match Along(first, depth - 1, s, path.branch)
          case Committed(v, s1) => FirstBranchesForced(k(v), depth - 1, s1, path.rest);
          case _ =>
        }
    }
  }

  /** The path the left-biased run takes: the one along which it stays itself. */
  ghost function DirectPath(p: Prog, depth: nat, s: Vals): Path
    decreases depth
  {
    if depth == 0 then End else
      match p
      case Return(_) => End
      case Retry => End
      case Fail => End
      case Read(x, k) => DirectPath(k(s[x]), depth - 1, s)
      case Write(x, v, next) => DirectPath(next, depth - 1, s[x := v])
      case Or(first, second, k) =>
        var took := !Direct(first, depth - 1, s).Blocked?;
        var branch := if took then first else second;
        match Direct(branch, depth - 1, s)
        case Committed(v, s1) =>
          Took(took, DirectPath(branch, depth - 1, s), DirectPath(k(v), depth - 1, s1))
        case _ => Took(took, DirectPath(branch, depth - 1, s), End)
  }

  lemma {:induction false} DirectIsAlong(p: Prog, depth: nat, s: Vals)
    requires Direct(p, depth, s).Committed?
    ensures Along(p, depth, s, DirectPath(p, depth, s)) == Direct(p, depth, s)
    ensures Forced(p, depth, s, DirectPath(p, depth, s))
    decreases depth
  {
    match p
    case Return(_) =>
    case Retry =>
    case Fail =>
    case Read(x, k) => DirectIsAlong(k(s[x]), depth - 1, s);
    case Write(x, v, next) => DirectIsAlong(next, depth - 1, s[x := v]);
    case Or(first, second, k) =>
      var took := !Direct(first, depth - 1, s).Blocked?;
      var branch := if took then first else second;
      DirectIsAlong(branch, depth - 1, s);
      var r := Direct(branch, depth - 1, s);
      DirectIsAlong(k(r.v), depth - 1, r.vals);
  }

  /** Along a forced path the fixed-branch run is the left-biased atomic run. */
  lemma {:induction false} ForcedIsDirect(p: Prog, depth: nat, s: Vals, path: Path)
    requires Along(p, depth, s, path).Committed? && Forced(p, depth, s, path)
    ensures Direct(p, depth, s) == Along(p, depth, s, path) && DirectPath(p, depth, s) == path
    decreases depth, 1
  {
    match p
    case Return(_) =>
    case Retry =>
    case Fail =>
    case Read(x, k) => ForcedIsDirect(k(s[x]), depth - 1, s, path);
    case Write(x, v, next) => ForcedIsDirect(next, depth - 1, s[x := v], path);
    case Or(first, second, k) => ForcedIsDirectOr(first, second, k, depth, s, path);
  }

  lemma {:induction false} ForcedIsDirectOr(first: Prog, second: Prog, k: Val -> Prog, depth: nat, s: Vals,
                                            path: Path)
    requires var p := Prog.Or(first, second, k);
             Along(p, depth, s, path).Committed? && Forced(p, depth, s, path)
    ensures var p := Prog.Or(first, second, k);
            Direct(p, depth, s) == Along(p, depth, s, path) && DirectPath(p, depth, s) == path
    decreases depth, 0
  {
    hide *;
    AlongOr(first, second, k, depth, s, path);
    var branch := if path.first then first else second;
    var r := Along(branch, depth - 1, s, path.branch);
    ForcedIsDirect(branch, depth - 1, s, path.branch);
    ForcedIsDirect(k(r.v), depth - 1, r.vals, path.rest);
    if path.first {
      DirectFirst(first, second, k, depth, s);
    } else {
      DirectSecond(first, second, k, depth, s);
    }
  }

  /** A forced run of an `or` along a path is one of the branch and one of what follows. */
  lemma AlongOr(first: Prog, second: Prog, k: Val -> Prog, depth: nat, s: Vals, path: Path)
    requires var p := Prog.Or(first, second, k);
             Along(p, depth, s, path).Committed? && Forced(p, depth, s, path)
    ensures depth > 0 && path.Took?
    ensures var branch := if path.first then first else second;
            var r := Along(branch, depth - 1, s, path.branch);
            && r.Committed? && Forced(branch, depth - 1, s, path.branch)
            && Along(k(r.v), depth - 1, r.vals, path.rest) == Along(Prog.Or(first, second, k), depth, s, path)
            && Forced(k(r.v), depth - 1, r.vals, path.rest)
            && (path.first || Direct(first, depth - 1, s).Blocked?)
  {}

  lemma DirectFirst(first: Prog, second: Prog, k: Val -> Prog, depth: nat, s: Vals)
    requires depth > 0 && Direct(first, depth - 1, s).Committed?
    ensures var p, r := Prog.Or(first, second, k), Direct(first, depth - 1, s);
            && Direct(p, depth, s) == Direct(k(r.v), depth - 1, r.vals)
            && DirectPath(p, depth, s)
               == Took(true, DirectPath(first, depth - 1, s), DirectPath(k(r.v), depth - 1, r.vals))
  {}

  lemma DirectSecond(first: Prog, second: Prog, k: Val -> Prog, depth: nat, s: Vals)
    requires depth > 0 && Direct(first, depth - 1, s).Blocked? && Direct(second, depth - 1, s).Committed?
    ensures var p, r := Prog.Or(first, second, k), Direct(second, depth - 1, s);
            && Direct(p, depth, s) == Direct(k(r.v), depth - 1, r.vals)
            && DirectPath(p, depth, s)
               == Took(false, DirectPath(second, depth - 1, s), DirectPath(k(r.v), depth - 1, r.vals))
  {}

  /** A run along a path is the left-biased run, branch by branch, exactly when every `or` on the path
      that took its second branch did so where the first one blocks. */
  lemma ForcedIff(p: Prog, depth: nat, s: Vals, path: Path)
    requires Along(p, depth, s, path).Committed?
    ensures Forced(p, depth, s, path)
            <==> Direct(p, depth, s) == Along(p, depth, s, path) && DirectPath(p, depth, s) == path
  {
    if Forced(p, depth, s, path) {
      ForcedIsDirect(p, depth, s, path);
    } else if Direct(p, depth, s).Committed? {
      DirectIsAlong(p, depth, s);
    }
  }

  /** A run that ended does the same at every larger depth. */
  lemma {:induction false} DirectDeeper(p: Prog, depth: nat, more: nat, s: Vals)
    requires depth <= more
    requires !Direct(p, depth, s).TooDeep?
    ensures Direct(p, more, s) == Direct(p, depth, s)
    decreases depth, 1
  {
    match p
    case Return(_) =>
    case Retry =>
    case Fail =>
    case Read(x, k) => DirectDeeper(k(s[x]), depth - 1, more - 1, s);
    case Write(x, v, next) => DirectDeeper(next, depth - 1, more - 1, s[x := v]);
    case Or(first, second, k) => DirectDeeperOr(p, depth, more, s);
  }

  lemma {:induction false} DirectDeeperOr(p: Prog, depth: nat, more: nat, s: Vals)
    requires depth <= more && p.Or?
    requires !Direct(p, depth, s).TooDeep?
    ensures Direct(p, more, s) == Direct(p, depth, s)
    decreases depth, 0
  {
    var r := Direct(p.first, depth - 1, s);
    DirectDeeper(p.first, depth - 1, more - 1, s);
    if r.Blocked? {
      r := Direct(p.second, depth - 1, s);
      DirectDeeper(p.second, depth - 1, more - 1, s);
    }
    if r.Committed? {
      DirectDeeper(p.k(r.v), depth - 1, more - 1, r.vals);
    }
  }
}
