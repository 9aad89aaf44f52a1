/** The order in which a log is walked: by address. */
module Sorting {
  import opened Boxes

  predicate Ascending(xs: seq<Var>) {
    forall i, j :: 0 <= i < j < |xs| ==> xs[i] < xs[j]
  }

  ghost predicate Distinct<T>(xs: seq<T>) {
    forall i, j :: 0 <= i < j < |xs| ==> xs[i] != xs[j]
  }

  function Least(s: set<Var>): (m: Var)
    requires s != {}
    ensures m in s && forall x | x in s :: m <= x
  {
    LeastExists(s);
    var m :| m in s && forall x | x in s :: m <= x;
    m
  }

  lemma {:induction false} LeastExists(s: set<Var>)
    requires s != {}
    ensures exists m :: m in s && forall x | x in s :: m <= x
  {
    var y :| y in s;
    var rest := s - {y};
    if rest == {} {
      assert s == {y};
    } else {
      LeastExists(rest);
      var m :| m in rest && forall x | x in rest :: m <= x;
      if m < y { LeastIs(s, rest, y, m, m); } else { LeastIs(s, rest, y, m, y); }
    }
  }

  lemma LeastIs(s: set<Var>, rest: set<Var>, y: Var, m: Var, n: Var)
    requires y in s && rest == s - {y} && m in rest && forall x | x in rest :: m <= x
    requires n == if m < y then m else y
    ensures n in s && forall x | x in s :: n <= x
  {
    forall x | x in s ensures n <= x { assert x == y || x in rest; }
  }

  /** The keys of an address-ordered map, in iteration order. */
  function InOrder(s: set<Var>): (xs: seq<Var>)
    ensures Ascending(xs)
    ensures forall x :: x in xs <==> x in s
  {
    if s == {} then [] else
      var m := Least(s);
      [m] + InOrder(s - {m})
  }

  /** There is only one such sequence. */
  lemma {:induction false} InOrderUnique(xs: seq<Var>, ys: seq<Var>)
    requires Ascending(xs) && Ascending(ys)
    requires forall x :: x in xs <==> x in ys
    ensures xs == ys
  {
    if ys != [] { assert ys[0] in ys; }
    if xs != [] {
      assert xs[0] in xs;
      assert xs[0] in ys && ys[0] in xs by { assert ys[0] in ys; }
      assert xs[0] == ys[0];
      forall x ensures x in xs[1..] <==> x in ys[1..] {
        assert x in xs[1..] <==> x in xs && x != xs[0];
        assert x in ys[1..] <==> x in ys && x != ys[0];
      }
      InOrderUnique(xs[1..], ys[1..]);
    }
  }
}
