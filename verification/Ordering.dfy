/** `ORDER BY` over a finite set of integer keys. */
module Ordering {

  predicate Increasing(s: seq<int>) {
    forall i, j | 0 <= i < j < |s| :: s[i] < s[j]
  }

  lemma Nonempty(s: set<int>)
    ensures s == {} || exists x :: x in s
  {
    if !exists x :: x in s {
      assert s == {};
    }
  }

  lemma {:induction false} LeastExists(s: set<int>)
    requires s != {}
    ensures exists m :: m in s && forall k | k in s :: m <= k
    decreases s
  {
    Nonempty(s);
    var x :| x in s;
    var rest := s - {x};
    if rest == {} {
      assert s == {x};
    } else {
      LeastExists(rest);
      var m :| m in rest && forall k | k in rest :: m <= k;
      var least := if x < m then x else m;
      assert forall k | k in s :: k == x || k in rest;
      assert least in s && forall k | k in s :: least <= k;
    }
  }

  function Least(s: set<int>): (m: int)
    requires s != {}
    ensures m in s && forall k | k in s :: m <= k
  {
    LeastExists(s);
    var m :| m in s && forall k | k in s :: m <= k;
    m
  }

  ghost predicate Sorts(s: set<int>, r: seq<int>) {
    && |r| == |s|
    && Increasing(r)
    && forall x :: x in r <==> x in s
  }

  lemma {:induction false} AscendingExists(s: set<int>)
    ensures exists r :: Sorts(s, r)
    decreases s
  {
    if s == {} {
      assert Sorts(s, []);
    } else {
      var m := Least(s);
      AscendingExists(s - {m});
      var r :| Sorts(s - {m}, r);
      assert forall i | 0 <= i < |r| :: r[i] in r;
      assert Sorts(s, [m] + r);
    }
  }

  /** The elements in ascending order, each once. */
  ghost function Ascending(s: set<int>): (r: seq<int>)
    ensures Sorts(s, r)
  {
    AscendingExists(s);
    var r :| Sorts(s, r);
    r
  }

  /** An increasing sequence is determined by its elements. */
  lemma {:induction false} IncreasingUnique(a: seq<int>, b: seq<int>)
    requires Increasing(a) && Increasing(b)
    requires forall x :: x in a <==> x in b
    ensures a == b
  {
    assert a == [] || a[0] in a;
    assert b == [] || b[0] in b;
    if a != [] && b != [] {
      assert a[0] == b[0];
      forall x ensures x in a[1..] <==> x in b[1..] {
        if x in a[1..] { assert x in b && x != b[0]; }
        if x in b[1..] { assert x in a && x != a[0]; }
      }
      IncreasingUnique(a[1..], b[1..]);
      assert a == [a[0]] + a[1..] && b == [b[0]] + b[1..];
    }
  }
}
