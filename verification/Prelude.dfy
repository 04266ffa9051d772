/** Small shared vocabulary: optional values, sums over sequences, and the
    sorted enumeration of a finite set of row ids (a query's `order_by("id")`). */
module Prelude {

  datatype Option<+T> = None | Some(value: T)

  datatype Result<+T, +E> = Ok(value: T) | Err(error: E)

  /** The first `n` elements, or all of them when there are fewer (`rows[:n]`). */
  function Take<T>(s: seq<T>, n: nat): (r: seq<T>)
    ensures r <= s
    ensures |r| == if |s| < n then |s| else n
  {
    if |s| <= n then s else s[..n]
  }

  ghost predicate NoDuplicates<T>(s: seq<T>)
  {
    forall i, j :: 0 <= i < j < |s| ==> s[i] != s[j]
  }

  function Elements<T(==)>(s: seq<T>): set<T>
  {
    set x | x in s
  }

  lemma SubsetSize<T>(a: set<T>, b: set<T>)
    requires a <= b
    ensures |a| <= |b|
  {
    assert b == a + (b - a);
  }

  /** The text before the first slash. */
  function BeforeSlash(s: string): string
  {
    if s == "" || s[0] == '/' then "" else [s[0]] + BeforeSlash(s[1..])
  }

  // --- sums of a weight over the rows of a table ---------------------------

  function Sum<T>(s: seq<T>, w: T -> int): int
  {
    if s == [] then 0 else Sum(s[..|s| - 1], w) + w(s[|s| - 1])
  }

  lemma {:induction false} SumAppend<T>(s: seq<T>, x: T, w: T -> int)
    ensures Sum(s + [x], w) == Sum(s, w) + w(x)
  {
  }

  /** Rewriting one row moves the sum by the change in that row's weight. */
  lemma {:induction false} SumUpdate<T>(s: seq<T>, i: nat, x: T, w: T -> int)
    requires i < |s|
    ensures Sum(s[i := x], w) == Sum(s, w) - w(s[i]) + w(x)
  {
    var n := |s| - 1;
    if i == n {
      assert s[i := x][..n] == s[..n];
    } else {
      assert s[i := x][..n] == s[..n][i := x];
      SumUpdate(s[..n], i, x, w);
    }
  }

  lemma {:induction false} SumCongruent<T>(s: seq<T>, r: seq<T>, w: T -> int)
    requires |s| == |r|
    requires forall i :: 0 <= i < |s| ==> w(s[i]) == w(r[i])
    ensures Sum(s, w) == Sum(r, w)
  {
    if s != [] {
      SumCongruent(s[..|s| - 1], r[..|r| - 1], w);
    }
  }

  lemma {:induction false} SumBounds<T>(s: seq<T>, w: T -> int, i: nat)
    requires forall x :: w(x) >= 0
    requires i < |s|
    ensures Sum(s, w) >= w(s[i])
  {
    SumNonNegative(s[..|s| - 1], w);
    if i < |s| - 1 {
      SumBounds(s[..|s| - 1], w, i);
    }
  }

  lemma {:induction false} SumNonNegative<T>(s: seq<T>, w: T -> int)
    requires forall x :: w(x) >= 0
    ensures Sum(s, w) >= 0
  {
    if s != [] {
      SumNonNegative(s[..|s| - 1], w);
    }
  }

  // --- ascending enumeration of row ids ------------------------------------

  ghost predicate Ascending(s: seq<nat>)
  {
    forall i, j :: 0 <= i < j < |s| ==> s[i] < s[j]
  }

  predicate IsLeast(m: nat, s: set<nat>)
  {
    m in s && forall x :: x in s ==> m <= x
  }

  lemma {:induction false} LeastExists(s: set<nat>) returns (m: nat)
    requires s != {}
    ensures IsLeast(m, s)
  {
    var y :| y in s;
    var rest := s - {y};
    if rest == {} {
      assert forall x :: x in s ==> x == y || x in rest;
      m := y;
    } else {
      var k := LeastExists(rest);
      assert forall x :: x in s ==> x == y || x in rest;
      m := if k <= y then k else y;
    }
  }

  function Least(s: set<nat>): (m: nat)
    requires s != {}
    ensures IsLeast(m, s)
  {
    assert exists m :: IsLeast(m, s) by { var k := LeastExists(s); }
    var m :| IsLeast(m, s);
    m
  }

  function Sorted(s: set<nat>): (r: seq<nat>)
    ensures Ascending(r)
    ensures |r| == |s|
    ensures forall x :: x in r <==> x in s
    decreases |s|
  {
    if s == {} then [] else
      var m := Least(s);
      [m] + Sorted(s - {m})
  }
}
