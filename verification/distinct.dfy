/** Sorting followed by de-duplication (`sort(); dedup()` in the original),
    modelled as a function that returns the strictly increasing sequence of
    the distinct elements of its input. */
module Distinct {

  ghost predicate StrictlyIncreasing(xs: seq<int>) {
    forall i, j :: 0 <= i < j < |xs| ==> xs[i] < xs[j]
  }

  /** Inserts `x` into a strictly increasing sequence, unless it is already there. */
  function Insert(xs: seq<int>, x: int): (r: seq<int>)
    requires StrictlyIncreasing(xs)
    ensures StrictlyIncreasing(r)
    ensures forall v :: v in r <==> v in xs || v == x
  {
    if xs == [] then [x]
    else if x < xs[0] then [x] + xs
    else if x == xs[0] then xs
    else
      var rest := Insert(xs[1..], x);
      var r := [xs[0]] + rest;
      forall i, j | 0 <= i < j < |r|
        ensures r[i] < r[j]
      {
        assert r[j] == rest[j - 1] && r[j] in rest;
        if i > 0 {
          assert r[i] == rest[i - 1];
        }
      }
      r
  }

  /** The distinct elements of `xs`, in ascending order. */
  function SortedDistinct(xs: seq<int>): (r: seq<int>)
    ensures StrictlyIncreasing(r)
    ensures forall v :: v in r <==> v in xs
  {
    if xs == [] then []
    else
      var rest := SortedDistinct(xs[..|xs| - 1]);
      assert forall v :: v in xs <==> v in xs[..|xs| - 1] || v == xs[|xs| - 1] by {
        assert xs == xs[..|xs| - 1] + [xs[|xs| - 1]];
      }
      Insert(rest, xs[|xs| - 1])
  }

  /** Two strictly increasing sequences with the same elements are equal:
      the result of `SortedDistinct` depends only on the set of its input. */
  lemma {:induction false} StrictlyIncreasingUnique(a: seq<int>, b: seq<int>)
    requires StrictlyIncreasing(a) && StrictlyIncreasing(b)
    requires forall v :: v in a <==> v in b
    ensures a == b
  {
    if a != [] {
      assert a[0] in a ==> a[0] in b;
    }
    if b != [] {
      assert b[0] in b ==> b[0] in a;
    }
    if a != [] && b != [] {
      assert a[0] == b[0] by {
        assert a[0] in b && b[0] in a;
      }
      forall v
        ensures v in a[1..] <==> v in b[1..]
      {
        assert a == [a[0]] + a[1..] && b == [b[0]] + b[1..];
        if v in a[1..] {
          var k :| 0 <= k < |a[1..]| && a[1..][k] == v;
          assert a[k + 1] == v && a[0] < a[k + 1];
          assert v in b && v != b[0];
        }
        if v in b[1..] {
          var k :| 0 <= k < |b[1..]| && b[1..][k] == v;
          assert b[k + 1] == v && b[0] < b[k + 1];
          assert v in a && v != a[0];
        }
      }
      StrictlyIncreasingUnique(a[1..], b[1..]);
      assert a == [a[0]] + a[1..] && b == [b[0]] + b[1..];
    }
  }

  /** A non-empty sequence whose elements all equal `x` has exactly one
      distinct element. */
  lemma SortedDistinctOfConstant(xs: seq<int>, x: int)
    requires |xs| > 0
    requires forall i :: 0 <= i < |xs| ==> xs[i] == x
    ensures SortedDistinct(xs) == [x]
  {
    var r := SortedDistinct(xs);
    assert xs[0] in xs;
    StrictlyIncreasingUnique(r, [x]);
  }

  /** Conversely, a sequence with a single distinct element is constant. */
  lemma SortedDistinctSingleton(xs: seq<int>)
    requires |SortedDistinct(xs)| == 1
    ensures forall i :: 0 <= i < |xs| ==> xs[i] == SortedDistinct(xs)[0]
  {
    var r := SortedDistinct(xs);
    forall i | 0 <= i < |xs|
      ensures xs[i] == r[0]
    {
      assert xs[i] in xs;
    }
  }
}
