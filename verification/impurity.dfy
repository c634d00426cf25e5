/** The split score of `calculate_gini_for_feature` and the baseline score of
    `build_tree` (src/tree/main.rs). Both are built from the product, over a
    list of classes, of each class's share of a group of samples; this is the
    program's own metric, not the textbook Gini index `1 - sum p^2`. Scores
    are exact reals; the original computes them in binary floating point. */
module Impurity {
  import opened Distinct
  import opened Samples

  /** The product over `classes` of the fraction of `part` carrying each class.
      Over all of a node's samples this is the node's baseline score. */
  function FractionProduct<O>(classes: seq<int>, part: seq<Sample<O>>): (r: real)
    requires |part| > 0 || classes == []
    ensures 0.0 <= r <= 1.0
    decreases |classes|
  {
    if classes == [] then 1.0
    else
      ShareBounds(ClassCount(part, classes[0]), |part|);
      Scale(FractionProduct(classes[1..], part), ClassCount(part, classes[0]) as real / |part| as real)
  }

  lemma UnitProduct(a: real, b: real)
    requires 0.0 <= a <= 1.0 && 0.0 <= b
    ensures 0.0 <= a * b <= b
  {
  }

  lemma ShareBounds(k: nat, n: nat)
    requires 0 < n && k <= n
    ensures 0.0 <= k as real / n as real <= 1.0
  {
  }

  lemma AddShares(a: nat, b: nat, n: nat)
    requires 0 < n
    ensures a as real / n as real + b as real / n as real == (a + b) as real / n as real
  {
  }

  lemma WholeShare(n: nat)
    requires 0 < n
    ensures n as real / n as real == 1.0
  {
  }

  /** The share `|S_v| / |S|` of the samples whose feature `f` has value `v`. */
  function Weight<O>(data: seq<Sample<O>>, f: O -> int, v: int): real
    requires |data| > 0
  {
    |Filter(data, f, v)| as real / |data| as real
  }

  /** The contribution of value `v`: its weight times the fraction product of
      the subset `S_v`, over the classes of the whole node. */
  function Term<O>(data: seq<Sample<O>>, f: O -> int, v: int, classes: seq<int>): (r: real)
    requires v in Values(data, f)
    ensures 0.0 <= r <= Weight(data, f, v)
  {
    ShareBounds(|Filter(data, f, v)|, |data|);
    Scale(Weight(data, f, v), FractionProduct(classes, Filter(data, f, v)))
  }

  /** `w * p` for a share `p` is at most `w`. */
  function Scale(w: real, p: real): (r: real)
    requires 0.0 <= w && 0.0 <= p <= 1.0
    ensures 0.0 <= r <= w
  {
    UnitProduct(p, w);
    w * p
  }

  function SumTerms<O>(data: seq<Sample<O>>, f: O -> int, vals: seq<int>, classes: seq<int>): (r: real)
    requires forall v :: v in vals ==> v in Values(data, f)
    ensures 0.0 <= r
    ensures |data| > 0 ==> r <= SumWeights(data, f, vals)
  {
    if vals == [] then 0.0
    else Term(data, f, vals[0], classes) + SumTerms(data, f, vals[1..], classes)
  }

  function SumWeights<O>(data: seq<Sample<O>>, f: O -> int, vals: seq<int>): real
    requires |data| > 0
  {
    if vals == [] then 0.0 else Weight(data, f, vals[0]) + SumWeights(data, f, vals[1..])
  }

  function SumSizes<O>(data: seq<Sample<O>>, f: O -> int, vals: seq<int>): nat
  {
    if vals == [] then 0 else |Filter(data, f, vals[0])| + SumSizes(data, f, vals[1..])
  }

  /** The score of splitting `data` on feature `f`: the sum over the distinct
      values `v` of `f` of `|S_v|/|S|` times the product over `classes` of
      `count_c(S_v)/|S_v|`. Every `S_v` is non-empty, so no share divides by
      zero, and since the weights add up to one the score lies in [0, 1]. */
  function FeatureImpurity<O>(f: O -> int, data: seq<Sample<O>>, classes: seq<int>): (r: real)
    ensures 0.0 <= r <= 1.0
  {
    var vals := SortedDistinct(Values(data, f));
    if |data| > 0 then
      WeightsSumToOne(data, f);
      SumTerms(data, f, vals, classes)
    else
      SumTerms(data, f, vals, classes)
  }

  /** How much splitting on `f` lowers the score below the node's baseline. */
  function Gain<O>(f: O -> int, data: seq<Sample<O>>, classes: seq<int>): real
    requires |data| > 0 || classes == []
  {
    FractionProduct(classes, data) - FeatureImpurity(f, data, classes)
  }

  /** Number of positions of `vals` holding `x`. */
  function Occurrences(vals: seq<int>, x: int): nat
  {
    if vals == [] then 0 else (if vals[0] == x then 1 else 0) + Occurrences(vals[1..], x)
  }

  lemma {:induction false} OccurrencesDistinct(vals: seq<int>, x: int)
    requires StrictlyIncreasing(vals)
    ensures Occurrences(vals, x) == if x in vals then 1 else 0
  {
    if vals != [] {
      OccurrencesDistinct(vals[1..], x);
      if vals[0] == x {
        assert x !in vals[1..];
      }
      assert vals == [vals[0]] + vals[1..];
    }
  }

  /** Removing the first sample removes it from exactly the groups whose value it has. */
  lemma {:induction false} SumSizesStep<O>(data: seq<Sample<O>>, f: O -> int, vals: seq<int>)
    requires |data| > 0
    ensures SumSizes(data, f, vals) == Occurrences(vals, f(data[0].obj)) + SumSizes(data[1..], f, vals)
  {
    if vals != [] {
      SumSizesStep(data, f, vals[1..]);
    }
  }

  /** The groups `S_v` over a list of distinct values covering every value of
      the feature partition the samples: their sizes add up to `|S|`. */
  lemma {:induction false} PartitionSizes<O>(data: seq<Sample<O>>, f: O -> int, vals: seq<int>)
    requires StrictlyIncreasing(vals)
    requires forall v :: v in Values(data, f) ==> v in vals
    ensures SumSizes(data, f, vals) == |data|
  {
    if data == [] {
      SizesOfEmpty(data, f, vals);
    } else {
      assert Values(data, f)[0] == f(data[0].obj);
      forall v | v in Values(data[1..], f)
        ensures v in vals
      {
        var j :| 0 <= j < |data[1..]| && Values(data[1..], f)[j] == v;
        assert Values(data, f)[j + 1] == v;
      }
      PartitionSizes(data[1..], f, vals);
      SumSizesStep(data, f, vals);
      OccurrencesDistinct(vals, f(data[0].obj));
    }
  }

  lemma {:induction false} SizesOfEmpty<O>(data: seq<Sample<O>>, f: O -> int, vals: seq<int>)
    requires data == []
    ensures SumSizes(data, f, vals) == 0
  {
    if vals != [] {
      SizesOfEmpty(data, f, vals[1..]);
    }
  }

  lemma {:induction false} WeightsAreScaledSizes<O>(data: seq<Sample<O>>, f: O -> int, vals: seq<int>)
    requires |data| > 0
    ensures SumWeights(data, f, vals) == SumSizes(data, f, vals) as real / |data| as real
  {
    if vals != [] {
      WeightsAreScaledSizes(data, f, vals[1..]);
      AddShares(|Filter(data, f, vals[0])|, SumSizes(data, f, vals[1..]), |data|);
    }
  }

  /** The weights `|S_v|/|S|` over the distinct values of a feature sum to one. */
  lemma WeightsSumToOne<O>(data: seq<Sample<O>>, f: O -> int)
    requires |data| > 0
    ensures SumWeights(data, f, SortedDistinct(Values(data, f))) == 1.0
  {
    var vals := SortedDistinct(Values(data, f));
    PartitionSizes(data, f, vals);
    WeightsAreScaledSizes(data, f, vals);
    WholeShare(|data|);
  }

  /** A feature that takes one value on every sample scores exactly the
      baseline: its only group is the whole node, with weight one. */
  lemma ConstantFeatureImpurity<O>(data: seq<Sample<O>>, f: O -> int, v: int, classes: seq<int>)
    requires |data| > 0
    ensures (forall j :: 0 <= j < |data| ==> f(data[j].obj) == v) ==>
              FeatureImpurity(f, data, classes) == FractionProduct(classes, data)
  {
    if forall j :: 0 <= j < |data| ==> f(data[j].obj) == v {
      SortedDistinctOfConstant(Values(data, f), v);
      assert Filter(data, f, v) == data;
      WholeShare(|data|);
      assert Weight(data, f, v) == 1.0;
    }
  }

  /** A feature with positive gain is not constant, so every group it forms
      is strictly smaller than the node. */
  lemma PositiveGainSplits<O>(data: seq<Sample<O>>, f: O -> int, classes: seq<int>)
    requires |data| > 0 || classes == []
    requires Gain(f, data, classes) > 0.0
    ensures forall v :: v in Values(data, f) ==> |Filter(data, f, v)| < |data|
  {
    forall v | v in Values(data, f)
      ensures |Filter(data, f, v)| < |data|
    {
      ConstantFeatureImpurity(data, f, v, classes);
    }
  }

  /** The baseline and the split score depend only on the multiset of
      samples, not on their order. */
  lemma {:induction false} FractionProductPermutation<O>(classes: seq<int>, a: seq<Sample<O>>, b: seq<Sample<O>>)
    requires multiset(a) == multiset(b)
    requires |a| > 0 || classes == []
    ensures |a| == |b|
    ensures FractionProduct(classes, a) == FractionProduct(classes, b)
    decreases |classes|
  {
    assert |a| == |multiset(a)| && |b| == |multiset(b)|;
    if classes != [] {
      ClassCountPermutation(a, b, classes[0]);
      FractionProductPermutation(classes[1..], a, b);
    }
  }

  lemma {:induction false} SumTermsPermutation<O>(a: seq<Sample<O>>, b: seq<Sample<O>>, f: O -> int, vals: seq<int>, classes: seq<int>)
    requires multiset(a) == multiset(b)
    requires forall v :: v in vals ==> v in Values(a, f) && v in Values(b, f)
    ensures SumTerms(a, f, vals, classes) == SumTerms(b, f, vals, classes)
  {
    if vals != [] {
      var v := vals[0];
      FilterPermutation(a, b, f, v);
      FractionProductPermutation(classes, Filter(a, f, v), Filter(b, f, v));
      assert |a| == |multiset(a)| && |b| == |multiset(b)|;
      assert Weight(a, f, v) == Weight(b, f, v);
      SumTermsPermutation(a, b, f, vals[1..], classes);
    }
  }

  /** The feature score depends only on the multiset of samples, not on
      their order. */
  lemma ImpurityPermutation<O>(a: seq<Sample<O>>, b: seq<Sample<O>>, f: O -> int, classes: seq<int>)
    requires multiset(a) == multiset(b)
    ensures FeatureImpurity(f, a, classes) == FeatureImpurity(f, b, classes)
  {
    var va := SortedDistinct(Values(a, f));
    var vb := SortedDistinct(Values(b, f));
    forall v
      ensures v in va <==> v in vb
    {
      FilterPermutation(a, b, f, v);
    }
    StrictlyIncreasingUnique(va, vb);
    SumTermsPermutation(a, b, f, va, classes);
  }
}
