/** Training data and feature providers (`Object`, `TrainObject` and the
    providers map of src/tree/main.rs), with the selections the learner makes
    over them. The object type is a parameter: a provider is any total
    function from objects to a feature value. */
module Samples {
  import opened Results

  /** A training object together with its class label. */
  datatype Sample<O> = Sample(obj: O, cls: int)

  /** One entry of the providers map: a feature name and its extractor. The
      map's iteration order is the order of the sequence holding the entries. */
  datatype Provider<!O> = Provider(name: string, extract: O -> int)

  /** Feature names are unique, as the keys of a map are. */
  ghost predicate DistinctNames<O>(providers: seq<Provider<O>>) {
    forall i, j :: 0 <= i < j < |providers| ==> providers[i].name != providers[j].name
  }

  /** The position of the provider called `name`, if there is one. */
  function Lookup<O>(providers: seq<Provider<O>>, name: string): (r: Option<nat>)
    ensures r.Some? ==> r.value < |providers| && providers[r.value].name == name
    ensures r.None? <==> forall i :: 0 <= i < |providers| ==> providers[i].name != name
    ensures r.Some? ==> forall i :: 0 <= i < r.value ==> providers[i].name != name
  {
    if providers == [] then None
    else if providers[0].name == name then Some(0)
    else match Lookup(providers[1..], name)
      case None => None
      case Some(i) => Some(i + 1)
  }

  /** With unique names, looking a provider up by its own name finds it. */
  lemma LookupOwnName<O>(providers: seq<Provider<O>>, i: nat)
    requires DistinctNames(providers)
    requires i < |providers|
    ensures Lookup(providers, providers[i].name) == Some(i)
  {
  }

  /** The class labels of the samples, in order. */
  function Labels<O>(data: seq<Sample<O>>): seq<int>
  {
    seq(|data|, j requires 0 <= j < |data| => data[j].cls)
  }

  /** The value of feature `f` on every sample, in order. */
  function Values<O>(data: seq<Sample<O>>, f: O -> int): seq<int>
  {
    seq(|data|, j requires 0 <= j < |data| => f(data[j].obj))
  }

  /** The samples satisfying `p`, in their original order. */
  function Keep<O>(data: seq<Sample<O>>, p: Sample<O> -> bool): seq<Sample<O>>
  {
    if data == [] then []
    else if p(data[0]) then [data[0]] + Keep(data[1..], p)
    else Keep(data[1..], p)
  }

  function HasValue<O>(f: O -> int, v: int): Sample<O> -> bool {
    (s: Sample<O>) => f(s.obj) == v
  }

  function HasClass<O>(c: int): Sample<O> -> bool {
    (s: Sample<O>) => s.cls == c
  }

  /** The samples whose value of feature `f` is `v` (the `filter` that forms
      the subset `S_v`). */
  function Filter<O>(data: seq<Sample<O>>, f: O -> int, v: int): (r: seq<Sample<O>>)
    ensures |r| <= |data|
    ensures |r| > 0 <==> v in Values(data, f)
    ensures |r| == |data| <==> forall j :: 0 <= j < |data| ==> f(data[j].obj) == v
    ensures (forall j :: 0 <= j < |data| ==> f(data[j].obj) == v) ==> r == data
  {
    var r := Keep(data, HasValue(f, v));
    KeepMembers(data, HasValue(f, v));
    KeepAll(data, HasValue(f, v));
    assert |r| > 0 ==> r[0] in data;
    assert forall j :: 0 <= j < |data| ==> Values(data, f)[j] == f(data[j].obj);
    r
  }

  /** How many of the samples carry class `c`. */
  function ClassCount<O>(data: seq<Sample<O>>, c: int): (n: nat)
    ensures n <= |data|
    ensures n > 0 <==> c in Labels(data)
  {
    var r := Keep(data, HasClass(c));
    KeepMembers(data, HasClass(c));
    KeepAll(data, HasClass(c));
    assert |r| > 0 ==> r[0] in data;
    assert forall j :: 0 <= j < |data| ==> Labels(data)[j] == data[j].cls;
    |r|
  }

  /** `Keep` selects exactly the samples satisfying `p`. */
  lemma {:induction false} KeepMembers<O>(data: seq<Sample<O>>, p: Sample<O> -> bool)
    ensures forall k :: 0 <= k < |Keep(data, p)| ==> p(Keep(data, p)[k]) && Keep(data, p)[k] in data
    ensures forall j :: 0 <= j < |data| && p(data[j]) ==> data[j] in Keep(data, p)
  {
    if data != [] {
      KeepMembers(data[1..], p);
      assert forall j :: 1 <= j < |data| ==> data[j] == data[1..][j - 1];
    }
  }

  /** `Keep` never adds samples, and drops none exactly when every sample
      satisfies `p`. */
  lemma {:induction false} KeepAll<O>(data: seq<Sample<O>>, p: Sample<O> -> bool)
    ensures |Keep(data, p)| <= |data|
    ensures |Keep(data, p)| == |data| <==> forall j :: 0 <= j < |data| ==> p(data[j])
    ensures (forall j :: 0 <= j < |data| ==> p(data[j])) ==> Keep(data, p) == data
  {
    if data != [] {
      KeepAll(data[1..], p);
      assert forall j :: 1 <= j < |data| ==> data[j] == data[1..][j - 1];
    }
  }

  /** The group `S_v` holds exactly the samples whose value of `f` is `v`. */
  lemma FilterMembers<O>(data: seq<Sample<O>>, f: O -> int, v: int)
    ensures forall k :: 0 <= k < |Filter(data, f, v)| ==> f(Filter(data, f, v)[k].obj) == v && Filter(data, f, v)[k] in data
    ensures forall j :: 0 <= j < |data| && f(data[j].obj) == v ==> data[j] in Filter(data, f, v)
  {
    KeepMembers(data, HasValue(f, v));
  }

  lemma {:induction false} KeepAppend<O>(a: seq<Sample<O>>, b: seq<Sample<O>>, p: Sample<O> -> bool)
    ensures Keep(a + b, p) == Keep(a, p) + Keep(b, p)
  {
    if a == [] {
      assert a + b == b;
    } else {
      assert (a + b)[1..] == a[1..] + b;
      KeepAppend(a[1..], b, p);
    }
  }

  /** Selecting samples commutes with reordering them: `Keep` of two
      permutations of one another gives permutations of one another. */
  lemma {:induction false} KeepPermutation<O>(a: seq<Sample<O>>, b: seq<Sample<O>>, p: Sample<O> -> bool)
    requires multiset(a) == multiset(b)
    ensures multiset(Keep(a, p)) == multiset(Keep(b, p))
    decreases |a|
  {
    if a == [] {
      assert |b| == |multiset(b)|;
    } else {
      assert a[0] in multiset(b);
      var k :| 0 <= k < |b| && b[k] == a[0];
      var rest := b[..k] + b[k + 1..];
      RemoveMatching(a, b, k);
      KeepPermutation(a[1..], rest, p);
      KeepAppend([a[0]], a[1..], p);
      assert a == [a[0]] + a[1..];
      KeepSplice(b, k, p);
    }
  }

  /** Taking the first sample of `a` off `a`, and the same sample at `k` off
      a permutation `b`, leaves permutations of one another. */
  lemma RemoveMatching<O>(a: seq<Sample<O>>, b: seq<Sample<O>>, k: nat)
    requires multiset(a) == multiset(b)
    requires |a| > 0 && k < |b| && b[k] == a[0]
    ensures multiset(a[1..]) == multiset(b[..k] + b[k + 1..])
  {
    var x := a[0];
    assert a == [x] + a[1..];
    assert b == b[..k] + [x] + b[k + 1..];
    assert multiset(a) == multiset{x} + multiset(a[1..]);
    assert multiset(b) == multiset(b[..k]) + multiset{x} + multiset(b[k + 1..]);
    forall y
      ensures multiset(a[1..])[y] == multiset(b[..k] + b[k + 1..])[y]
    {
      assert multiset(a)[y] == multiset{x}[y] + multiset(a[1..])[y];
      assert multiset(b)[y] == multiset(b[..k])[y] + multiset{x}[y] + multiset(b[k + 1..])[y];
    }
  }

  /** `Keep` over `b` selects what it selects from `b[k]` and from the rest. */
  lemma KeepSplice<O>(b: seq<Sample<O>>, k: nat, p: Sample<O> -> bool)
    requires k < |b|
    ensures multiset(Keep(b, p)) == multiset(Keep([b[k]], p)) + multiset(Keep(b[..k] + b[k + 1..], p))
  {
    assert b == b[..k] + ([b[k]] + b[k + 1..]);
    KeepAppend(b[..k], [b[k]] + b[k + 1..], p);
    KeepAppend([b[k]], b[k + 1..], p);
    KeepAppend(b[..k], b[k + 1..], p);
  }

  /** The subset `S_v` depends only on the multiset of samples. */
  lemma FilterPermutation<O>(a: seq<Sample<O>>, b: seq<Sample<O>>, f: O -> int, v: int)
    requires multiset(a) == multiset(b)
    ensures multiset(Filter(a, f, v)) == multiset(Filter(b, f, v))
    ensures v in Values(a, f) <==> v in Values(b, f)
  {
    KeepPermutation(a, b, HasValue(f, v));
    assert |Filter(a, f, v)| == |multiset(Filter(a, f, v))|;
    assert |Filter(b, f, v)| == |multiset(Filter(b, f, v))|;
  }

  /** Class counts depend only on the multiset of samples. */
  lemma ClassCountPermutation<O>(a: seq<Sample<O>>, b: seq<Sample<O>>, c: int)
    requires multiset(a) == multiset(b)
    ensures ClassCount(a, c) == ClassCount(b, c)
  {
    KeepPermutation(a, b, HasClass(c));
    assert |Keep(a, HasClass(c))| == |multiset(Keep(a, HasClass(c)))|;
    assert |Keep(b, HasClass(c))| == |multiset(Keep(b, HasClass(c)))|;
  }
}
