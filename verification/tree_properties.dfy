/** What `build_tree` guarantees about the tree it returns, and the
    perfect fit of that tree on its own training samples. */
module TreeProperties {
  import opened Results
  import opened Distinct
  import opened Samples
  import opened Impurity
  import opened Selection
  import opened DecisionTree

  /** Samples that all share one class give a leaf with that class, whatever
      the providers are (even none). */
  lemma BuildUniform<O>(data: seq<Sample<O>>, providers: seq<Provider<O>>, c: int)
    requires |data| > 0
    requires forall j :: 0 <= j < |data| ==> data[j].cls == c
    ensures Build(data, providers) == Ok(Leaf(c))
  {
    SortedDistinctOfConstant(Labels(data), c);
  }

  /** Conversely, a leaf is only made from non-empty samples of one class. */
  lemma BuildLeafIsUniform<O>(data: seq<Sample<O>>, providers: seq<Provider<O>>)
    ensures Build(data, providers).Ok? && Build(data, providers).value.Leaf? ==>
              && |data| > 0
              && forall j :: 0 <= j < |data| ==> data[j].cls == Build(data, providers).value.cls
  {
    if Build(data, providers).Ok? && Build(data, providers).value.Leaf? {
      SortedDistinctSingleton(Labels(data));
      assert forall j :: 0 <= j < |data| ==> Labels(data)[j] == data[j].cls;
    }
  }

  /** With no samples there is no class, every feature scores zero against a
      baseline of one, and the first provider is chosen with no routes at
      all; with no providers either, no feature can be chosen. */
  lemma BuildEmpty<O>(providers: seq<Provider<O>>)
    ensures Build<O>([], providers) ==
              if providers == [] then Err(NoSplitFeature) else Ok(Decision(providers[0].name, []))
  {
    var gains := Gains<O>(providers, [], []);
    assert forall i :: 0 <= i < |gains| ==> gains[i] == 1.0;
    if providers != [] {
      var r := Select(gains);
      assert r.Some?;
      assert gains[0] == gains[r.value];
    }
  }

  /** A provider whose feature takes one value `v` on every sample gains
      nothing: its split score equals the baseline, so the learner never
      chooses it. */
  lemma ConstantFeatureGain<O>(providers: seq<Provider<O>>, data: seq<Sample<O>>, i: nat, v: int)
    requires i < |providers| && |data| > 0
    ensures (forall j :: 0 <= j < |data| ==> providers[i].extract(data[j].obj) == v) ==>
              && Gains(providers, data, NodeClasses(data))[i] == 0.0
              && Select(Gains(providers, data, NodeClasses(data))) != Some(i)
  {
    ConstantFeatureImpurity(data, providers[i].extract, v, NodeClasses(data));
  }

  /** A decision node made by `Build`: its feature is the first one of
      greatest positive gain; its route keys are exactly the distinct values
      of that feature over the samples, ascending and without repetition; the
      child under key `v` is the tree learnt from exactly the samples whose
      value is `v`, a non-empty and strictly smaller set; and these sets
      partition the samples. The result `i` is the chosen provider. */
  lemma BuildDecision<O>(data: seq<Sample<O>>, providers: seq<Provider<O>>) returns (i: nat)
    requires Build(data, providers).Ok? && Build(data, providers).value.Decision?
    ensures i < |providers|
    ensures providers[i].name == Build(data, providers).value.feature
    ensures |data| > 0 ==> |NodeClasses(data)| >= 2
    ensures IsFirstMaximum(Gains(providers, data, NodeClasses(data)), i)
    ensures Gain(providers[i].extract, data, NodeClasses(data)) > 0.0
    ensures var routes := Build(data, providers).value.routes;
            && StrictlyIncreasing(RouteKeys(routes))
            && (forall v :: v in RouteKeys(routes) <==> v in Values(data, providers[i].extract))
            && SumSizes(data, providers[i].extract, RouteKeys(routes)) == |data|
    ensures var routes := Build(data, providers).value.routes;
            forall k :: 0 <= k < |routes| ==>
              && 0 < |Filter(data, providers[i].extract, routes[k].value)| < |data|
              && Build(Filter(data, providers[i].extract, routes[k].value), providers) == Ok(routes[k].child)
  {
    var classes := NodeClasses(data);
    i := Select(Gains(providers, data, classes)).value;
    var f := providers[i].extract;
    PositiveGainSplits(data, f, classes);
    var values := SortedDistinct(Values(data, f));
    PartitionSizes(data, f, values);
    var routes := Build(data, providers).value.routes;
    assert RouteKeys(routes) == values;
    forall k | 0 <= k < |routes|
      ensures 0 < |Filter(data, f, routes[k].value)| < |data|
    {
      assert routes[k].value == values[k];
      assert values[k] in values;
    }
  }

  /** A tree that `Build` learns classifies every one of its training samples
      correctly: the sample's value is always a route key, the sample lies in
      that route's subset, and a leaf is made only where a single class is
      left. Provider names must be unique, as map keys are. */
  lemma {:induction false} PerfectFit<O>(data: seq<Sample<O>>, providers: seq<Provider<O>>, j: nat)
    requires DistinctNames(providers)
    requires j < |data|
    ensures Build(data, providers).Ok? ==>
              Predict(Build(data, providers).value, providers, data[j].obj) == Ok(data[j].cls)
    decreases |data|
  {
    if Build(data, providers).Ok? {
      var node := Build(data, providers).value;
      match node
      case Leaf(c) =>
        BuildLeafIsUniform(data, providers);
      case Decision(name, routes) =>
        var i := BuildDecision(data, providers);
        var f := providers[i].extract;
        LookupOwnName(providers, i);
        var k, j' := Descend(routes, data, f, j);
        var sub := Filter(data, f, routes[k].value);
        PerfectFit(sub, providers, j');
        PredictStep(node, providers, data[j].obj, i, k);
    }
  }

  /** Where training sample `j` goes at a node whose route keys are the
      values of `f` over the samples: the route `k` for its value, and its
      position `j'` in the subset of the samples carrying that value. */
  lemma Descend<O>(routes: seq<Route>, data: seq<Sample<O>>, f: O -> int, j: nat) returns (k: nat, j': nat)
    requires forall v :: v in RouteKeys(routes) <==> v in Values(data, f)
    requires j < |data|
    ensures FindRoute(routes, f(data[j].obj)) == Some(k)
    ensures k < |routes| && routes[k].value == f(data[j].obj)
    ensures j' < |Filter(data, f, routes[k].value)| && Filter(data, f, routes[k].value)[j'] == data[j]
  {
    var v := f(data[j].obj);
    assert Values(data, f)[j] == v;
    assert v in RouteKeys(routes);
    k := FindRoute(routes, v).value;
    var sub := Filter(data, f, v);
    FilterMembers(data, f, v);
    assert data[j] in sub;
    j' :| 0 <= j' < |sub| && sub[j'] == data[j];
  }

  /** One step of the walk: a decision node whose provider and route are
      found hands the object to that route's child. */
  lemma PredictStep<O>(node: Node, providers: seq<Provider<O>>, obj: O, i: nat, k: nat)
    requires node.Decision?
    requires Lookup(providers, node.feature) == Some(i)
    requires FindRoute(node.routes, providers[i].extract(obj)) == Some(k)
    ensures Predict(node, providers, obj) == Predict(node.routes[k].child, providers, obj)
  {
  }
}
