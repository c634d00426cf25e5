/** The split choice of `build_tree` exactly as written: the winning name of
    the gain fold is looked up in the providers map. The fold starts from the
    empty name, so when no gain is positive the lookup is for the empty name;
    if a provider is registered under that name it is used as the split even
    though it gained nothing. */
module SentinelSplit {
  import opened Results
  import opened Distinct
  import opened Samples
  import opened Impurity
  import opened Selection
  import opened DecisionTree

  function Names<O>(providers: seq<Provider<O>>): seq<string>
  {
    seq(|providers|, i requires 0 <= i < |providers| => providers[i].name)
  }

  /** The provider the original program splits a multi-class node on: the
      lookup of the fold's winning name, sentinel included. */
  function SplitProviderAsWritten<O>(data: seq<Sample<O>>, providers: seq<Provider<O>>): (r: Option<nat>)
    ensures r.Some? ==> r.value < |providers|
    ensures r.None? ==> Select(Gains(providers, data, NodeClasses(data))).None?
  {
    var gains := Gains(providers, data, NodeClasses(data));
    AsWrittenAgreesWithSelect(Names(providers), gains);
    Lookup(providers, SelectNameAsWritten(Names(providers), gains))
  }

  /** Without a provider named by the empty string, the lookup as written
      finds exactly the provider `Build` splits on, and fails exactly when
      `Build` reports that no feature has positive gain. */
  lemma AsWrittenAgreesWithBuild<O>(data: seq<Sample<O>>, providers: seq<Provider<O>>)
    requires DistinctNames(providers)
    requires forall i :: 0 <= i < |providers| ==> providers[i].name != ""
    ensures SplitProviderAsWritten(data, providers) == Select(Gains(providers, data, NodeClasses(data)))
  {
    var gains := Gains(providers, data, NodeClasses(data));
    AsWrittenAgreesWithSelect(Names(providers), gains);
    if Select(gains).Some? {
      LookupOwnName(providers, Select(gains).value);
    }
  }

  /** A provider named by the empty string that is constant: two samples of
      different classes score no positive gain, the fold as written still
      names that provider, and its only group is the whole node, so the
      original recurses on the same samples without end. `Build` reports
      `NoSplitFeature` instead. */
  lemma SentinelCollision()
    ensures var providers := [Provider("", (o: int) => 0)];
            var data := [Sample(0, 1), Sample(0, 2)];
            && SplitProviderAsWritten(data, providers) == Some(0)
            && Filter(data, providers[0].extract, 0) == data
            && Build(data, providers) == Err(NoSplitFeature)
  {
    var providers := [Provider("", (o: int) => 0)];
    var data := [Sample(0, 1), Sample(0, 2)];
    var f := providers[0].extract;
    assert forall j :: 0 <= j < |data| ==> f(data[j].obj) == 0;
    var classes := NodeClasses(data);
    assert Labels(data) == [1, 2];
    assert classes == [1, 2] by {
      StrictlyIncreasingUnique(classes, [1, 2]);
    }
    ConstantFeatureImpurity(data, f, 0, classes);
    assert Gain(f, data, classes) == 0.0;
    var gains := Gains(providers, data, classes);
    assert |gains| == 1 && gains[0] == Gain(f, data, classes);
    assert gains == [0.0];
    assert Select(gains) == None;
    AsWrittenAgreesWithSelect(Names(providers), gains);
    assert SelectNameAsWritten(Names(providers), gains) == "";
    assert Lookup(providers, "") == Some(0);
  }
}
