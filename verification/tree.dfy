/** The decision tree of src/tree/main.rs: `build_tree`, which learns it, and
    `get_class` on `CalcNode` and `LeafNode`, which walks it. The providers map
    is a sequence of named extractors whose order stands for the map's
    iteration order. */
module DecisionTree {
  import opened Results
  import opened Distinct
  import opened Samples
  import opened Impurity
  import opened Selection

  /** A leaf holding a class, or a decision node naming the feature it splits
      on together with one route per value of that feature. */
  datatype Node =
    | Leaf(cls: int)
    | Decision(feature: string, routes: seq<Route>)

  datatype Route = Route(value: int, child: Node)

  function RouteKeys(routes: seq<Route>): seq<int>
  {
    seq(|routes|, k requires 0 <= k < |routes| => routes[k].value)
  }

  /** The classes held by the leaves of `node`. */
  function LeafClasses(node: Node): set<int>
    decreases node
  {
    match node
    case Leaf(c) => {c}
    case Decision(_, routes) => set k, c | 0 <= k < |routes| && c in LeafClasses(routes[k].child) :: c
  }

  /** The first route whose value is `v`. */
  function FindRoute(routes: seq<Route>, v: int): (r: Option<nat>)
    ensures r.Some? ==> r.value < |routes| && routes[r.value].value == v
    ensures r.None? <==> forall k :: 0 <= k < |routes| ==> routes[k].value != v
  {
    if routes == [] then None
    else if routes[0].value == v then Some(0)
    else match FindRoute(routes[1..], v)
      case None => None
      case Some(k) => Some(k + 1)
  }

  /** The class the tree assigns to `obj`. A decision node looks its feature
      up among the providers, reads the object's value and follows the route
      for that value; a missing provider or a value without a route is an
      error instead of the original's abort. */
  function Predict<O>(node: Node, providers: seq<Provider<O>>, obj: O): (r: Result<int>)
    ensures r.Ok? ==> r.value in LeafClasses(node)
    ensures r.Err? ==> r.error.MissingProvider? || r.error.UnseenValue?
    ensures node.Leaf? ==> r == Ok(node.cls)
    ensures node.Decision? && Lookup(providers, node.feature).None? ==> r == Err(MissingProvider(node.feature))
    ensures node.Decision? && Lookup(providers, node.feature).Some? ==>
              var v := providers[Lookup(providers, node.feature).value].extract(obj);
              FindRoute(node.routes, v).None? ==> r == Err(UnseenValue(node.feature, v))
    decreases node
  {
    match node
    case Leaf(c) => Ok(c)
    case Decision(name, routes) =>
      match Lookup(providers, name)
      case None => Err(MissingProvider(name))
      case Some(i) =>
        var v := providers[i].extract(obj);
        match FindRoute(routes, v)
        case None => Err(UnseenValue(name, v))
        case Some(k) =>
          var r := Predict(routes[k].child, providers, obj);
          assert r.Ok? ==> r.value in LeafClasses(node) by {
            if r.Ok? {
              assert r.value in LeafClasses(routes[k].child);
            }
          }
          r
  }

  /** The distinct classes present among the samples, ascending. */
  function NodeClasses<O>(data: seq<Sample<O>>): (r: seq<int>)
    ensures |data| > 0 || r == []
  {
    var r := SortedDistinct(Labels(data));
    assert |r| > 0 ==> r[0] in Labels(data);
    r
  }

  /** The gain of every provider's feature over `data`, in provider order. */
  function Gains<O>(providers: seq<Provider<O>>, data: seq<Sample<O>>, classes: seq<int>): seq<real>
    requires |data| > 0 || classes == []
  {
    seq(|providers|, i requires 0 <= i < |providers| => Gain(providers[i].extract, data, classes))
  }

  /** Learns a tree from `data`. One class present gives a leaf; otherwise
      the feature of greatest positive gain (the first one in provider order
      on a tie) becomes a decision node with one child per distinct value,
      each learnt from exactly the samples carrying that value. */
  function Build<O>(data: seq<Sample<O>>, providers: seq<Provider<O>>): (r: Result<Node>)
    ensures r.Err? ==> r.error == NoSplitFeature
    decreases |data|, 1, 0
  {
    var classes := NodeClasses(data);
    if |classes| == 1 then Ok(Leaf(classes[0]))
    else
      match Select(Gains(providers, data, classes))
      case None => Err(NoSplitFeature)
      case Some(i) =>
        var f := providers[i].extract;
        PositiveGainSplits(data, f, classes);
        var routes :- BuildRoutes(data, providers, f, SortedDistinct(Values(data, f)));
        Ok(Decision(providers[i].name, routes))
  }

  /** The routes for `values`, built in order; the first child that fails
      makes the whole node fail. */
  function BuildRoutes<O>(data: seq<Sample<O>>, providers: seq<Provider<O>>, f: O -> int, values: seq<int>)
    : (r: Result<seq<Route>>)
    requires forall v :: v in values ==> |Filter(data, f, v)| < |data|
    ensures r.Ok? ==> RouteKeys(r.value) == values
    ensures r.Ok? ==> forall k :: 0 <= k < |values| ==>
                        Build(Filter(data, f, values[k]), providers) == Ok(r.value[k].child)
    ensures r.Err? ==> exists k :: 0 <= k < |values| && Build(Filter(data, f, values[k]), providers) == Err(r.error)
    decreases |data|, 0, |values|
  {
    if values == [] then Ok([])
    else
      var child :- Build(Filter(data, f, values[0]), providers);
      var rest :- BuildRoutes(data, providers, f, values[1..]);
      Ok([Route(values[0], child)] + rest)
  }
}
