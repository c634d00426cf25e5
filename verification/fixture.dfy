/** The training run of `main` in src/tree/main.rs: three features `f1`,
    `f2`, `f3` read off an `Object`, eight labelled rows, and the tree those
    rows lead to when the providers are visited in the order f1, f2, f3. */
module TrainingFixture {
  import opened Results
  import opened Samples
  import opened DecisionTree

  datatype Object = Object(f1: int, f2: int, f3: int)

  function Providers(): seq<Provider<Object>> {
    [ Provider("f1", (o: Object) => o.f1),
      Provider("f2", (o: Object) => o.f2),
      Provider("f3", (o: Object) => o.f3) ]
  }

  function Rows(): seq<Sample<Object>> {
    [ Sample(Object(1, 3, 3), 2),
      Sample(Object(2, 3, 2), 1),
      Sample(Object(2, 2, 1), 1),
      Sample(Object(1, 2, 1), 2),
      Sample(Object(2, 1, 3), 2),
      Sample(Object(1, 1, 2), 2),
      Sample(Object(2, 3, 1), 1),
      Sample(Object(1, 2, 2), 2) ]
  }

  /** Split on f1; rows with f1 = 1 are all class 2; rows with f1 = 2 are
      split on f2, whose gain ties with f3's and which comes first. */
  function ExpectedTree(): Node {
    Decision("f1", [
      Route(1, Leaf(2)),
      Route(2, Decision("f2", [Route(1, Leaf(2)), Route(2, Leaf(1)), Route(3, Leaf(1))]))])
  }

  /** The tree reproduces the class of every training row, and classifies
      the object `main` asks about as class 2. */
  lemma ExpectedTreeFitsRows()
    ensures forall j :: 0 <= j < |Rows()| ==> Predict(ExpectedTree(), Providers(), Rows()[j].obj) == Ok(Rows()[j].cls)
    ensures Predict(ExpectedTree(), Providers(), Object(2, 1, 3)) == Ok(2)
  {
  }

  /** A value never seen at a node is reported, not defaulted: f1 = 3 has no
      route at the root, and f2 = 4 has none below f1 = 2. A tree naming a
      feature without provider is reported too. */
  lemma UnseenValuesAreErrors()
    ensures Predict(ExpectedTree(), Providers(), Object(3, 1, 1)) == Err(UnseenValue("f1", 3))
    ensures Predict(ExpectedTree(), Providers(), Object(2, 4, 1)) == Err(UnseenValue("f2", 4))
    ensures Predict(ExpectedTree(), Providers()[1..], Object(1, 1, 1)) == Err(MissingProvider("f1"))
  {
  }
}
