# Categorical decision tree — a Dafny model

This project models the decision-tree learner and predictor of
`src/tree/main.rs`. That file has three parts:

- **Split score** (`calculate_gini_for_feature`). The training samples are
  grouped by one feature's value. Each group `S_v` scores `|S_v|/|S|` times the
  product, over the node's classes, of the fraction of `S_v` in that class. The
  feature's score is the sum of these. This is the program's own metric, not
  the textbook Gini index.
- **Learner** (`build_tree`). A node where only one class is left becomes a
  leaf. Otherwise the baseline score is the product of the class fractions over
  the whole node. The gain of a feature is the baseline minus the feature's
  score. The chosen feature has the strictly greatest positive gain. A decision
  node is made with one child per distinct value of that feature. Each child is
  learnt from exactly the samples with that value.
- **Predictor** (`get_class` of `CalcNode` and `LeafNode`). A leaf returns its
  class. A decision node looks its feature up among the providers, reads the
  object's value and follows the route for that value.

Modules, one per concept:

| file | module | contents |
|---|---|---|
| `results.dfy` | `Results` | `Option`, `Result` and the three error kinds |
| `distinct.dfy` | `Distinct` | `sort` + `dedup` as `SortedDistinct` |
| `samples.dfy` | `Samples` | samples, providers, provider lookup, the per-value and per-class selections |
| `impurity.dfy` | `Impurity` | baseline, split score, gain, and their properties |
| `selection.dfy` | `Selection` | the gain fold that picks the split feature |
| `tree.dfy` | `DecisionTree` | `Node`, `Predict`, `Build` |
| `tree_properties.dfy` | `TreeProperties` | leaf, decision-node and perfect-fit theorems |
| `sentinel.dfy` | `SentinelSplit` | the fold as written, with its empty-name sentinel (see Findings) |
| `fixture.dfy` | `TrainingFixture` | the eight training rows of `main` and the tree they lead to |

Modelling choices:

- The object type is a type parameter `O`. A provider is a name paired with a
  total function `O -> int`, as the original's boxed closures are. The
  providers map is a sequence of such pairs. The map's iteration order becomes
  the sequence order. So the choice among equal gains is made explicit: the
  first provider in the sequence wins, as the original's strict `>` fold does.
- Feature values and class labels are `int`. The original uses `i8`, but only
  equality and ordering are ever applied to them.
- Scores are exact `real`s. The original uses `f64`.
- Every `unwrap` that can fail becomes an `Err`: `NoSplitFeature` when no
  feature has positive gain, `MissingProvider` when a node's feature has no
  provider, and `UnseenValue` when the object's value has no route.
- `Build` keeps the index of the chosen provider instead of looking its name
  up again. With unique names, none of them empty, the two agree
  (`SentinelSplit.AsWrittenAgreesWithBuild`).
- Learning from no samples does not fail: there is no class, every feature
  scores 0 against a baseline of 1, so the first provider is chosen and a
  decision node with no routes is returned. With no providers it fails with
  `NoSplitFeature` (`TreeProperties.BuildEmpty`).

## Model

| member | source | states |
|---|---|---|
| `Samples.Lookup` | src/tree/main.rs:30 | the result is the first provider with the given name; `None` exactly when no provider has that name |
| `Samples.LookupOwnName` | src/tree/main.rs:102 | with unique names (map keys), looking up a provider's own name finds that provider |
| `Samples.Filter` | src/tree/main.rs:130 | the group `S_v` is non-empty exactly when `v` occurs, and it is the whole node exactly when the feature is constant `v` |
| `Samples.KeepMembers` | src/tree/main.rs:109 | a selection holds exactly the samples satisfying its condition |
| `Samples.KeepAll` | src/tree/main.rs:109 | a selection never grows, and keeps every sample exactly when all of them satisfy its condition |
| `Samples.FilterMembers` | src/tree/main.rs:130 | the group `S_v` holds exactly the samples whose value is `v` |
| `Samples.ClassCount` | src/tree/main.rs:135 | the number of samples of a class is at most the group size, and positive exactly when the class occurs |
| `Samples.KeepPermutation` | src/tree/main.rs:130 | selecting samples commutes with reordering them |
| `Samples.FilterPermutation` | src/tree/main.rs:124-130 | the groups and the set of occurring values depend only on the multiset of samples |
| `Samples.ClassCountPermutation` | src/tree/main.rs:135 | class counts depend only on the multiset of samples |
| `Distinct.Insert` | src/tree/main.rs:125-126 | inserting into a strictly increasing list keeps it strictly increasing and adds exactly one element value |
| `Distinct.SortedDistinct` | src/tree/main.rs:69-71 | the result is strictly increasing and holds exactly the elements of the input |
| `Distinct.StrictlyIncreasingUnique` | src/tree/main.rs:103-105 | sort + dedup depends only on the set of input values |
| `Distinct.SortedDistinctOfConstant` | src/tree/main.rs:69-73 | a non-empty list of one repeated value has exactly that one distinct value |
| `Distinct.SortedDistinctSingleton` | src/tree/main.rs:73 | one distinct value means every element equals it |
| `Impurity.FractionProduct` | src/tree/main.rs:77-79 | the baseline, a product of class fractions, lies in [0, 1] |
| `Impurity.Term` | src/tree/main.rs:129-139 | the contribution of a value is between 0 and its weight `|S_v|/|S|` |
| `Impurity.SumTerms` | src/tree/main.rs:128-143 | the sum of contributions is between 0 and the sum of the weights |
| `Impurity.FeatureImpurity` | src/tree/main.rs:123-145 | the split score lies in [0, 1] and never divides by an empty group |
| `Impurity.PartitionSizes` | src/tree/main.rs:124-131 | the groups over the distinct values partition the samples: their sizes add up to `|S|` |
| `Impurity.WeightsSumToOne` | src/tree/main.rs:128-143 | the weights `|S_v|/|S|` over the distinct values add up to exactly one |
| `Impurity.ConstantFeatureImpurity` | src/tree/main.rs:123-145 | a feature constant over the node scores exactly the baseline, so its gain is 0 |
| `Impurity.PositiveGainSplits` | src/tree/main.rs:92-109 | a feature with positive gain forms only groups strictly smaller than the node, so the learner terminates |
| `Impurity.FractionProductPermutation` | src/tree/main.rs:77-79 | the baseline depends only on the multiset of samples |
| `Impurity.SumTermsPermutation` | src/tree/main.rs:128-143 | each value's contribution depends only on the multiset of samples |
| `Impurity.ImpurityPermutation` | src/tree/main.rs:123-145 | the split score depends only on the multiset of samples, not on their order |
| `Selection.SelectFrom` | src/tree/main.rs:92-99 | the fold yields `None` exactly when no gain is positive; otherwise the first position of the greatest gain, which is positive |
| `Selection.Select` | src/tree/main.rs:92-99 | from the zero-gain sentinel: the first feature of greatest gain if that gain is positive, `None` exactly when no gain is positive |
| `Selection.AsWrittenAgreesWithSelect` | src/tree/main.rs:92-99 | the name-based fold names the feature `Select` picks, and yields the empty name when nothing is picked |
| `DecisionTree.FindRoute` | src/tree/main.rs:32 | a found route carries the value; `None` exactly when no route has it |
| `DecisionTree.Predict` | src/tree/main.rs:28-40 | a leaf returns its class for any object; a node whose feature has no provider fails with `MissingProvider`; a node whose provider is found but whose object value has no route fails with `UnseenValue` naming the feature and value; any other result is the class of some leaf of the tree, and no other error arises |
| `DecisionTree.NodeClasses` | src/tree/main.rs:69-71 | no samples give no classes |
| `DecisionTree.Build` | src/tree/main.rs:66-121 | learning fails only with `NoSplitFeature` |
| `DecisionTree.BuildRoutes` | src/tree/main.rs:106-112 | one route per value in order, each child the tree learnt from exactly the samples with that value; a failure is some child's failure |
| `TreeProperties.BuildUniform` | src/tree/main.rs:69-76 | samples of a single class give a leaf of that class, whatever the providers |
| `TreeProperties.BuildLeafIsUniform` | src/tree/main.rs:73-75 | a leaf is only made from non-empty samples that all have its class |
| `TreeProperties.BuildEmpty` | src/tree/main.rs:66-121 | no samples give a decision node on the first provider with no routes, or `NoSplitFeature` without providers |
| `TreeProperties.ConstantFeatureGain` | src/tree/main.rs:82-99 | a provider whose feature is constant over the samples has gain exactly 0 and is never the one chosen |
| `TreeProperties.BuildDecision` | src/tree/main.rs:92-119 | a decision node splits on the first feature of greatest positive gain; its route keys are exactly the distinct values over its samples; each child is learnt from exactly the samples with its key, a non-empty strictly smaller set; the sets partition the samples |
| `TreeProperties.PerfectFit` | src/tree/main.rs:103-112 | a learnt tree predicts the class of every one of its training samples |
| `TreeProperties.Descend` | src/tree/main.rs:106-110 | a training sample's value has a route, and the sample lies in that route's subset |
| `TreeProperties.PredictStep` | src/tree/main.rs:28-33 | a decision node with a provider and a route hands the object to that route's child |
| `SentinelSplit.SplitProviderAsWritten` | src/tree/main.rs:92-102 | the provider the original splits on, looked up by the fold's winning name; nothing is found only when no gain is positive |
| `SentinelSplit.AsWrittenAgreesWithBuild` | src/tree/main.rs:92-102 | without a provider named by the empty string the original's lookup finds exactly the provider `Build` uses |
| `SentinelSplit.SentinelCollision` | src/tree/main.rs:92-109 | a constant provider named by the empty string is split on although it gains nothing, and its only child has the parent's samples |
| `TrainingFixture.ExpectedTreeFitsRows` | src/tree/main.rs:50-63 | the tree for the eight rows of `main` reproduces each row's class and classifies the test object as class 2 |
| `TrainingFixture.UnseenValuesAreErrors` | src/tree/main.rs:28-33 | an unseen value or a missing provider is an error, never a default class |

## Left out

- `src/neural/main.rs`: a floating-point perceptron with random sampling, a different algorithm.
- `python/xgboost_sklearn_example.py`: a script over external libraries and CSV files.
- The `println!` diagnostics: they never affect a result.
- `f64` rounding: scores are exact reals. The fold multiplies fractions left to right from the group weight; the model multiplies the same factors in another association, which is the same real number.
- The `i8` width of values and classes: the model uses unbounded integers, and nothing in the core does arithmetic on them.
- The `HashMap` iteration order: the provider sequence fixes it, and the route list is kept in ascending value order (the order `sort` leaves the values in).
- Lifetimes, `Box<dyn Node>` and the providers reference held by each `CalcNode`: `Predict` takes the providers as a parameter.
- The driver `main`: its rows are reused in `TrainingFixture`. That the learner produces `ExpectedTree` on them is not proved: evaluating the learner on concrete rows is beyond what the verifier unfolds cheaply. The tree itself is checked against the rows.
- TrainingFixture.ExpectedTreeFitsRows: checks a hand-derived tree against the eight rows, not that `Build(Rows(), Providers())` equals it. By hand the root splits on f1 (gain 9/64 against 13/192 for f2 and f3); below f1 = 2, f2 and f3 tie at 3/16 and f2 wins by provider order.
- Determinism: every member is a pure function, so learning twice gives the same tree.

## Findings

| source | as written | input that shows it | evidently intended | confidence | as-written member | corrected member |
|---|---|---|---|---|---|---|
| src/tree/main.rs:92-102 | the gain fold starts from the name `""`, and the winning name is then looked up as a feature; if no gain is positive and a provider is registered under `""`, that provider is split on | one provider `""` returning 0 for every object; samples (0, class 1) and (0, class 2) | no feature with positive gain means no split can be made | medium; not executed | `SentinelSplit.SentinelCollision` | `Selection.Select` |

With that input the gain is exactly 0, so the fold keeps `""`. The lookup
finds the `""` provider. Its only value is 0, and the child for 0 receives the
same two samples. The original would recurse on them without end. The
corrected selection returns a position only for a positive gain, so `Build`
reports `NoSplitFeature` on this input.
