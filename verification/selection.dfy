/** Choosing the split feature: the fold over the feature scores that keeps
    the entry with the strictly greatest positive gain, starting from a
    zero-gain sentinel. */
module Selection {
  import opened Results

  /** `best` holds the greatest gain of `gains`, and no earlier entry reaches it. */
  ghost predicate IsFirstMaximum(gains: seq<real>, best: nat) {
    && best < |gains|
    && (forall j :: 0 <= j < |gains| ==> gains[j] <= gains[best])
    && (forall j :: 0 <= j < best ==> gains[j] < gains[best])
  }

  /** The fold over `gains[i..]`, given the accumulator `(best, bestGain)`
      built from `gains[..i]`. */
  function SelectFrom(gains: seq<real>, i: nat, best: Option<nat>, bestGain: real): (r: Option<nat>)
    requires i <= |gains|
    requires best.None? ==> bestGain == 0.0 && forall j :: 0 <= j < i ==> gains[j] <= 0.0
    requires best.Some? ==> && best.value < i && gains[best.value] == bestGain && bestGain > 0.0
                            && (forall j :: 0 <= j < i ==> gains[j] <= bestGain)
                            && (forall j :: 0 <= j < best.value ==> gains[j] < bestGain)
    ensures r.None? <==> forall j :: 0 <= j < |gains| ==> gains[j] <= 0.0
    ensures r.Some? ==> IsFirstMaximum(gains, r.value) && gains[r.value] > 0.0
    decreases |gains| - i
  {
    if i == |gains| then best
    else if gains[i] > bestGain then SelectFrom(gains, i + 1, Some(i), gains[i])
    else SelectFrom(gains, i + 1, best, bestGain)
  }

  /** The position of the first feature of greatest gain, provided that gain
      is strictly positive; `None` when no feature has positive gain. */
  function Select(gains: seq<real>): (r: Option<nat>)
    ensures r.None? <==> forall j :: 0 <= j < |gains| ==> gains[j] <= 0.0
    ensures r.Some? ==> IsFirstMaximum(gains, r.value) && gains[r.value] > 0.0
  {
    SelectFrom(gains, 0, None, 0.0)
  }

  /** The fold as the original program writes it: the accumulator starts as
      the pair (empty name, 0.0) and the empty name survives when no gain is
      positive. It is then used as a feature name. */
  function SelectNameFrom(names: seq<string>, gains: seq<real>, i: nat, bestName: string, bestGain: real): (r: string)
    requires |names| == |gains| && i <= |gains|
    decreases |gains| - i
  {
    if i == |gains| then bestName
    else if gains[i] > bestGain then SelectNameFrom(names, gains, i + 1, names[i], gains[i])
    else SelectNameFrom(names, gains, i + 1, bestName, bestGain)
  }

  function SelectNameAsWritten(names: seq<string>, gains: seq<real>): string
    requires |names| == |gains|
  {
    SelectNameFrom(names, gains, 0, "", 0.0)
  }

  lemma {:induction false} SelectNameFromAgrees(names: seq<string>, gains: seq<real>, i: nat, best: Option<nat>, bestGain: real)
    requires |names| == |gains| && i <= |gains|
    requires best.None? ==> bestGain == 0.0 && forall j :: 0 <= j < i ==> gains[j] <= 0.0
    requires best.Some? ==> && best.value < i && gains[best.value] == bestGain && bestGain > 0.0
                            && (forall j :: 0 <= j < i ==> gains[j] <= bestGain)
                            && (forall j :: 0 <= j < best.value ==> gains[j] < bestGain)
    ensures var r := SelectFrom(gains, i, best, bestGain);
            SelectNameFrom(names, gains, i, if best.Some? then names[best.value] else "", bestGain)
              == if r.Some? then names[r.value] else ""
    decreases |gains| - i
  {
    if i < |gains| {
      if gains[i] > bestGain {
        SelectNameFromAgrees(names, gains, i + 1, Some(i), gains[i]);
      } else {
        SelectNameFromAgrees(names, gains, i + 1, best, bestGain);
      }
    }
  }

  /** The fold as written names the feature `Select` chooses when some gain
      is positive, and yields the empty name otherwise. */
  lemma AsWrittenAgreesWithSelect(names: seq<string>, gains: seq<real>)
    requires |names| == |gains|
    ensures Select(gains).Some? ==> SelectNameAsWritten(names, gains) == names[Select(gains).value]
    ensures Select(gains).None? ==> SelectNameAsWritten(names, gains) == ""
  {
    SelectNameFromAgrees(names, gains, 0, None, 0.0);
  }
}
