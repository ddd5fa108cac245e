/** The optimiser's search space and the two values derived from it before
    a search is launched: one `'float'` sampler per parameter, and bounds
    widened by one on each side of the listed values. Both launcher files
    declare the same seven-parameter space and the same two comprehensions. */
module Search {
  import opened Seqs

  /** A parameter's `[lower, upper]` bounds. */
  datatype Bounds = Bounds(low: real, high: real)

  /** A search space: parameter names, in dict order, with their listed values. */
  type Space = seq<(string, seq<real>)>

  /** `[min(values) - 1, max(values) + 1]`: one below the smallest listed
      value and one above the largest, so every listed value lies strictly
      inside and the range is at least 2 wide. */
  function Widen(values: seq<real>): (b: Bounds)
    requires |values| > 0
    ensures b.low + 1.0 in values && b.high - 1.0 in values
    ensures forall v :: v in values ==> b.low + 1.0 <= v <= b.high - 1.0
    ensures forall v :: v in values ==> b.low < v < b.high
    ensures b.high - b.low >= 2.0
  {
    Bounds(MinOf(values) - 1.0, MaxOf(values) + 1.0)
  }

  /** Every parameter lists at least one value (`min` and `max` of an empty
      list raise). */
  predicate NonEmptyValues(space: Space) {
    forall i :: 0 <= i < |space| ==> |space[i].1| > 0
  }

  /** `param_bounds`: the same parameters in the same order, each widened by
      one on both sides of its listed values. */
  function ParamBounds(space: Space): (r: seq<(string, Bounds)>)
    requires NonEmptyValues(space)
    ensures |r| == |space|
    ensures forall i :: 0 <= i < |r| ==> r[i].0 == space[i].0
    ensures forall i :: 0 <= i < |r| ==> r[i].1 == Widen(space[i].1)
    ensures forall i :: 0 <= i < |r| ==>
      && r[i].1.low + 1.0 in space[i].1 && r[i].1.high - 1.0 in space[i].1
      && (forall v :: v in space[i].1 ==> r[i].1.low + 1.0 <= v <= r[i].1.high - 1.0)
      && (forall v :: v in space[i].1 ==> r[i].1.low < v < r[i].1.high)
      && r[i].1.high - r[i].1.low >= 2.0
  {
    seq(|space|, i requires 0 <= i < |space| && NonEmptyValues(space) => (space[i].0, Widen(space[i].1)))
  }

  /** `param_space_samplers`: one `'float'` per parameter. */
  function Samplers(space: Space): (r: seq<string>)
    ensures |r| == |space|
    ensures forall i :: 0 <= i < |r| ==> r[i] == "float"
  {
    seq(|space|, _ => "float")
  }

  /** The space both launchers search: the E->E gain and the three layer
      weights of the I->E and I->I connections, each listed as [0.5, 1.5]. */
  const SearchSpace: Space := [
    ("EEGain", [0.5, 1.5]),
    ("IEweights.0", [0.5, 1.5]),
    ("IEweights.1", [0.5, 1.5]),
    ("IEweights.2", [0.5, 1.5]),
    ("IIweights.0", [0.5, 1.5]),
    ("IIweights.1", [0.5, 1.5]),
    ("IIweights.2", [0.5, 1.5])
  ]

  /** The listed values [0.5, 1.5] are searched over [-0.5, 2.5]. */
  lemma WidenUnitRange()
    ensures Widen([0.5, 1.5]) == Bounds(-0.5, 2.5)
  {
    assert MinOf([0.5, 1.5]) == 0.5 && MaxOf([0.5, 1.5]) == 1.5;
  }

  /** A space whose parameters all list the same values is widened alike everywhere. */
  lemma UniformBounds(space: Space, values: seq<real>)
    requires |values| > 0 && forall i :: 0 <= i < |space| ==> space[i].1 == values
    ensures NonEmptyValues(space)
    ensures forall i :: 0 <= i < |space| ==> ParamBounds(space)[i].1 == Widen(values)
  {
  }

  /** Every parameter of the launchers' space lists [0.5, 1.5]. */
  lemma SearchSpaceValues()
    ensures forall i :: 0 <= i < |SearchSpace| ==> SearchSpace[i].1 == [0.5, 1.5]
  {
  }

  /** For the launchers' space every parameter is searched over [-0.5, 2.5]
      with a float sampler. */
  lemma SearchSpaceBounds()
    ensures NonEmptyValues(SearchSpace)
    ensures forall i :: 0 <= i < |SearchSpace| ==> ParamBounds(SearchSpace)[i].1 == Bounds(-0.5, 2.5)
    ensures Samplers(SearchSpace) == ["float", "float", "float", "float", "float", "float", "float"]
  {
    SearchSpaceValues();
    UniformBounds(SearchSpace, [0.5, 1.5]);
    WidenUnitRange();
    var sm := Samplers(SearchSpace);
    assert |sm| == 7 && forall i :: 0 <= i < 7 ==> sm[i] == "float";
  }
}
