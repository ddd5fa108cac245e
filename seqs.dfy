/** Python's `min` and `max` over a non-empty list of numbers, shared by the
    scoring and the search space. */
module Seqs {

  /** Python's `min(values)`. */
  function MinOf(values: seq<real>): (r: real)
    requires |values| > 0
    ensures r in values
    ensures forall v :: v in values ==> r <= v
    ensures forall i :: 0 <= i < |values| ==> r <= values[i]
  {
    if |values| == 1 then values[0]
    else
      var rest := MinOf(values[1..]);
      assert forall v :: v in values ==> v == values[0] || v in values[1..];
      if values[0] <= rest then values[0] else rest
  }

  /** Python's `max(values)`. */
  function MaxOf(values: seq<real>): (r: real)
    requires |values| > 0
    ensures r in values
    ensures forall v :: v in values ==> v <= r
    ensures forall i :: 0 <= i < |values| ==> values[i] <= r
  {
    if |values| == 1 then values[0]
    else
      var rest := MaxOf(values[1..]);
      assert forall v :: v in values ==> v == values[0] || v in values[1..];
      if values[0] >= rest then values[0] else rest
  }
}
