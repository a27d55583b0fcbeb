/**
 * Tier tables: an ordered list of thresholds, tried in order, where the first
 * threshold the value passes decides the outcome and a value that passes none
 * falls through to the default. This is what the evaluators' `if`/`else if`
 * chains do.
 */
module Tiers {

  /** How a value is compared with a threshold (`>`, `>=` or `<`). */
  datatype Cmp = Gt | Ge | Lt

  predicate Hits(cmp: Cmp, x: real, bound: real)
  {
    match cmp
    case Gt => x > bound
    case Ge => x >= bound
    case Lt => x < bound
  }

  /** Moving from `x` to `y` goes in the direction in which a threshold, once passed, stays passed. */
  predicate Toward(cmp: Cmp, x: real, y: real)
  {
    if cmp == Lt then y <= x else x <= y
  }

  /** The index of the first threshold that `x` passes, or `|bounds|` when it passes none. */
  function FirstHit(bounds: seq<real>, cmp: Cmp, x: real): (i: nat)
    ensures i <= |bounds|
    ensures i < |bounds| ==> Hits(cmp, x, bounds[i])
    ensures forall j :: 0 <= j < i ==> !Hits(cmp, x, bounds[j])
    decreases |bounds|
  {
    if bounds == [] then 0
    else if Hits(cmp, x, bounds[0]) then 0
    else 1 + FirstHit(bounds[1..], cmp, x)
  }

  /** Moving toward the thresholds can only reach an earlier (or the same) tier. */
  lemma FirstHitMonotone(bounds: seq<real>, cmp: Cmp, x: real, y: real)
    requires Toward(cmp, x, y)
    ensures FirstHit(bounds, cmp, y) <= FirstHit(bounds, cmp, x)
  {
    var i := FirstHit(bounds, cmp, x);
    if i < |bounds| {
      assert Hits(cmp, y, bounds[i]);
    }
  }

  /** Outcome values that do not increase down the table. */
  predicate NonIncreasing(s: seq<nat>)
  {
    forall i, j :: 0 <= i <= j < |s| ==> s[j] <= s[i]
  }
}
