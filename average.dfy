/**
 * The mean helper `calculateAverage`: the mean of the entries that are
 * neither null, undefined nor NaN, or 0 when there is no such entry.
 * An absent entry is `None`; a present one is `Some(v)`.
 */
module Average {
  import opened Wrappers

  /** The entries the helper keeps, in their original order. */
  function Kept(xs: seq<Option<real>>): (r: seq<real>)
    ensures |r| <= |xs|
    ensures forall v :: v in r <==> Some(v) in xs
  {
    if xs == [] then []
    else (if xs[0].Some? then [xs[0].value] else []) + Kept(xs[1..])
  }

  function Sum(s: seq<real>): real
  {
    if s == [] then 0.0 else s[0] + Sum(s[1..])
  }

  /** The mean of the kept entries; 0 for an empty or all-absent input. */
  function CalculateAverage(xs: seq<Option<real>>): (avg: real)
    ensures Kept(xs) == [] ==> avg == 0.0
    ensures Kept(xs) != [] ==> avg == Sum(Kept(xs)) / (|Kept(xs)| as real)
  {
    if |xs| == 0 then 0.0
    else
      var kept := Kept(xs);
      if |kept| == 0 then 0.0 else Sum(kept) / (|kept| as real)
  }

  /** An input whose entries are all absent averages to 0. */
  lemma {:induction false} AllAbsentAveragesZero(xs: seq<Option<real>>)
    requires forall i :: 0 <= i < |xs| ==> xs[i].None?
    ensures CalculateAverage(xs) == 0.0
  {
    AllAbsentKeepsNothing(xs);
  }

  lemma {:induction false} AllAbsentKeepsNothing(xs: seq<Option<real>>)
    requires forall i :: 0 <= i < |xs| ==> xs[i].None?
    ensures Kept(xs) == []
  {
    if xs != [] {
      AllAbsentKeepsNothing(xs[1..]);
    }
  }

  lemma {:induction false} SumBetween(s: seq<real>, lo: real, hi: real)
    requires forall i :: 0 <= i < |s| ==> lo <= s[i] <= hi
    ensures (|s| as real) * lo <= Sum(s) <= (|s| as real) * hi
  {
    if s != [] {
      SumBetween(s[1..], lo, hi);
      var n := (|s| - 1) as real;
      assert (|s| as real) * lo == n * lo + lo;
      assert (|s| as real) * hi == n * hi + hi;
    }
  }

  /** The mean lies between any lower and upper bound of the present entries. */
  lemma MeanWithinBounds(xs: seq<Option<real>>, lo: real, hi: real)
    requires Kept(xs) != []
    requires forall v :: Some(v) in xs ==> lo <= v <= hi
    ensures lo <= CalculateAverage(xs) <= hi
  {
    KeptBetween(xs, lo, hi);
    SeqMeanBetween(Kept(xs), lo, hi);
  }

  lemma SeqMeanBetween(s: seq<real>, lo: real, hi: real)
    requires s != []
    requires forall i :: 0 <= i < |s| ==> lo <= s[i] <= hi
    ensures lo <= Sum(s) / (|s| as real) <= hi
  {
    SumBetween(s, lo, hi);
    MeanBetween(Sum(s), |s| as real, lo, hi);
  }

  lemma KeptBetween(xs: seq<Option<real>>, lo: real, hi: real)
    requires forall v :: Some(v) in xs ==> lo <= v <= hi
    ensures forall i :: 0 <= i < |Kept(xs)| ==> lo <= Kept(xs)[i] <= hi
  {
    var kept := Kept(xs);
    forall i | 0 <= i < |kept| ensures lo <= kept[i] <= hi {
      assert kept[i] in kept;
    }
  }

  lemma MeanBetween(total: real, n: real, lo: real, hi: real)
    requires n > 0.0
    requires n * lo <= total <= n * hi
    ensures lo <= total / n <= hi
  {
    var avg := total / n;
    assert (avg - lo) * n == total - n * lo;
    assert (hi - avg) * n == n * hi - total;
    ProductSign(avg - lo, n);
    ProductSign(hi - avg, n);
  }

  lemma ProductSign(a: real, n: real)
    requires n > 0.0 && a * n >= 0.0
    ensures a >= 0.0
  {
  }

  lemma {:induction false} SumPositive(s: seq<real>)
    requires s != []
    requires forall i :: 0 <= i < |s| ==> s[i] > 0.0
    ensures Sum(s) > 0.0
  {
    if |s| > 1 {
      SumPositive(s[1..]);
    }
  }

  /** A window of positive prices with at least one kept entry has a positive mean. */
  lemma PositiveMean(xs: seq<Option<real>>)
    requires Kept(xs) != []
    requires forall v :: Some(v) in xs ==> v > 0.0
    ensures CalculateAverage(xs) > 0.0
  {
    var kept := Kept(xs);
    forall i | 0 <= i < |kept| ensures kept[i] > 0.0 {
      assert kept[i] in kept;
    }
    SumPositive(kept);
    assert CalculateAverage(xs) == Sum(kept) / (|kept| as real);
  }
}
