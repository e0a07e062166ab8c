/**
 * The three helpers nested in the parser: minimum, maximum and average of a
 * price list, each absent (None) for an empty list rather than a sentinel.
 * Prices are exact reals; Python's `round(x, 4)` is modelled as rounding to
 * the nearest multiple of 1/10000 with ties to even.
 */
module Aggregates {
  import opened Wrappers

  /** `_safe_min`: the least price, None for an empty list. */
  function SafeMin(lst: seq<real>): (r: Option<real>)
    ensures r.None? <==> lst == []
    ensures r.Some? ==> r.value in lst && forall x :: x in lst ==> r.value <= x
  {
    if lst == [] then None
    else
      assert lst == [lst[0]] + lst[1..];
      match SafeMin(lst[1..])
      case None => Some(lst[0])
      case Some(m) => Some(if lst[0] <= m then lst[0] else m)
  }

  /** `_safe_max`: the greatest price, None for an empty list. */
  function SafeMax(lst: seq<real>): (r: Option<real>)
    ensures r.None? <==> lst == []
    ensures r.Some? ==> r.value in lst && forall x :: x in lst ==> x <= r.value
  {
    if lst == [] then None
    else
      assert lst == [lst[0]] + lst[1..];
      match SafeMax(lst[1..])
      case None => Some(lst[0])
      case Some(m) => Some(if m <= lst[0] then lst[0] else m)
  }

  /** Python's `sum` over exact reals. */
  function Sum(lst: seq<real>): real
  {
    if lst == [] then 0.0 else lst[0] + Sum(lst[1..])
  }

  /** The unrounded mean `sum(lst) / len(lst)`. */
  function Mean(lst: seq<real>): real
    requires lst != []
  {
    Sum(lst) / |lst| as real
  }

  /** A value with at most four decimal digits. */
  predicate OnGrid(x: real)
  {
    (x * 10000.0).Floor as real == x * 10000.0
  }

  /** The nearest integer to y, ties going to the even neighbour. */
  function RoundHalfEven(y: real): (k: int)
    ensures y - 0.5 <= k as real <= y + 0.5
    ensures (k as real == y - 0.5 || k as real == y + 0.5) ==> k % 2 == 0
    ensures y.Floor <= k && (k as real <= y || k == y.Floor + 1)
  {
    var f := y.Floor;
    var frac := y - f as real;
    if frac < 0.5 then f
    else if frac > 0.5 then f + 1
    else if f % 2 == 0 then f
    else f + 1
  }

  /** Python's `round(x, 4)` on an exact value. */
  function Round4(x: real): (r: real)
    ensures OnGrid(r)
    ensures x - 0.00005 <= r <= x + 0.00005
    ensures (r == x - 0.00005 || r == x + 0.00005) ==> (r * 10000.0).Floor % 2 == 0
  {
    var k := RoundHalfEven(x * 10000.0);
    var r := k as real / 10000.0;
    assert r * 10000.0 == k as real;
    assert (k as real).Floor == k;
    r
  }

  /** `_safe_avg`: the mean rounded to four decimals, None for an empty list. */
  function SafeAvg(lst: seq<real>): (r: Option<real>)
    ensures r.None? <==> lst == []
    ensures r.Some? ==> OnGrid(r.value) && Mean(lst) - 0.00005 <= r.value <= Mean(lst) + 0.00005
    ensures r.Some? && (r.value == Mean(lst) - 0.00005 || r.value == Mean(lst) + 0.00005) ==>
      (r.value * 10000.0).Floor % 2 == 0
  {
    if lst == [] then None else Some(Round4(Mean(lst)))
  }

  lemma {:induction false} SumBounds(lst: seq<real>, lo: real, hi: real)
    requires forall x :: x in lst ==> lo <= x <= hi
    ensures |lst| as real * lo <= Sum(lst) <= |lst| as real * hi
  {
    if lst != [] {
      assert lst[0] in lst && forall x :: x in lst[1..] ==> x in lst;
      SumBounds(lst[1..], lo, hi);
      assert |lst| as real * lo == |lst[1..]| as real * lo + lo;
      assert |lst| as real * hi == |lst[1..]| as real * hi + hi;
    }
  }

  /** The mean lies between the minimum and the maximum. */
  lemma {:induction false} MeanBetweenMinAndMax(lst: seq<real>)
    requires lst != []
    ensures SafeMin(lst).value <= Mean(lst) <= SafeMax(lst).value
  {
    var lo, hi, n := SafeMin(lst).value, SafeMax(lst).value, |lst| as real;
    SumBounds(lst, lo, hi);
    QuotientBounds(Sum(lst), n, lo, hi);
  }

  lemma {:induction false} QuotientBounds(s: real, n: real, lo: real, hi: real)
    requires n > 0.0 && n * lo <= s <= n * hi
    ensures lo <= s / n <= hi
  {
    var q := s / n;
    assert q * n == s;
  }

  /** Rounding never leaves an interval whose ends have four decimals. */
  lemma {:induction false} Round4Monotone(x: real, lo: real, hi: real)
    requires OnGrid(lo) && OnGrid(hi) && lo <= x <= hi
    ensures lo <= Round4(x) <= hi
  {
    var y := x * 10000.0;
    var k := RoundHalfEven(y);
    assert (lo * 10000.0).Floor <= y.Floor;
    assert y.Floor <= (hi * 10000.0).Floor;
  }

  /**
   * The average is within rounding distance of [min, max], and inside it
   * when min and max have four decimals or fewer.
   */
  lemma {:induction false} AvgBetweenMinAndMax(lst: seq<real>)
    requires lst != []
    ensures SafeMin(lst).value - 0.00005 <= SafeAvg(lst).value <= SafeMax(lst).value + 0.00005
    ensures OnGrid(SafeMin(lst).value) && OnGrid(SafeMax(lst).value) ==>
      SafeMin(lst).value <= SafeAvg(lst).value <= SafeMax(lst).value
  {
    MeanBetweenMinAndMax(lst);
    if OnGrid(SafeMin(lst).value) && OnGrid(SafeMax(lst).value) {
      Round4Monotone(Mean(lst), SafeMin(lst).value, SafeMax(lst).value);
    }
  }
}
