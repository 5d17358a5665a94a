/** Arithmetic shared by the stress scorers: JavaScript's Math.round, min and max
    on numbers, and the left-to-right `reduce((a, b) => a + b, 0)` sums. */
module Numeric {

  /** Math.round: the nearest integer, a half rounded up (towards +infinity). */
  function Round(x: real): (r: int)
    ensures x - 0.5 < r as real <= x + 0.5
  {
    (x + 0.5).Floor
  }

  /** Rounding keeps a value between two integers between them. */
  lemma RoundWithin(x: real, lo: int, hi: int)
    requires lo as real <= x <= hi as real
    ensures lo <= Round(x) <= hi
  {
  }

  /** Rounding is monotone. */
  lemma RoundMonotone(x: real, y: real)
    requires x <= y
    ensures Round(x) <= Round(y)
  {
  }

  function Min(a: real, b: real): (r: real)
    ensures r <= a && r <= b && (r == a || r == b)
  {
    if a <= b then a else b
  }

  function Max(a: real, b: real): (r: real)
    ensures r >= a && r >= b && (r == a || r == b)
  {
    if a >= b then a else b
  }

  /** A count split into sixties and the remainder: hours and minutes, or
      minutes and seconds. */
  function SplitSixty(n: nat): (parts: (nat, nat))
    ensures 60 * parts.0 + parts.1 == n && parts.1 < 60
  {
    (n / 60, n % 60)
  }

  function Abs(x: real): (r: real)
    ensures r >= 0.0 && (r == x || r == -x)
  {
    if x < 0.0 then -x else x
  }

  /** `values.reduce((a, b) => a + b, 0)`: folds from the left. */
  function Sum(values: seq<real>): real
  {
    if values == [] then 0.0 else Sum(values[..|values| - 1]) + values[|values| - 1]
  }

  /** The same sum over integers. */
  function SumInt(values: seq<int>): int
  {
    if values == [] then 0 else SumInt(values[..|values| - 1]) + values[|values| - 1]
  }

  /** `sum / length` for a non-empty list. */
  function Mean(values: seq<real>): real
    requires |values| > 0
  {
    Sum(values) / |values| as real
  }

  /** Division by a positive number is undone by multiplying back. */
  lemma DivideThenMultiply(x: real, n: real)
    requires n > 0.0
    ensures (x / n) * n == x
  {
  }

  /** The mean of a sequence, or 0 for the empty one. */
  function MeanOrZero(values: seq<real>): (m: real)
    ensures |values| == 0 ==> m == 0.0
    ensures m * |values| as real == Sum(values)
  {
    if |values| > 0 then
      DivideThenMultiply(Sum(values), |values| as real);
      Mean(values)
    else 0.0
  }

  /** A multiple of a positive number, divided by it, gives the factor back. */
  lemma CancelDivide(x: real, s: real, n: real)
    requires n > 0.0 && s == n * x
    ensures s / n == x
  {
  }

  /** For a positive n, comparing f with t is comparing f * n with t * n. */
  lemma ScaleCompare(f: real, n: real, x: real, t: real)
    requires n > 0.0 && f * n == x
    ensures f > t <==> x > t * n
  {
    if f > t {
      assert (f - t) * n > 0.0;
    } else {
      assert (t - f) * n >= 0.0;
    }
  }

  /** Dividing by a positive total keeps a value between 0 and hi times the total
      between 0 and hi. */
  lemma RatioBounds(x: real, total: real, hi: real)
    requires total > 0.0 && 0.0 <= x <= hi * total
    ensures 0.0 <= x / total <= hi
  {
    var q := x / total;
    assert q * total == x;
    if q > hi {
      assert q * total > hi * total;
    }
  }

  /** A sum of values that all lie in [lo, hi] lies in [n*lo, n*hi]. */
  lemma {:induction false} SumBounds(values: seq<real>, lo: real, hi: real)
    requires forall i :: 0 <= i < |values| ==> lo <= values[i] <= hi
    ensures |values| as real * lo <= Sum(values) <= |values| as real * hi
  {
    if values != [] {
      SumBounds(values[..|values| - 1], lo, hi);
    }
  }

  /** A sum of non-negative values is non-negative. */
  lemma {:induction false} SumNonNegative(values: seq<real>)
    requires forall i :: 0 <= i < |values| ==> values[i] >= 0.0
    ensures Sum(values) >= 0.0
  {
    if values != [] {
      SumNonNegative(values[..|values| - 1]);
    }
  }

  /** The mean of values that all lie in [lo, hi] lies in [lo, hi]. */
  lemma MeanBounds(values: seq<real>, lo: real, hi: real)
    requires |values| > 0
    requires forall i :: 0 <= i < |values| ==> lo <= values[i] <= hi
    ensures lo <= Mean(values) <= hi
  {
    SumBounds(values, lo, hi);
    var n := |values| as real;
    assert Mean(values) * n == Sum(values);
  }

  /** The index a left-to-right scan keeping the first strictly larger value
      ends on: the first position of the maximum (0 for an empty sequence). */
  function FirstMaxIndex(s: seq<real>): (k: nat)
    ensures |s| > 0 ==> k < |s|
    ensures |s| == 0 ==> k == 0
    ensures forall j :: 0 <= j < |s| ==> s[j] <= s[k]
    ensures forall j :: 0 <= j < k ==> s[j] < s[k]
  {
    if |s| <= 1 then 0
    else
      var k := FirstMaxIndex(s[..|s| - 1]);
      if s[|s| - 1] > s[k] then |s| - 1 else k
  }
}
