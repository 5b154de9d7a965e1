/** Statistics helpers shared by every feature group: the mean, the population
    standard deviation and the clamp to a range, over exact reals. */
module Stats {

  function Max(a: real, b: real): real { if a >= b then a else b }

  function Min(a: real, b: real): real { if a <= b then a else b }

  /** Sum of the entries (Python's `sum`, NumPy's reduction). */
  function Sum(s: seq<real>): real
  {
    if |s| == 0 then 0.0 else s[0] + Sum(s[1..])
  }

  /** A sum of entries that all lie in [lo, hi] lies between |s|*lo and |s|*hi. */
  lemma {:induction false} SumWithin(s: seq<real>, lo: real, hi: real)
    requires forall i :: 0 <= i < |s| ==> lo <= s[i] <= hi
    ensures (|s| as real) * lo <= Sum(s) <= (|s| as real) * hi
  {
    if |s| > 0 {
      SumWithin(s[1..], lo, hi);
    }
  }

  /** safe_mean: the arithmetic mean, and exactly 0.0 on an empty sequence. */
  function Mean(s: seq<real>): (m: real)
    ensures |s| == 0 ==> m == 0.0
  {
    if |s| == 0 then 0.0 else Sum(s) / (|s| as real)
  }

  /** The mean of a non-empty sequence lies between the least and the greatest
      bound its entries respect. */
  lemma MeanWithin(s: seq<real>, lo: real, hi: real)
    requires |s| > 0
    requires forall i :: 0 <= i < |s| ==> lo <= s[i] <= hi
    ensures lo <= Mean(s) <= hi
  {
    var n := |s| as real;
    SumWithin(s, lo, hi);
    assert Mean(s) == Sum(s) / n;
    assert Mean(s) * n == Sum(s);
  }

  /** The mean of a sequence whose entries all equal c is c. */
  lemma MeanOfConstant(s: seq<real>, c: real)
    requires |s| > 0
    requires forall i :: 0 <= i < |s| ==> s[i] == c
    ensures Mean(s) == c
  {
    MeanWithin(s, c, c);
  }

  /** Sum of squared deviations from c: never negative. */
  function SquaredDeviation(s: seq<real>, c: real): (r: real)
    ensures 0.0 <= r
  {
    if |s| == 0 then 0.0
    else
      var d := s[0] - c;
      d * d + SquaredDeviation(s[1..], c)
  }

  /** Entries that all equal c deviate from c by nothing. */
  lemma {:induction false} SquaredDeviationOfConstant(s: seq<real>, c: real)
    requires forall i :: 0 <= i < |s| ==> s[i] == c
    ensures SquaredDeviation(s, c) == 0.0
  {
    if |s| > 0 {
      SquaredDeviationOfConstant(s[1..], c);
    }
  }

  /** Population variance (NumPy's default, ddof = 0). */
  function Variance(s: seq<real>): (v: real)
    ensures 0.0 <= v
  {
    if |s| == 0 then 0.0 else SquaredDeviation(s, Mean(s)) / (|s| as real)
  }

  /** The square root `np.std` applies to the variance is a foreign numeric
      routine; the model takes it as a parameter and assumes of it only what
      every square root satisfies: the root of zero is zero and the root of a
      non-negative number is non-negative. */
  type SquareRoot = f: real -> real | f(0.0) == 0.0 && forall x :: 0.0 <= x ==> 0.0 <= f(x)
    witness (x: real) => 0.0

  /** safe_std: the population standard deviation; exactly 0.0 on an empty
      sequence and never negative. */
  function Std(s: seq<real>, root: SquareRoot): (r: real)
    ensures |s| == 0 ==> r == 0.0
    ensures 0.0 <= r
  {
    if |s| == 0 then 0.0 else root(Variance(s))
  }

  /** A sequence whose entries are all equal has no spread. */
  lemma StdOfConstant(s: seq<real>, c: real, root: SquareRoot)
    requires forall i :: 0 <= i < |s| ==> s[i] == c
    ensures Std(s, root) == 0.0
  {
    if |s| > 0 {
      MeanOfConstant(s, c);
      SquaredDeviationOfConstant(s, c);
    }
  }

  /** A ratio whose denominator is floored at 1 keeps the sign of its
      numerator, is at most 1 when the numerator is at most the denominator,
      and equals 1 exactly when the two are equal. */
  lemma RatioBounds(m: real, d: real)
    requires 1.0 <= d
    ensures m <= 0.0 ==> m / d <= 0.0
    ensures 0.0 < m ==> 0.0 < m / d
    ensures m / d == 0.0 <==> m == 0.0
    ensures d <= m ==> 1.0 <= m / d
    ensures m <= d ==> m / d <= 1.0
    ensures m / d == 1.0 <==> m == d
  {
    var q := m / d;
    assert q * d == m;
  }

  /** clamp: the value bounded above by hi and then below by lo; the bounds
      default to the percentage range [0, 100]. */
  function Clamp(value: real, lo: real := 0.0, hi: real := 100.0): (r: real)
    ensures lo <= hi ==> lo <= r <= hi
    ensures lo <= value <= hi ==> r == value
    ensures lo <= hi < value ==> r == hi
    ensures value < lo ==> r == lo
    ensures hi < lo ==> r == lo
  {
    Max(Min(value, hi), lo)
  }

  /** Number of strictly positive entries (the count of regular months):
      at most the length, equal to it exactly when every entry is positive and
      zero exactly when none is. */
  function CountPositive(s: seq<real>): (n: nat)
    ensures n <= |s|
    ensures n == |s| <==> forall i :: 0 <= i < |s| ==> s[i] > 0.0
    ensures n == 0 <==> forall i :: 0 <= i < |s| ==> s[i] <= 0.0
  {
    if |s| == 0 then 0
    else (if s[0] > 0.0 then 1 else 0) + CountPositive(s[1..])
  }
}
