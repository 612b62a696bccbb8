/** Rounding, sums, maxima and minima of numbers, as `Math.round`, `reduce`, `Math.max(...)` and `Math.min(...)` compute them. */
module Numbers {

  /** `Math.round`: the nearest integer, halves rounded up. */
  function Round(x: real): (r: int)
    ensures r as real - 0.5 <= x < r as real + 0.5
  {
    (x + 0.5).Floor
  }

  /** The `reduce` sum of a list of values. */
  function Sum(xs: seq<real>): real {
    if xs == [] then 0.0 else Sum(xs[..|xs| - 1]) + xs[|xs| - 1]
  }

  /** `Math.max(...xs)`: at least every value, and one of them. */
  function Max(xs: seq<real>): (r: real)
    requires xs != []
    ensures forall i :: 0 <= i < |xs| ==> xs[i] <= r
    ensures exists i :: 0 <= i < |xs| && xs[i] == r
  {
    if |xs| == 1 then xs[0]
    else
      var b := Max(xs[..|xs| - 1]);
      assert forall i :: 0 <= i < |xs| - 1 ==> xs[..|xs| - 1][i] == xs[i];
      if xs[|xs| - 1] > b then xs[|xs| - 1] else b
  }

  /** `Math.min(...xs)`: at most every value, and one of them. */
  function Min(xs: seq<real>): (r: real)
    requires xs != []
    ensures forall i :: 0 <= i < |xs| ==> r <= xs[i]
    ensures exists i :: 0 <= i < |xs| && xs[i] == r
  {
    if |xs| == 1 then xs[0]
    else
      var b := Min(xs[..|xs| - 1]);
      assert forall i :: 0 <= i < |xs| - 1 ==> xs[..|xs| - 1][i] == xs[i];
      if xs[|xs| - 1] < b then xs[|xs| - 1] else b
  }

  /** A sum never exceeds the count times a bound on every value. */
  lemma {:induction false} SumBound(xs: seq<real>, b: real)
    requires forall i :: 0 <= i < |xs| ==> xs[i] <= b
    ensures Sum(xs) <= |xs| as real * b
  {
    var n := |xs|;
    if n > 0 {
      var init := xs[..n - 1];
      assert forall i :: 0 <= i < n - 1 ==> init[i] == xs[i];
      SumBound(init, b);
      assert (n - 1) as real * b + b == n as real * b;
    }
  }

  lemma QuotientBound(t: real, n: real, b: real)
    requires n >= 1.0 && t <= n * b
    ensures t / n <= b
  {
    var q := t / n;
    assert q * n == t;
    assert (b - q) * n == b * n - t;
  }

  /** An average is at most any bound on the values: each average on the screen is at most its personal best. */
  lemma AverageBound(xs: seq<real>, b: real)
    requires xs != []
    requires forall i :: 0 <= i < |xs| ==> xs[i] <= b
    ensures Sum(xs) / |xs| as real <= b
  {
    var t, n := Sum(xs), |xs| as real;
    SumBound(xs, b);
    QuotientBound(t, n, b);
  }
}
