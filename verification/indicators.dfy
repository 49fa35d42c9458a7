/** The scanner's indicator helpers (`avg`, `seriesEMA`, `rsi`, `atr`,
    `linSlope`, `pct` and the variance under `std`), over exact real numbers.
    Each helper that the program writes as a loop is a method proved against
    a specification function; the properties are proved about the functions. */
module Indicators {
  import opened JsValues

  // ------------------------------------------------------------------
  // Small arithmetic facts the proofs below lean on.

  lemma MulNonNegative(x: real, y: real)
    requires 0.0 <= x && 0.0 <= y
    ensures 0.0 <= x * y
  {
  }

  lemma MulPositive(x: real, y: real)
    requires 0.0 < x && 0.0 < y
    ensures 0.0 < x * y
  {
  }

  lemma QuotientAtLeast(x: real, n: real, lo: real)
    requires 0.0 < n && n * lo <= x
    ensures lo <= x / n
  {
  }

  lemma QuotientAtMost(x: real, n: real, hi: real)
    requires 0.0 < n && x <= n * hi
    ensures x / n <= hi
  {
  }

  function Product(x: real, y: real): real { x * y }

  function Min(a: int, b: int): int { if a <= b then a else b }

  function Abs(x: real): real { if x < 0.0 then -x else x }

  function Max3(a: real, b: real, c: real): (m: real)
    ensures a <= m && b <= m && c <= m
    ensures m == a || m == b || m == c
  {
    if a >= b && a >= c then a else if b >= c then b else c
  }

  // ------------------------------------------------------------------
  // Sums, means and windows.

  /** The sum of a list, folded from the left as `reduce((x,y)=>x+y, 0)` does. */
  function Sum(a: seq<real>): real
  {
    if |a| == 0 then 0.0 else Sum(a[..|a| - 1]) + a[|a| - 1]
  }

  /** `avg`: the arithmetic mean of a list, and 0 for the empty list. */
  function Avg(a: seq<real>): (m: real)
    ensures |a| == 0 ==> m == 0.0
    ensures |a| > 0 ==> m * |a| as real == Sum(a)
  {
    if |a| == 0 then 0.0 else Sum(a) / |a| as real
  }

  lemma {:induction false} SumAtLeast(a: seq<real>, lo: real)
    requires forall i :: 0 <= i < |a| ==> lo <= a[i]
    ensures |a| as real * lo <= Sum(a)
  {
    if |a| > 0 {
      SumAtLeast(a[..|a| - 1], lo);
    }
  }

  lemma {:induction false} SumAtMost(a: seq<real>, hi: real)
    requires forall i :: 0 <= i < |a| ==> a[i] <= hi
    ensures Sum(a) <= |a| as real * hi
  {
    if |a| > 0 {
      SumAtMost(a[..|a| - 1], hi);
    }
  }

  /** The mean of a non-empty list is at least any lower bound of its elements. */
  lemma AvgAtLeast(a: seq<real>, lo: real)
    requires |a| > 0
    requires forall i :: 0 <= i < |a| ==> lo <= a[i]
    ensures lo <= Avg(a)
  {
    SumAtLeast(a, lo);
    QuotientAtLeast(Sum(a), |a| as real, lo);
  }

  /** The mean of a non-empty list is at most any upper bound of its elements. */
  lemma AvgAtMost(a: seq<real>, hi: real)
    requires |a| > 0
    requires forall i :: 0 <= i < |a| ==> a[i] <= hi
    ensures Avg(a) <= hi
  {
    SumAtMost(a, hi);
    QuotientAtMost(Sum(a), |a| as real, hi);
  }

  /** A list of non-negative numbers (including the empty list) has a
      non-negative mean, and a list of zeros has mean 0. */
  lemma AvgOfNonNegative(a: seq<real>)
    requires forall i :: 0 <= i < |a| ==> 0.0 <= a[i]
    ensures 0.0 <= Avg(a)
    ensures (forall i :: 0 <= i < |a| ==> a[i] == 0.0) ==> Avg(a) == 0.0
  {
    if |a| > 0 {
      AvgAtLeast(a, 0.0);
      if forall i :: 0 <= i < |a| ==> a[i] == 0.0 {
        AvgAtMost(a, 0.0);
      }
    }
  }

  /** `s.slice(-n)`: the last n elements of s, or all of s when it is shorter
      (and, as in JavaScript, all of s for n = 0). */
  function Tail<T>(s: seq<T>, n: nat): (r: seq<T>)
    ensures |r| == if n == 0 || n >= |s| then |s| else n
    ensures r == s[|s| - |r|..]
  {
    if n == 0 || n >= |s| then s else s[|s| - n..]
  }

  /** Taking the last m of the last n elements is taking the last m. */
  lemma TailOfTail<T>(s: seq<T>, n: nat, m: nat)
    requires 0 < m <= n
    ensures Tail(Tail(s, n), m) == Tail(s, m)
  {
  }

  /** `s.slice(0, p)`. */
  function Head<T>(s: seq<T>, p: nat): seq<T>
  {
    s[..Min(p, |s|)]
  }

  /** The elements from index p on, which `for (let i=p; i<s.length; i++)` visits. */
  function Drop<T>(s: seq<T>, p: nat): seq<T>
  {
    s[Min(p, |s|)..]
  }

  /** The elements that `for (let i=p; i<s.length; i++)` has visited before reaching i. */
  function Visited<T>(s: seq<T>, p: nat, i: nat): (v: seq<T>)
    requires p <= i
    ensures |v| <= |s|
  {
    s[Min(p, |s|)..Min(i, |s|)]
  }

  lemma VisitedStep<T>(s: seq<T>, p: nat, i: nat)
    requires p <= i < |s|
    ensures Visited(s, p, i + 1) == Visited(s, p, i) + [s[i]]
  {
  }

  /** Once i reaches the end, the loop has visited Drop(s, p). */
  lemma VisitedAll<T>(s: seq<T>, p: nat, i: nat)
    requires p <= i && |s| <= i
    ensures Visited(s, p, i) == Drop(s, p)
  {
  }

  /** The largest element of a non-empty list (`Math.max(...s)`). */
  function Highest(s: seq<real>): (m: real)
    requires |s| > 0
    ensures m in s
    ensures forall i :: 0 <= i < |s| ==> s[i] <= m
  {
    if |s| == 1 then s[0]
    else
      var m := Highest(s[..|s| - 1]);
      if m >= s[|s| - 1] then m else s[|s| - 1]
  }

  /** The smallest element of a non-empty list (`Math.min(...s)`). */
  function Lowest(s: seq<real>): (m: real)
    requires |s| > 0
    ensures m in s
    ensures forall i :: 0 <= i < |s| ==> m <= s[i]
  {
    if |s| == 1 then s[0]
    else
      var m := Lowest(s[..|s| - 1]);
      if m <= s[|s| - 1] then m else s[|s| - 1]
  }

  // ------------------------------------------------------------------
  // pct

  /** `pct(a, b)`: the change from b to a in percent of b, and 0 when b is 0. */
  function Pct(a: real, b: real): (r: real)
    ensures b == 0.0 ==> r == 0.0
    ensures b != 0.0 ==> r * b == 100.0 * (a - b)
  {
    if b == 0.0 then 0.0 else 100.0 * (a - b) / b
  }

  /** A non-zero base and the percentage together give back the value. */
  lemma PctRecoversValue(a: real, b: real)
    requires b != 0.0
    ensures b + b * Pct(a, b) / 100.0 == a
  {
  }

  /** The percentage is 100 times the ratio to the base, less 100. */
  lemma PctOfRatio(a: real, b: real)
    requires b != 0.0
    ensures Pct(a, b) == 100.0 * (a / b) - 100.0
  {
    var r := a / b;
    assert a == r * b;
    var x := 100.0 * (r - 1.0);
    assert 100.0 * (a - b) == x * b;
    assert x * b / b == x;
  }

  /** Against a positive base the percentage is negative exactly below the
      base and positive exactly above it; a zero base always gives 0. */
  lemma PctSign(a: real, b: real)
    ensures b > 0.0 ==> (Pct(a, b) < 0.0 <==> a < b) && (Pct(a, b) > 0.0 <==> a > b)
    ensures b == 0.0 ==> Pct(a, b) == 0.0
  {
    if b > 0.0 {
      assert Pct(a, b) * b == 100.0 * (a - b);
      if Pct(a, b) < 0.0 { assert Pct(a, b) * b < 0.0; }
      if Pct(a, b) > 0.0 { MulPositive(Pct(a, b), b); }
    }
  }

  // ------------------------------------------------------------------
  // The variance under `std` (std itself takes a square root, which is not modelled).

  function SquaredDeviations(a: seq<real>, m: real): seq<real>
  {
    seq(|a|, i requires 0 <= i < |a| => (a[i] - m) * (a[i] - m))
  }

  /** The population variance of a, `avg(a.map(v => (v-m)*(v-m)))`. */
  function Variance(a: seq<real>): real
  {
    Avg(SquaredDeviations(a, Avg(a)))
  }

  lemma VarianceNonNegative(a: seq<real>)
    ensures 0.0 <= Variance(a)
  {
    var d := SquaredDeviations(a, Avg(a));
    forall i | 0 <= i < |d| ensures 0.0 <= d[i] {
      var e := a[i] - Avg(a);
      if e < 0.0 { MulPositive(-e, -e); } else { MulNonNegative(e, e); }
    }
    AvgOfNonNegative(d);
  }

  // ------------------------------------------------------------------
  // seriesEMA

  /** The smoothing factor `2/(n+1)` of an n-period EMA. */
  function Smoothing(n: nat): real
  {
    2.0 / (n as real + 1.0)
  }

  /** The EMA series with factor k: the first element is `arr[0]`, each later
      one is `v*k + prev*(1-k)`. */
  function Ema(arr: seq<real>, k: real): (r: seq<real>)
    ensures |r| == |arr|
    ensures |arr| > 0 ==> r[0] == arr[0]
    decreases |arr|
  {
    if |arr| == 0 then []
    else if |arr| == 1 then [arr[0]]
    else
      var prev := Ema(arr[..|arr| - 1], k);
      prev + [EmaStep(arr[|arr| - 1], prev[|arr| - 2], k)]
  }

  /** One EMA step: the new value v weighted k, the previous EMA weighted 1-k. */
  function EmaStep(v: real, prev: real, k: real): real
  {
    v * k + prev * (1.0 - k)
  }

  /** Appending one value to the input appends one step of the recurrence. */
  lemma EmaAppend(arr: seq<real>, x: real, k: real)
    ensures Ema(arr + [x], k) ==
      if |arr| == 0 then [x] else Ema(arr, k) + [EmaStep(x, Ema(arr, k)[|arr| - 1], k)]
  {
    var s := arr + [x];
    assert s[..|s| - 1] == arr;
  }

  /** `seriesEMA(arr, n)`. */
  method SeriesEma(arr: seq<real>, n: nat) returns (out: seq<real>)
    ensures out == Ema(arr, Smoothing(n))
  {
    out := [];
    var k := 2.0 / (n as real + 1.0);
    var e := if |arr| > 0 then arr[0] else 0.0;
    var i := 0;
    while i < |arr|
      invariant 0 <= i <= |arr|
      invariant out == Ema(arr[..i], k)
      invariant i > 0 ==> e == out[i - 1]
    {
      var v := arr[i];
      ghost var previous := e;
      e := if i == 0 then v else v * k + e * (1.0 - k);
      assert i > 0 ==> e == EmaStep(v, previous, k);
      assert arr[..i + 1] == arr[..i] + [v];
      EmaAppend(arr[..i], v, k);
      out := out + [e];
      i := i + 1;
    }
    assert arr[..|arr|] == arr;
  }

  /** The EMA of a prefix is the prefix of the EMA. */
  lemma {:induction false} EmaPrefix(arr: seq<real>, k: real, j: nat)
    requires j <= |arr|
    ensures Ema(arr[..j], k) == Ema(arr, k)[..j]
    decreases |arr|
  {
    if j < |arr| {
      var p := arr[..|arr| - 1];
      EmaPrefix(p, k, j);
      assert p[..j] == arr[..j];
    } else {
      assert arr[..j] == arr;
    }
  }

  lemma EmaStepAt(arr: seq<real>, k: real, i: nat)
    requires 0 < i < |arr|
    ensures Ema(arr, k)[i] == EmaStep(arr[i], Ema(arr, k)[i - 1], k)
  {
    EmaPrefix(arr, k, i + 1);
    EmaPrefix(arr, k, i);
    assert arr[..i + 1] == arr[..i] + [arr[i]];
    EmaAppend(arr[..i], arr[i], k);
  }

  /** The EMA series has the input's length, starts at `arr[0]` and follows
      the recurrence `e[i] = arr[i]*k + e[i-1]*(1-k)`. */
  lemma EmaRecurrence(arr: seq<real>, k: real)
    ensures |Ema(arr, k)| == |arr|
    ensures |arr| > 0 ==> Ema(arr, k)[0] == arr[0]
    ensures forall i :: 0 < i < |arr| ==> Ema(arr, k)[i] == EmaStep(arr[i], Ema(arr, k)[i - 1], k)
  {
    if |arr| > 0 {
      EmaPrefix(arr, k, 1);
      assert arr[..1] == [arr[0]];
    }
    forall i | 0 < i < |arr|
      ensures Ema(arr, k)[i] == EmaStep(arr[i], Ema(arr, k)[i - 1], k)
    {
      EmaStepAt(arr, k, i);
    }
  }

  /** With 0 <= k <= 1 each EMA value is a weighted mean of inputs, so it
      stays within any bounds of the input. */
  lemma {:induction false} EmaWithinBounds(arr: seq<real>, k: real, lo: real, hi: real)
    requires 0.0 <= k <= 1.0
    requires forall i :: 0 <= i < |arr| ==> lo <= arr[i] <= hi
    ensures forall i :: 0 <= i < |arr| ==> lo <= Ema(arr, k)[i] <= hi
    decreases |arr|
  {
    if |arr| > 1 {
      var p := arr[..|arr| - 1];
      EmaWithinBounds(p, k, lo, hi);
      var prev := Ema(p, k);
      StepWithinBounds(arr[|arr| - 1], prev[|arr| - 2], k, lo, hi);
      assert Ema(arr, k) == prev + [EmaStep(arr[|arr| - 1], prev[|arr| - 2], k)];
    }
  }

  /** One EMA step with 0 <= k <= 1 is a weighted mean of its two inputs. */
  lemma StepWithinBounds(v: real, e: real, k: real, lo: real, hi: real)
    requires 0.0 <= k <= 1.0 && lo <= v <= hi && lo <= e <= hi
    ensures lo <= EmaStep(v, e, k) <= hi
  {
    MulNonNegative(v - lo, k);
    MulNonNegative(e - lo, 1.0 - k);
    MulNonNegative(hi - v, k);
    MulNonNegative(hi - e, 1.0 - k);
    assert v * k + e * (1.0 - k) - lo == (v - lo) * k + (e - lo) * (1.0 - k);
    assert hi - (v * k + e * (1.0 - k)) == (hi - v) * k + (hi - e) * (1.0 - k);
  }

  predicate NonDecreasing(s: seq<real>)
  {
    forall i, j :: 0 <= i < j < |s| ==> s[i] <= s[j]
  }

  predicate StrictlyIncreasing(s: seq<real>)
  {
    forall i, j :: 0 <= i < j < |s| ==> s[i] < s[j]
  }

  /** On a non-decreasing series a faster EMA (larger k) is never below a
      slower one and never above the latest value; on a strictly increasing
      series of two or more points with a strictly faster factor it is
      strictly above the slower one. */
  lemma {:induction false} FastEmaLeadsOnRisingSeries(arr: seq<real>, fast: real, slow: real)
    requires |arr| > 0 && NonDecreasing(arr)
    requires 0.0 < slow <= fast <= 1.0
    ensures Ema(arr, slow)[|arr| - 1] <= Ema(arr, fast)[|arr| - 1] <= arr[|arr| - 1]
    ensures |arr| >= 2 && StrictlyIncreasing(arr) && slow < fast ==>
              Ema(arr, slow)[|arr| - 1] < Ema(arr, fast)[|arr| - 1]
    decreases |arr|
  {
    if |arr| > 1 {
      var n := |arr|;
      var p := arr[..n - 1];
      FastEmaLeadsOnRisingSeries(p, fast, slow);
      assert p[n - 2] <= arr[n - 1];
      assert StrictlyIncreasing(arr) ==> p[n - 2] < arr[n - 1];
      LeadingStep(arr[n - 1], Ema(p, fast)[n - 2], Ema(p, slow)[n - 2], p[n - 2], fast, slow);
    }
  }

  /** One EMA step keeps the faster average between the slower one and the new value. */
  lemma LeadingStep(v: real, f: real, s: real, last: real, fast: real, slow: real)
    requires s <= f <= last <= v
    requires 0.0 < slow <= fast <= 1.0
    ensures EmaStep(v, s, slow) <= EmaStep(v, f, fast) <= v
    ensures last < v && slow < fast ==> EmaStep(v, s, slow) < EmaStep(v, f, fast)
  {
    var f1, s1 := EmaStep(v, f, fast), EmaStep(v, s, slow);
    assert f1 - s1 == (1.0 - fast) * (f - s) + (fast - slow) * (v - s);
    MulNonNegative(1.0 - fast, f - s);
    MulNonNegative(fast - slow, v - s);
    assert v - f1 == (1.0 - fast) * (v - f);
    MulNonNegative(1.0 - fast, v - f);
    if last < v && slow < fast {
      MulPositive(fast - slow, v - s);
    }
  }

  // ------------------------------------------------------------------
  // Wilder smoothing, shared by rsi and atr

  /** Wilder smoothing `a = (a*(p-1) + x)/p` applied to each x of xs in turn, from a0. */
  function Smooth(a0: real, xs: seq<real>, p: nat): real
    requires p >= 1
  {
    if |xs| == 0 then a0
    else WilderStep(Smooth(a0, xs[..|xs| - 1], p), xs[|xs| - 1], p)
  }

  /** One Wilder step `(a*(p-1) + x)/p`. */
  function WilderStep(a: real, x: real, p: nat): real
    requires p >= 1
  {
    (a * (p - 1) as real + x) / p as real
  }

  lemma SmoothAppend(a0: real, xs: seq<real>, x: real, p: nat)
    requires p >= 1
    ensures Smooth(a0, xs + [x], p) == WilderStep(Smooth(a0, xs, p), x, p)
  {
    assert (xs + [x])[..|xs|] == xs;
  }

  /** One more turn of the smoothing loop smooths in one more value. */
  lemma SmoothVisitedStep(a0: real, xs: seq<real>, p: nat, i: nat)
    requires 1 <= p <= i < |xs|
    ensures Smooth(a0, Visited(xs, p, i + 1), p) == WilderStep(Smooth(a0, Visited(xs, p, i), p), xs[i], p)
  {
    VisitedStep(xs, p, i);
    SmoothAppend(a0, Visited(xs, p, i), xs[i], p);
  }

  /** The seed is the mean of the first p values; the rest are smoothed in. */
  function WilderAverage(xs: seq<real>, p: nat): real
    requires p >= 1
  {
    Smooth(Avg(Head(xs, p)), Drop(xs, p), p)
  }

  lemma {:induction false} SmoothNonNegative(a0: real, xs: seq<real>, p: nat)
    requires p >= 1 && 0.0 <= a0
    requires forall i :: 0 <= i < |xs| ==> 0.0 <= xs[i]
    ensures 0.0 <= Smooth(a0, xs, p)
  {
    if |xs| > 0 {
      SmoothNonNegative(a0, xs[..|xs| - 1], p);
      MulNonNegative(Smooth(a0, xs[..|xs| - 1], p), (p - 1) as real);
    }
  }

  lemma {:induction false} SmoothOfZeros(xs: seq<real>, p: nat)
    requires p >= 1
    requires forall i :: 0 <= i < |xs| ==> xs[i] == 0.0
    ensures Smooth(0.0, xs, p) == 0.0
  {
    if |xs| > 0 {
      SmoothOfZeros(xs[..|xs| - 1], p);
    }
  }

  /** Wilder averages of non-negative values are non-negative; of zeros, zero. */
  lemma WilderAverageNonNegative(xs: seq<real>, p: nat)
    requires p >= 1
    requires forall i :: 0 <= i < |xs| ==> 0.0 <= xs[i]
    ensures 0.0 <= WilderAverage(xs, p)
    ensures (forall i :: 0 <= i < |xs| ==> xs[i] == 0.0) ==> WilderAverage(xs, p) == 0.0
  {
    AvgOfNonNegative(Head(xs, p));
    SmoothNonNegative(Avg(Head(xs, p)), Drop(xs, p), p);
    if forall i :: 0 <= i < |xs| ==> xs[i] == 0.0 {
      SmoothOfZeros(Drop(xs, p), p);
    }
  }

  // ------------------------------------------------------------------
  // rsi

  /** The RS that stands in for an infinite one when the loss average is 0. */
  const NoLossRatio: real := 1000000000.0

  /** Consecutive differences `arr[i] - arr[i-1]`. */
  function Deltas(arr: seq<real>): (d: seq<real>)
    ensures |d| == if |arr| == 0 then 0 else |arr| - 1
  {
    if |arr| == 0 then [] else seq(|arr| - 1, i requires 0 <= i < |arr| - 1 => arr[i + 1] - arr[i])
  }

  /** `d.map(x => Math.max(x, 0))`. */
  function Gains(d: seq<real>): (g: seq<real>)
    ensures |g| == |d|
    ensures forall i :: 0 <= i < |g| ==> 0.0 <= g[i]
  {
    seq(|d|, i requires 0 <= i < |d| => if d[i] > 0.0 then d[i] else 0.0)
  }

  /** `d.map(x => Math.max(-x, 0))`. */
  function Losses(d: seq<real>): (l: seq<real>)
    ensures |l| == |d|
    ensures forall i :: 0 <= i < |l| ==> 0.0 <= l[i]
  {
    seq(|d|, i requires 0 <= i < |d| => if -d[i] > 0.0 then -d[i] else 0.0)
  }

  /** `100 - 100/(1+rs)` with `rs = al ? ag/al : 1e9`. */
  function RsiFromAverages(ag: real, al: real): (r: real)
    requires 0.0 <= ag && 0.0 <= al
    ensures 0.0 <= r < 100.0
    ensures al == 0.0 ==> r == 100.0 - 100.0 / (1.0 + NoLossRatio)
    ensures ag == 0.0 && al != 0.0 ==> r == 0.0
  {
    var rs := if al != 0.0 then ag / al else NoLossRatio;
    assert 0.0 <= rs;
    var q := 100.0 / (1.0 + rs);
    assert q * (1.0 + rs) == 100.0;
    assert 0.0 < q <= 100.0 by {
      if q > 100.0 { MulPositive(q - 100.0, 1.0 + rs); MulNonNegative(100.0, rs); }
    }
    100.0 - q
  }

  function GainAverage(arr: seq<real>, p: nat): real
    requires p >= 1
  {
    WilderAverage(Gains(Deltas(arr)), p)
  }

  function LossAverage(arr: seq<real>, p: nat): real
    requires p >= 1
  {
    WilderAverage(Losses(Deltas(arr)), p)
  }

  /** The p-period RSI of arr. */
  function RsiOf(arr: seq<real>, p: nat): (r: real)
    requires p >= 1
    ensures 0.0 <= r < 100.0
  {
    WilderAverageNonNegative(Gains(Deltas(arr)), p);
    WilderAverageNonNegative(Losses(Deltas(arr)), p);
    RsiFromAverages(GainAverage(arr, p), LossAverage(arr, p))
  }

  lemma RsiOfAverages(arr: seq<real>, p: nat)
    requires p >= 1
    ensures 0.0 <= GainAverage(arr, p) && 0.0 <= LossAverage(arr, p)
    ensures RsiOf(arr, p) == RsiFromAverages(GainAverage(arr, p), LossAverage(arr, p))
  {
    WilderAverageNonNegative(Gains(Deltas(arr)), p);
    WilderAverageNonNegative(Losses(Deltas(arr)), p);
  }

  /** The loop at the start of `rsi` that collects the consecutive differences. */
  method Differences(arr: seq<real>) returns (d: seq<real>)
    ensures d == Deltas(arr)
  {
    d := [];
    var i := 1;
    while i < |arr|
      invariant 1 <= i <= if |arr| == 0 then 1 else |arr|
      invariant |d| == i - 1
      invariant forall j :: 0 <= j < |d| ==> d[j] == arr[j + 1] - arr[j]
    {
      d := d + [arr[i] - arr[i - 1]];
      i := i + 1;
    }
  }

  /** `rsi(arr, p)`. */
  method Rsi(arr: seq<real>, p: nat) returns (r: real)
    requires p >= 1
    ensures r == RsiOf(arr, p)
    ensures 0.0 <= r < 100.0
  {
    var d := Differences(arr);
    var gains, losses := Gains(d), Losses(d);
    var ag, al := Avg(Head(gains, p)), Avg(Head(losses, p));
    ghost var g0, l0 := ag, al;
    var i := p;
    while i < |d|
      invariant p <= i && (p <= |d| ==> i <= |d|)
      invariant ag == Smooth(g0, Visited(gains, p, i), p)
      invariant al == Smooth(l0, Visited(losses, p, i), p)
    {
      SmoothVisitedStep(g0, gains, p, i);
      SmoothVisitedStep(l0, losses, p, i);
      ag := WilderStep(ag, gains[i], p);
      al := WilderStep(al, losses[i], p);
      i := i + 1;
    }
    VisitedAll(gains, p, i);
    VisitedAll(losses, p, i);
    assert ag == GainAverage(arr, p) && al == LossAverage(arr, p);
    RsiOfAverages(arr, p);
    r := RsiFromAverages(ag, al);
  }

  /** On a series that never falls the loss average is 0, so the RSI takes
      its saturated value `100 - 100/(1+1e9)`, which is above 50. */
  lemma RsiSaturatesWithoutLosses(arr: seq<real>, p: nat)
    requires p >= 1 && NonDecreasing(arr)
    ensures LossAverage(arr, p) == 0.0
    ensures RsiOf(arr, p) == 100.0 - 100.0 / (1.0 + NoLossRatio)
    ensures RsiOf(arr, p) > 50.0
  {
    var l := Losses(Deltas(arr));
    forall i | 0 <= i < |l| ensures l[i] == 0.0 {
      assert arr[i] <= arr[i + 1];
    }
    WilderAverageNonNegative(l, p);
  }

  /** On a series that never rises but has a non-zero loss average the RSI is 0. */
  lemma RsiZeroWithoutGains(arr: seq<real>, p: nat)
    requires p >= 1
    requires forall i, j :: 0 <= i < j < |arr| ==> arr[i] >= arr[j]
    requires LossAverage(arr, p) != 0.0
    ensures RsiOf(arr, p) == 0.0
  {
    var g := Gains(Deltas(arr));
    forall i | 0 <= i < |g| ensures g[i] == 0.0 {
      assert arr[i] >= arr[i + 1];
    }
    WilderAverageNonNegative(g, p);
  }

  // ------------------------------------------------------------------
  // atr

  /** The true range at bar i, `max(high-low, |high-prevClose|, |low-prevClose|)`;
      NaN where `high[i]` or `low[i]` does not exist (JavaScript reads undefined). */
  function TrueRange(high: seq<real>, low: seq<real>, close: seq<real>, i: nat): (tr: Value)
    requires 1 <= i < |close|
    ensures tr.Num? || tr.NaN?
    ensures tr.Num? <==> i < |high| && i < |low|
    ensures tr.Num? ==> 0.0 <= tr.v
  {
    if i < |high| && i < |low| then
      Num(Max3(high[i] - low[i], Abs(high[i] - close[i - 1]), Abs(low[i] - close[i - 1])))
    else NaN
  }

  /** The true ranges of bars 1 .. |close|-1. */
  function TrueRanges(high: seq<real>, low: seq<real>, close: seq<real>): (trs: seq<Value>)
    ensures |trs| == if |close| == 0 then 0 else |close| - 1
  {
    if |close| == 0 then []
    else seq(|close| - 1, j requires 0 <= j < |close| - 1 => TrueRange(high, low, close, j + 1))
  }

  predicate AllNumbers(xs: seq<Value>)
  {
    forall j :: 0 <= j < |xs| ==> xs[j].Num?
  }

  function Reals(xs: seq<Value>): (r: seq<real>)
    requires AllNumbers(xs)
    ensures |r| == |xs|
  {
    seq(|xs|, j requires 0 <= j < |xs| && AllNumbers(xs) => xs[j].v)
  }

  /** `avg` over values that may be NaN: any NaN makes the sum NaN. */
  function AvgOfValues(xs: seq<Value>): Value
  {
    if AllNumbers(xs) then Num(Avg(Reals(xs))) else NaN
  }

  /** One Wilder step over values that may be NaN. */
  function SmoothStep(a: Value, x: Value, p: nat): Value
    requires p >= 1
  {
    if a.Num? && x.Num? then Num(WilderStep(a.v, x.v, p)) else NaN
  }

  /** The p-period ATR: NaN if any true range is NaN, else the Wilder average of the ranges. */
  function AtrOf(high: seq<real>, low: seq<real>, close: seq<real>, p: nat): (r: Value)
    requires p >= 1
    ensures r.Num? || r.NaN?
  {
    var trs := TrueRanges(high, low, close);
    if AllNumbers(trs) then Num(WilderAverage(Reals(trs), p)) else NaN
  }

  lemma RealsSlice(xs: seq<Value>, a: nat, b: nat)
    requires AllNumbers(xs) && a <= b <= |xs|
    ensures AllNumbers(xs[a..b]) && Reals(xs[a..b]) == Reals(xs)[a..b]
  {
  }

  /** Wilder smoothing over values that may be NaN, one SmoothStep per value. */
  function SmoothValues(a0: Value, xs: seq<Value>, p: nat): Value
    requires p >= 1
  {
    if |xs| == 0 then a0 else SmoothStep(SmoothValues(a0, xs[..|xs| - 1], p), xs[|xs| - 1], p)
  }

  lemma {:induction false} SmoothValuesOfNumbers(a0: real, xs: seq<Value>, p: nat)
    requires p >= 1
    ensures AllNumbers(xs) ==> SmoothValues(Num(a0), xs, p) == Num(Smooth(a0, Reals(xs), p))
    ensures !AllNumbers(xs) ==> SmoothValues(Num(a0), xs, p) == NaN
  {
    if |xs| > 0 {
      var init := xs[..|xs| - 1];
      SmoothValuesOfNumbers(a0, init, p);
      if AllNumbers(xs) {
        assert Reals(xs)[..|xs| - 1] == Reals(init);
      } else if AllNumbers(init) {
        assert !xs[|xs| - 1].Num?;
      } else {
        assert !SmoothValues(Num(a0), init, p).Num?;
      }
    }
  }

  lemma {:induction false} SmoothValuesOfNaN(xs: seq<Value>, p: nat)
    requires p >= 1
    ensures SmoothValues(NaN, xs, p) == NaN
  {
    if |xs| > 0 {
      SmoothValuesOfNaN(xs[..|xs| - 1], p);
    }
  }

  lemma AllNumbersSplit(xs: seq<Value>, p: nat)
    ensures AllNumbers(xs) <==> AllNumbers(Head(xs, p)) && AllNumbers(Drop(xs, p))
    ensures AllNumbers(xs) ==>
      Reals(Head(xs, p)) == Head(Reals(xs), p) && Reals(Drop(xs, p)) == Drop(Reals(xs), p)
  {
    var h := Min(p, |xs|);
    assert xs == Head(xs, p) + Drop(xs, p);
    if AllNumbers(xs) {
      RealsSlice(xs, 0, h);
      RealsSlice(xs, h, |xs|);
      assert xs[0..h] == Head(xs, p);
      assert xs[h..|xs|] == Drop(xs, p);
    }
  }

  /** Smoothing value by value, NaN propagating, gives NaN if any value is NaN
      and the Wilder average otherwise. */
  lemma SmoothValuesIsWilder(xs: seq<Value>, p: nat)
    requires p >= 1
    ensures SmoothValues(AvgOfValues(Head(xs, p)), Drop(xs, p), p) ==
      if AllNumbers(xs) then Num(WilderAverage(Reals(xs), p)) else NaN
  {
    AllNumbersSplit(xs, p);
    if AllNumbers(Head(xs, p)) {
      SmoothValuesOfNumbers(Avg(Reals(Head(xs, p))), Drop(xs, p), p);
    } else {
      SmoothValuesOfNaN(Drop(xs, p), p);
    }
  }

  /** `atr(high, low, close, p)`. */
  method Atr(high: seq<real>, low: seq<real>, close: seq<real>, p: nat) returns (a: Value)
    requires p >= 1
    ensures a == AtrOf(high, low, close, p)
  {
    var trs := TrueRangeSeries(high, low, close);
    a := AvgOfValues(Head(trs, p));
    ghost var seed := a;
    var i := p;
    while i < |trs|
      invariant p <= i && (p <= |trs| ==> i <= |trs|)
      invariant a == SmoothValues(seed, Visited(trs, p, i), p)
    {
      VisitedStep(trs, p, i);
      a := SmoothStep(a, trs[i], p);
      i := i + 1;
    }
    VisitedAll(trs, p, i);
    SmoothValuesIsWilder(trs, p);
  }

  /** The loop at the start of `atr` that collects the true ranges. */
  method TrueRangeSeries(high: seq<real>, low: seq<real>, close: seq<real>) returns (trs: seq<Value>)
    ensures trs == TrueRanges(high, low, close)
  {
    trs := [];
    var i := 1;
    while i < |close|
      invariant 1 <= i <= if |close| == 0 then 1 else |close|
      invariant |trs| == i - 1
      invariant forall j :: 0 <= j < |trs| ==> trs[j] == TrueRange(high, low, close, j + 1)
    {
      trs := trs + [TrueRange(high, low, close, i)];
      i := i + 1;
    }
  }

  /** The ATR is NaN exactly when some bar after the first lacks a high or a
      low (there are at least two closes and high or low is shorter than
      close); otherwise it is a non-negative number, 0 for fewer than two closes. */
  lemma AtrNaNExactlyOnMissingBars(high: seq<real>, low: seq<real>, close: seq<real>, p: nat)
    requires p >= 1
    ensures AtrOf(high, low, close, p).Num? || AtrOf(high, low, close, p).NaN?
    ensures AtrOf(high, low, close, p).NaN? <==> |close| >= 2 && (|high| < |close| || |low| < |close|)
    ensures AtrOf(high, low, close, p).Num? ==> 0.0 <= AtrOf(high, low, close, p).v
    ensures |close| <= 1 ==> AtrOf(high, low, close, p) == Num(0.0)
  {
    var trs := TrueRanges(high, low, close);
    if |close| >= 2 && (|high| < |close| || |low| < |close|) {
      assert !trs[|close| - 2].Num?;
    }
    if AllNumbers(trs) {
      WilderAverageNonNegative(Reals(trs), p);
    }
  }

  // ------------------------------------------------------------------
  // linSlope

  /** The x coordinates `1..n` that linSlope regresses against. */
  function Positions(n: nat): (xs: seq<real>)
    ensures |xs| == n
  {
    seq(n, i requires 0 <= i < n => (i + 1) as real)
  }

  /** `sum (x_i - xm)(a_i - m)` with `x_i = i + 1`. */
  function CrossDeviation(a: seq<real>, m: real, xm: real): real
  {
    if |a| == 0 then 0.0
    else CrossDeviation(a[..|a| - 1], m, xm) + Product(|a| as real - xm, a[|a| - 1] - m)
  }

  /** `sum (x_i - xm)^2` with `x_i = i + 1` for i < n. */
  function SquareDeviation(n: nat, xm: real): real
  {
    if n == 0 then 0.0 else SquareDeviation(n - 1, xm) + Product(n as real - xm, n as real - xm)
  }

  /** The ordinary least-squares slope of a against 1..|a|, with a zero
      denominator replaced by 1. */
  function LeastSquaresSlope(a: seq<real>): real
  {
    var m, xm := Avg(a), Avg(Positions(|a|));
    var num, den := CrossDeviation(a, m, xm), SquareDeviation(|a|, xm);
    num / (if den == 0.0 then 1.0 else den)
  }

  /** `linSlope(arr, n)`. */
  method LinSlope(arr: seq<real>, n: nat) returns (r: real)
    ensures r == LeastSquaresSlope(Tail(arr, n))
  {
    var a := Tail(arr, n);
    var m := Avg(a);
    var xs := Positions(|a|);
    var xm := Avg(xs);
    var num, den := 0.0, 0.0;
    var i := 0;
    while i < |a|
      invariant 0 <= i <= |a|
      invariant num == CrossDeviation(a[..i], m, xm)
      invariant den == SquareDeviation(i, xm)
    {
      assert a[..i + 1][..i] == a[..i];
      num := num + Product(xs[i] - xm, a[i] - m);
      den := den + Product(xs[i] - xm, xs[i] - xm);
      i := i + 1;
    }
    assert a[..|a|] == a;
    r := num / (if den == 0.0 then 1.0 else den);
  }

  lemma {:induction false} SumOfPositions(n: nat)
    ensures Sum(Positions(n)) == (n * (n + 1)) as real / 2.0
  {
    if n > 0 {
      SumOfPositions(n - 1);
      assert Positions(n)[..n - 1] == Positions(n - 1);
      assert Sum(Positions(n)) == Sum(Positions(n - 1)) + n as real;
      assert n * (n + 1) == (n - 1) * n + 2 * n;
    }
  }

  lemma {:induction false} SumOfLine(a: seq<real>, c: real, s: real)
    requires forall i :: 0 <= i < |a| ==> a[i] == c + s * (i + 1) as real
    ensures Sum(a) == |a| as real * c + s * Sum(Positions(|a|))
  {
    var n := |a|;
    if n > 0 {
      SumOfLine(a[..n - 1], c, s);
      assert Positions(n)[..n - 1] == Positions(n - 1);
    }
  }

  /** The mean of points on a line `c + s*x` is the line's value at the mean x. */
  lemma MeanOfLine(a: seq<real>, c: real, s: real)
    requires |a| >= 1
    requires forall i :: 0 <= i < |a| ==> a[i] == c + s * (i + 1) as real
    ensures Avg(a) == c + s * Avg(Positions(|a|))
  {
    var n := |a| as real;
    var xs := Positions(|a|);
    SumOfLine(a, c, s);
    var xm := Avg(xs);
    assert Sum(xs) == xm * n;
    assert Sum(a) == (c + s * xm) * n;
  }

  lemma {:induction false} CrossDeviationOfLine(a: seq<real>, s: real, m: real, xm: real)
    requires forall i :: 0 <= i < |a| ==> a[i] - m == s * ((i + 1) as real - xm)
    ensures CrossDeviation(a, m, xm) == s * SquareDeviation(|a|, xm)
  {
    var n := |a|;
    if n > 0 {
      CrossDeviationOfLine(a[..n - 1], s, m, xm);
      var x := n as real - xm;
      assert x * (a[n - 1] - m) == s * (x * x);
    }
  }

  lemma {:induction false} SquareDeviationAtLeastFirst(n: nat, xm: real)
    requires n >= 1
    ensures SquareDeviation(n, xm) >= (1.0 - xm) * (1.0 - xm)
  {
    if n > 1 {
      SquareDeviationAtLeastFirst(n - 1, xm);
      var x := n as real - xm;
      if x < 0.0 { MulPositive(-x, -x); } else { MulNonNegative(x, x); }
    }
  }

  /** For two or more points x = 1..n are not all equal, so the denominator is positive. */
  lemma SquareDeviationPositive(n: nat)
    requires n >= 2
    ensures SquareDeviation(n, Avg(Positions(n))) > 0.0
  {
    SumOfPositions(n);
    var xm := Avg(Positions(n));
    assert xm * n as real == (n * (n + 1)) as real / 2.0;
    assert xm == (n + 1) as real / 2.0;
    SquareDeviationAtLeastFirst(n, xm);
    MulPositive(xm - 1.0, xm - 1.0);
  }

  /** On points that lie exactly on a line `c + s*x` (x = 1..n, n >= 2) the
      least-squares slope is exactly s. */
  lemma SlopeOfLine(a: seq<real>, c: real, s: real)
    requires |a| >= 2
    requires forall i :: 0 <= i < |a| ==> a[i] == c + s * (i + 1) as real
    ensures LeastSquaresSlope(a) == s
  {
    var xm := Avg(Positions(|a|));
    MeanOfLine(a, c, s);
    var m := Avg(a);
    forall i | 0 <= i < |a| ensures a[i] - m == s * ((i + 1) as real - xm) {
      LineDeviation(a[i], c, s, (i + 1) as real, xm);
    }
    CrossDeviationOfLine(a, s, m, xm);
    SquareDeviationPositive(|a|);
    var den := SquareDeviation(|a|, xm);
    assert LeastSquaresSlope(a) == CrossDeviation(a, m, xm) / den;
    QuotientOfMultiple(s, den);
  }

  lemma LineDeviation(y: real, c: real, s: real, x: real, xm: real)
    requires y == c + s * x
    ensures y - (c + s * xm) == s * (x - xm)
  {
  }

  lemma QuotientOfMultiple(s: real, d: real)
    requires d != 0.0
    ensures (s * d) / d == s
  {
  }

  /** A constant window, of any length, has slope 0. */
  lemma SlopeOfConstant(a: seq<real>, c: real)
    requires forall i :: 0 <= i < |a| ==> a[i] == c
    ensures LeastSquaresSlope(a) == 0.0
  {
    if |a| >= 2 {
      SlopeOfLine(a, c, 0.0);
    } else if |a| == 1 {
      assert Sum(a) == Sum(a[..0]) + a[0];
      assert Avg(a) == c;
      assert CrossDeviation(a, Avg(a), Avg(Positions(1))) == Product(1.0 - Avg(Positions(1)), 0.0);
    }
  }
}
