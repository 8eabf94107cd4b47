/** Numeric helpers over sequences of exact reals: the pandas/Python reductions the
    trading agents rely on (sum, mean, min, max, sample standard deviation, `tail`,
    `min(1.0, x)` and the built-in `max(..., key=...)`). */
module Stats {

  /** The numeric library's square root, kept abstract: the model only relies on the
      root of a nonnegative number being nonnegative. */
  type SquareRoot = f: real -> real | forall x :: 0.0 <= x ==> 0.0 <= f(x)
    witness (x: real) => 0.0

  /** Left-to-right sum (Python's `sum`). */
  function Sum(xs: seq<real>): real
  {
    if |xs| == 0 then 0.0 else Sum(xs[..|xs| - 1]) + xs[|xs| - 1]
  }

  /** Arithmetic mean (pandas `mean`). */
  function Mean(xs: seq<real>): real
    requires |xs| > 0
  {
    Sum(xs) / |xs| as real
  }

  /** Smallest element (pandas `min`). */
  function Min(xs: seq<real>): (m: real)
    requires |xs| > 0
    ensures forall i :: 0 <= i < |xs| ==> m <= xs[i]
    ensures exists i :: 0 <= i < |xs| && m == xs[i]
  {
    if |xs| == 1 then xs[0]
    else
      var m := Min(xs[..|xs| - 1]);
      if xs[|xs| - 1] < m then xs[|xs| - 1] else m
  }

  /** Largest element (pandas `max`). */
  function Max(xs: seq<real>): (m: real)
    requires |xs| > 0
    ensures forall i :: 0 <= i < |xs| ==> xs[i] <= m
    ensures exists i :: 0 <= i < |xs| && m == xs[i]
  {
    if |xs| == 1 then xs[0]
    else
      var m := Max(xs[..|xs| - 1]);
      if xs[|xs| - 1] > m then xs[|xs| - 1] else m
  }

  /** The last `k` elements, or all of them when there are fewer (pandas `tail(k)`;
      also the window of `rolling(k)` read at its last position when `k <= |xs|`). */
  function Tail(xs: seq<real>, k: nat): (t: seq<real>)
    ensures |t| == if k < |xs| then k else |xs|
    ensures forall i :: 0 <= i < |t| ==> t[i] == xs[|xs| - |t| + i]
  {
    if k < |xs| then xs[|xs| - k..] else xs
  }

  /** Sum of squared deviations from `m`. */
  function SquaredDeviations(xs: seq<real>, m: real): (r: real)
    ensures r >= 0.0
  {
    if |xs| == 0 then 0.0
    else
      var d := xs[|xs| - 1] - m;
      SquareNonNegative(d);
      SquaredDeviations(xs[..|xs| - 1], m) + d * d
  }

  lemma SquareNonNegative(d: real)
    ensures d * d >= 0.0
  {
    if d < 0.0 {
      assert d * d == (-d) * (-d);
    }
  }

  /** Sample variance with one degree of freedom removed (pandas' default `ddof=1`). */
  function SampleVariance(xs: seq<real>): (v: real)
    requires |xs| >= 2
    ensures v >= 0.0
  {
    SquaredDeviations(xs, Mean(xs)) / (|xs| - 1) as real
  }

  /** Sample standard deviation (pandas `std`), the square root of the sample variance. */
  function StdDev(sqrt: SquareRoot, xs: seq<real>): (r: real)
    requires |xs| >= 2
    ensures r >= 0.0
  {
    sqrt(SampleVariance(xs))
  }

  /** Python's `min(1.0, x)` (equivalently `min(x, 1.0)`). */
  function Cap(x: real): (r: real)
    ensures r <= 1.0 && r <= x
    ensures r == x || r == 1.0
  {
    if x < 1.0 then x else 1.0
  }

  /** `(a - b) / b`: how far `a` lies above `b`, relative to `b`. */
  function RelativeDiff(a: real, b: real): real
    requires b != 0.0
  {
    (a - b) / b
  }

  function Ratio(a: real, b: real): real
    requires b != 0.0
  {
    a / b
  }

  function Abs(x: real): real
  {
    if x < 0.0 then -x else x
  }

  /** Index chosen by Python's `max(items, key=...)` when the keys of the items, in
      iteration order, are `xs`: a maximal one, the first of them on a tie (later items
      replace the running best only when strictly greater). */
  function ArgMax(xs: seq<real>): (i: nat)
    requires |xs| > 0
    ensures i < |xs|
    ensures forall j :: 0 <= j < |xs| ==> xs[j] <= xs[i]
    ensures forall j :: 0 <= j < i ==> xs[j] < xs[i]
  {
    if |xs| == 1 then 0
    else
      var b := ArgMax(xs[..|xs| - 1]);
      if xs[|xs| - 1] > xs[b] then |xs| - 1 else b
  }

  lemma {:induction false} SumAppend(a: seq<real>, b: seq<real>)
    ensures Sum(a + b) == Sum(a) + Sum(b)
  {
    if |b| == 0 {
      assert a + b == a;
    } else {
      assert (a + b)[..|a + b| - 1] == a + b[..|b| - 1];
      SumAppend(a, b[..|b| - 1]);
    }
  }

  /** Extending a prefix by one element adds that element to the sum. */
  lemma SumPrefixStep(xs: seq<real>, i: nat)
    requires i < |xs|
    ensures Sum(xs[..i + 1]) == Sum(xs[..i]) + xs[i]
  {
    assert xs[..i + 1][..i] == xs[..i];
  }

  lemma {:induction false} SumAtMost(xs: seq<real>, c: real)
    requires forall i :: 0 <= i < |xs| ==> xs[i] <= c
    ensures Sum(xs) <= |xs| as real * c
  {
    if |xs| > 0 {
      SumAtMost(xs[..|xs| - 1], c);
    }
  }

  lemma {:induction false} SumAtLeast(xs: seq<real>, c: real)
    requires forall i :: 0 <= i < |xs| ==> c <= xs[i]
    ensures |xs| as real * c <= Sum(xs)
  {
    if |xs| > 0 {
      SumAtLeast(xs[..|xs| - 1], c);
    }
  }

  /** A mean lies between the smallest and the largest element. */
  lemma MeanBounds(xs: seq<real>)
    requires |xs| > 0
    ensures Min(xs) <= Mean(xs) <= Max(xs)
  {
    var n, lo, hi, total := |xs| as real, Min(xs), Max(xs), Sum(xs);
    assert lo <= total / n by {
      SumAtLeast(xs, lo);
      DivMonotone(n * lo, total, n);
      Cancel(n, lo);
    }
    assert total / n <= hi by {
      SumAtMost(xs, hi);
      DivMonotone(total, n * hi, n);
      Cancel(n, hi);
    }
  }

  lemma Cancel(n: real, c: real)
    requires n > 0.0
    ensures n * c / n == c
  {
  }

  lemma DivMonotone(a: real, b: real, n: real)
    requires n > 0.0 && a <= b
    ensures a / n <= b / n
  {
    assert b / n - a / n == (b - a) / n;
  }

  /** Dividing by a positive number keeps the sign. */
  lemma DivSign(x: real, y: real)
    requires y > 0.0
    ensures x > 0.0 ==> x / y > 0.0
    ensures x < 0.0 ==> x / y < 0.0
  {
  }

  /** `a` lies above `b` exactly when its change relative to a positive `b` is positive. */
  lemma RelativeSign(a: real, b: real)
    requires b > 0.0
    ensures RelativeDiff(a, b) > 0.0 <==> a > b
    ensures RelativeDiff(a, b) < 0.0 <==> a < b
  {
    DivSign(a - b, b);
  }

  /** The ratio of two positive numbers is positive, and below (above) 1 exactly when the
      first is below (above) the second. */
  lemma RatioAgainstOne(a: real, b: real)
    requires a > 0.0 && b > 0.0
    ensures Ratio(a, b) > 0.0
    ensures Ratio(a, b) < 1.0 <==> a < b
    ensures Ratio(a, b) > 1.0 <==> a > b
  {
    DivSign(a, b);
    DivSign(a - b, b);
    assert b / b == 1.0;
    assert (a - b) / b == a / b - b / b;
  }

  lemma DivAtLeast(x: real, y: real, c: real)
    requires y > 0.0 && x >= c * y
    ensures x / y >= c
  {
    DivSign(x - c * y, y);
    assert (x - c * y) / y == x / y - c;
  }

  lemma DivAtMost(x: real, y: real, c: real)
    requires y > 0.0 && x <= c * y
    ensures x / y <= c
  {
    DivSign(x - c * y, y);
    assert (x - c * y) / y == x / y - c;
  }

  lemma DivBelow(x: real, y: real, c: real)
    requires y > 0.0 && x < c * y
    ensures x / y < c
  {
    DivSign(x - c * y, y);
    assert (x - c * y) / y == x / y - c;
  }

  lemma MeanTimesLength(xs: seq<real>)
    requires |xs| > 0
    ensures Mean(xs) * |xs| as real == Sum(xs)
  {
  }

  lemma MulLess(n: real, a: real, b: real)
    requires n > 0.0 && a < b
    ensures n * a < n * b
  {
  }

  /** Appending values that all exceed every earlier one pulls the mean below the mean
      of the appended part: the mean of the whole is less than the mean of `late`. */
  lemma MeanBelowLargerPart(early: seq<real>, late: seq<real>, p: real)
    requires |early| > 0 && |late| > 0
    requires forall i :: 0 <= i < |early| ==> early[i] <= p
    requires forall j :: 0 <= j < |late| ==> late[j] > p
    ensures Mean(early + late) < Mean(late)
  {
    var ne, nl, m := |early| as real, |late| as real, Mean(late);
    var se, sl := Sum(early), Sum(late);
    assert m > p by {
      MeanBounds(late);
    }
    SumAtMost(early, p);
    SumAppend(early, late);
    MeanTimesLength(late);
    MulLess(ne, p, m);
    assert se + sl < (ne + nl) * m;
    DivBelow(se + sl, ne + nl, m);
    assert |early + late| as real == ne + nl;
  }

  /** The mean of `n` copies of one value is that value. */
  lemma {:induction false} MeanOfConstant(xs: seq<real>, c: real)
    requires |xs| > 0
    requires forall i :: 0 <= i < |xs| ==> xs[i] == c
    ensures Mean(xs) == c
  {
    SumAtMost(xs, c);
    SumAtLeast(xs, c);
    var n := |xs| as real;
    assert Sum(xs) == n * c;
  }
}
