/** The daily price/volume table the agents read (a pandas DataFrame with the columns
    `open_price`, `high_price`, `low_price`, `close_price` and `volume`, oldest row first),
    with its column projections and the derived series the agents share. */
module Market {
  import opened Stats

  datatype Observation = Observation(open: real, high: real, low: real, close: real, volume: nat)

  type Series = seq<Observation>

  function Closes(s: Series): (c: seq<real>)
    ensures |c| == |s| && forall i :: 0 <= i < |s| ==> c[i] == s[i].close
  {
    seq(|s|, i requires 0 <= i < |s| => s[i].close)
  }

  function Lows(s: Series): (c: seq<real>)
    ensures |c| == |s| && forall i :: 0 <= i < |s| ==> c[i] == s[i].low
  {
    seq(|s|, i requires 0 <= i < |s| => s[i].low)
  }

  function Highs(s: Series): (c: seq<real>)
    ensures |c| == |s| && forall i :: 0 <= i < |s| ==> c[i] == s[i].high
  {
    seq(|s|, i requires 0 <= i < |s| => s[i].high)
  }

  function Volumes(s: Series): (c: seq<real>)
    ensures |c| == |s| && forall i :: 0 <= i < |s| ==> c[i] == s[i].volume as real
  {
    seq(|s|, i requires 0 <= i < |s| => s[i].volume as real)
  }

  /** Every close price is positive, so relative changes and ratios to averages are defined. */
  predicate PositiveCloses(s: Series)
  {
    forall i :: 0 <= i < |s| ==> s[i].close > 0.0
  }

  function Last(s: Series): Observation
    requires |s| > 0
  {
    s[|s| - 1]
  }

  /** `close_price.pct_change()` without its undefined first entry: entry `i` is the
      relative change from day `i` to day `i + 1`, so `rolling(w)` over the pandas
      series is defined at its last position exactly when `w <= |Returns(s)|`. */
  function Returns(s: Series): (r: seq<real>)
    requires PositiveCloses(s)
    ensures |r| == if |s| == 0 then 0 else |s| - 1
  {
    // pandas computes `close[i + 1] / close[i] - 1`, the same real number
    if |s| == 0 then []
    else seq(|s| - 1, i requires 0 <= i < |s| - 1 => RelativeDiff(s[i + 1].close, s[i].close))
  }

  /** `close_price.rolling(window=w).mean()` read at the last row. */
  function MovingAverage(s: Series, w: nat): (ma: real)
    requires 0 < w <= |s|
    ensures Min(Tail(Closes(s), w)) <= ma <= Max(Tail(Closes(s), w))
    ensures PositiveCloses(s) ==> ma > 0.0
  {
    var window := Tail(Closes(s), w);
    MeanBounds(window);
    Mean(window)
  }
}
