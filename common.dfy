/** Shared vocabulary of the scalp-signal engine: bars, values that may be
    missing (pandas NaN), sums and extremes over a series, and the two
    pandas positional helpers the engine leans on, `tail` and `shift`. */
module Common {

  /** A value that may be missing. `None` plays the part of NaN: every
      comparison that involves it is false. */
  datatype Option<+T> = None | Some(value: T)

  /** One OHLCV bar of a price history; `ts` is the bar's timestamp. */
  datatype Bar = Bar(ts: int, open: real, high: real, low: real, close: real, volume: real)

  /** A price band [low, high] (order blocks and fair-value gaps). */
  datatype Zone = Zone(low: real, high: real)

  /** A bar whose close lies within its own range and whose volume is not negative. */
  predicate WellFormed(b: Bar) {
    b.low <= b.close <= b.high && b.volume >= 0.0
  }

  function Opens(bars: seq<Bar>): seq<real> {
    seq(|bars|, i requires 0 <= i < |bars| => bars[i].open)
  }

  function Highs(bars: seq<Bar>): seq<real> {
    seq(|bars|, i requires 0 <= i < |bars| => bars[i].high)
  }

  function Lows(bars: seq<Bar>): seq<real> {
    seq(|bars|, i requires 0 <= i < |bars| => bars[i].low)
  }

  function Closes(bars: seq<Bar>): seq<real> {
    seq(|bars|, i requires 0 <= i < |bars| => bars[i].close)
  }

  function Volumes(bars: seq<Bar>): seq<real> {
    seq(|bars|, i requires 0 <= i < |bars| => bars[i].volume)
  }

  function Timestamps(bars: seq<Bar>): seq<int> {
    seq(|bars|, i requires 0 <= i < |bars| => bars[i].ts)
  }

  /** A series of finite values seen as a series that may hold NaN. */
  function Defined(xs: seq<real>): seq<Option<real>> {
    seq(|xs|, i requires 0 <= i < |xs| => Some(xs[i]))
  }

  function MinInt(a: int, b: int): int { if a <= b then a else b }
  function MaxInt(a: int, b: int): int { if a >= b then a else b }
  function MinReal(a: real, b: real): real { if a <= b then a else b }
  function MaxReal(a: real, b: real): real { if a >= b then a else b }
  function Abs(x: real): real { if x < 0.0 then -x else x }

  // NaN-aware comparisons: false as soon as either side is missing.
  predicate Lt(a: Option<real>, b: Option<real>) { a.Some? && b.Some? && a.value < b.value }
  predicate Le(a: Option<real>, b: Option<real>) { a.Some? && b.Some? && a.value <= b.value }
  predicate Gt(a: Option<real>, b: Option<real>) { a.Some? && b.Some? && a.value > b.value }
  predicate Ge(a: Option<real>, b: Option<real>) { a.Some? && b.Some? && a.value >= b.value }

  /** Sum of a series. */
  function Sum(xs: seq<real>): real {
    if xs == [] then 0.0 else xs[0] + Sum(xs[1..])
  }

  /** A sum splits at any position. */
  lemma {:induction false} SumSplit(xs: seq<real>, k: nat)
    requires k <= |xs|
    ensures Sum(xs) == Sum(xs[..k]) + Sum(xs[k..])
  {
    if k > 0 {
      SumSplit(xs[1..], k - 1);
      assert xs[1..][..k - 1] == xs[..k][1..];
      assert xs[1..][k - 1..] == xs[k..];
    } else {
      assert xs[k..] == xs;
    }
  }

  /** The sum over positions a..b-1 is the difference of two prefix sums. */
  lemma WindowSum(xs: seq<real>, a: nat, b: nat)
    requires a <= b <= |xs|
    ensures Sum(xs[a..b]) == Sum(xs[..b]) - Sum(xs[..a])
  {
    SumSplit(xs[..b], a);
    assert xs[..b][..a] == xs[..a];
    assert xs[..b][a..] == xs[a..b];
  }

  /** pandas `min` over a non-empty series: an element no larger than any other. */
  function SeqMin(xs: seq<real>): (m: real)
    requires |xs| > 0
    ensures exists t :: 0 <= t < |xs| && m == xs[t]
    ensures forall i :: 0 <= i < |xs| ==> m <= xs[i]
  {
    if |xs| == 1 then xs[0]
    else
      var rest := SeqMin(xs[1..]);
      assert forall i :: 1 <= i < |xs| ==> xs[i] == xs[1..][i - 1];
      if xs[0] <= rest then xs[0] else rest
  }

  /** pandas `max` over a non-empty series: an element no smaller than any other. */
  function SeqMax(xs: seq<real>): (m: real)
    requires |xs| > 0
    ensures exists t :: 0 <= t < |xs| && m == xs[t]
    ensures forall i :: 0 <= i < |xs| ==> xs[i] <= m
  {
    if |xs| == 1 then xs[0]
    else
      var rest := SeqMax(xs[1..]);
      assert forall i :: 1 <= i < |xs| ==> xs[i] == xs[1..][i - 1];
      if xs[0] >= rest then xs[0] else rest
  }

  /** pandas `tail(k)`: the last k rows when k > 0 (all of them when k exceeds
      the length), no rows when k == 0, and every row but the first -k when k < 0.
      Whatever k is, the result is a suffix of the input. */
  function Tail<T>(xs: seq<T>, k: int): (r: seq<T>)
    ensures |r| <= |xs|
    ensures r == xs[|xs| - |r|..]
    ensures k >= 0 ==> |r| == MinInt(k, |xs|)
    ensures k < 0 ==> |r| == MaxInt(|xs| + k, 0)
  {
    if k == 0 then []
    else if k > 0 then (if k >= |xs| then xs else xs[|xs| - k..])
    else (if -k >= |xs| then [] else xs[-k..])
  }

  /** `shift(k).iloc[-1]`: the value k positions before the last one; NaN
      (None) when the series holds no more than k values. */
  function Back(xs: seq<Option<real>>, k: nat): (r: Option<real>)
    ensures k < |xs| ==> r == xs[|xs| - 1 - k]
    ensures k >= |xs| ==> r == None
  {
    if k < |xs| then xs[|xs| - 1 - k] else None
  }
}
