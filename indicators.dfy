/** The indicator primitives of indicators.py: cumulative VWAP, ATR, EMA,
    swing-low/high flags, the three-bar fair-value-gap scan, the order-block
    search and the zone-membership test. */
module Indicators {
  import opened Common
  import opened SeriesOps

  // ---------------------------------------------------------------- cumsum

  /** pandas `cumsum` computed as a forward pass that carries the running
      total `acc`: each output is `acc` plus the sum of the inputs so far. */
  function RunningSumsFrom(acc: real, xs: seq<real>): (r: seq<real>)
    decreases xs
    ensures |r| == |xs|
    ensures forall k :: 0 <= k < |xs| ==> r[k] == acc + Sum(xs[..k + 1])
  {
    if xs == [] then []
    else
      assert forall k :: 0 < k < |xs| ==> xs[..k + 1][1..] == xs[1..][..k];
      [acc + xs[0]] + RunningSumsFrom(acc + xs[0], xs[1..])
  }

  /** pandas `cumsum`: position k holds the sum of positions 0..k. */
  function RunningSums(xs: seq<real>): (r: seq<real>)
    ensures |r| == |xs|
    ensures forall k :: 0 <= k < |xs| ==> r[k] == Sum(xs[..k + 1])
  {
    RunningSumsFrom(0.0, xs)
  }

  // ------------------------------------------------------------------ VWAP

  function TypicalPrice(b: Bar): real {
    (b.high + b.low + b.close) / 3.0
  }

  function PriceVolumes(bars: seq<Bar>): seq<real> {
    seq(|bars|, i requires 0 <= i < |bars| => TypicalPrice(bars[i]) * bars[i].volume)
  }

  /** Cumulative VWAP: the running sum of typical price times volume over the
      running sum of volume, NaN where the running volume is zero. */
  function Vwap(bars: seq<Bar>): (r: seq<Option<real>>)
    ensures |r| == |bars|
  {
    var pv := RunningSums(PriceVolumes(bars));
    var cv := RunningSums(Volumes(bars));
    seq(|bars|, k requires 0 <= k < |bars| => if cv[k] == 0.0 then None else Some(pv[k] / cv[k]))
  }

  /** The VWAP at bar k is undefined exactly when the volume up to k sums to
      zero, and is otherwise the price-volume sum over the volume sum up to k. */
  lemma VwapSpec(bars: seq<Bar>)
    ensures forall k :: 0 <= k < |bars| ==>
      (Vwap(bars)[k].None? <==> Sum(Volumes(bars)[..k + 1]) == 0.0)
    ensures forall k :: 0 <= k < |bars| && Vwap(bars)[k].Some? ==>
      Vwap(bars)[k].value == Sum(PriceVolumes(bars)[..k + 1]) / Sum(Volumes(bars)[..k + 1])
  {
  }

  /** Volumes that are not negative have a sum that is not negative. */
  lemma {:induction false} VolumeSumNonNegative(bs: seq<Bar>)
    requires forall i :: 0 <= i < |bs| ==> bs[i].volume >= 0.0
    ensures Sum(Volumes(bs)) >= 0.0
  {
    if bs != [] {
      VolumeSumNonNegative(bs[1..]);
      assert Volumes(bs)[1..] == Volumes(bs[1..]);
    }
  }

  /** When every p[i] is at least c * v[i], the sum of p is at least c
      times the sum of v. */
  lemma {:induction false} WeightedSumAbove(p: seq<real>, v: seq<real>, c: real)
    requires |p| == |v|
    requires forall i :: 0 <= i < |p| ==> c * v[i] <= p[i]
    ensures c * Sum(v) <= Sum(p)
  {
    if p != [] {
      var p', v' := p[1..], v[1..];
      assert forall i :: 0 <= i < |p'| ==> p'[i] == p[i + 1] && v'[i] == v[i + 1];
      WeightedSumAbove(p', v', c);
      Distribute(c, v[0], Sum(v'));
    }
  }

  /** When every p[i] is at most c * v[i], the sum of p is at most c times
      the sum of v. */
  lemma {:induction false} WeightedSumBelow(p: seq<real>, v: seq<real>, c: real)
    requires |p| == |v|
    requires forall i :: 0 <= i < |p| ==> p[i] <= c * v[i]
    ensures Sum(p) <= c * Sum(v)
  {
    if p != [] {
      var p', v' := p[1..], v[1..];
      assert forall i :: 0 <= i < |p'| ==> p'[i] == p[i + 1] && v'[i] == v[i + 1];
      WeightedSumBelow(p', v', c);
      Distribute(c, v[0], Sum(v'));
    }
  }

  lemma Distribute(c: real, a: real, b: real)
    ensures c * (a + b) == c * a + c * b
  {
  }

  /** With volumes that are not negative and typical prices inside [lo, hi],
      the price-volume sum lies between lo and hi times the volume sum. */
  lemma {:induction false} PriceVolumeBounds(bs: seq<Bar>, lo: real, hi: real)
    requires forall i :: 0 <= i < |bs| ==> lo <= TypicalPrice(bs[i]) <= hi && bs[i].volume >= 0.0
    ensures lo * Sum(Volumes(bs)) <= Sum(PriceVolumes(bs)) <= hi * Sum(Volumes(bs))
  {
    var p, v := PriceVolumes(bs), Volumes(bs);
    forall i | 0 <= i < |p|
      ensures lo * v[i] <= p[i] <= hi * v[i]
    {
      MulMonotone(lo, TypicalPrice(bs[i]), bs[i].volume);
      MulMonotone(TypicalPrice(bs[i]), hi, bs[i].volume);
    }
    WeightedSumAbove(p, v, lo);
    WeightedSumBelow(p, v, hi);
  }

  lemma MulMonotone(a: real, b: real, v: real)
    requires a <= b && v >= 0.0
    ensures a * v <= b * v
  {
    MulNonNegative(b - a, v);
    assert (b - a) * v == b * v - a * v;
  }

  lemma DivBounds(p: real, v: real, lo: real, hi: real)
    requires v >= 0.0 && v != 0.0
    requires lo * v <= p && p <= hi * v
    ensures lo <= p / v <= hi
  {
    assert p / v * v == p;
  }

  /** The volume-weighted typical price of well-formed bars with a non-zero
      volume sum lies between their lowest low and highest high. */
  lemma {:induction false} WeightedPriceWithinRange(bs: seq<Bar>)
    requires |bs| > 0 && Sum(Volumes(bs)) != 0.0
    requires forall i :: 0 <= i < |bs| ==> WellFormed(bs[i])
    ensures SeqMin(Lows(bs)) <= Sum(PriceVolumes(bs)) / Sum(Volumes(bs)) <= SeqMax(Highs(bs))
  {
    TypicalPricesWithinRange(bs);
    AverageWithin(bs, SeqMin(Lows(bs)), SeqMax(Highs(bs)));
  }

  /** With volumes that are not negative, a non-zero volume sum and typical
      prices inside [lo, hi], the volume-weighted typical price is inside
      [lo, hi] too. */
  lemma {:induction false} AverageWithin(bs: seq<Bar>, lo: real, hi: real)
    requires Sum(Volumes(bs)) != 0.0
    requires forall i :: 0 <= i < |bs| ==> lo <= TypicalPrice(bs[i]) <= hi && bs[i].volume >= 0.0
    ensures lo <= Sum(PriceVolumes(bs)) / Sum(Volumes(bs)) <= hi
  {
    PriceVolumeBounds(bs, lo, hi);
    VolumeSumNonNegative(bs);
    DivBounds(Sum(PriceVolumes(bs)), Sum(Volumes(bs)), lo, hi);
  }

  /** The typical price of every well-formed bar lies between the lowest low
      and the highest high of the series. */
  lemma {:induction false} TypicalPricesWithinRange(bs: seq<Bar>)
    requires |bs| > 0
    requires forall i :: 0 <= i < |bs| ==> WellFormed(bs[i])
    ensures forall i :: 0 <= i < |bs| ==>
      SeqMin(Lows(bs)) <= TypicalPrice(bs[i]) <= SeqMax(Highs(bs)) && bs[i].volume >= 0.0
  {
    forall i | 0 <= i < |bs|
      ensures SeqMin(Lows(bs)) <= TypicalPrice(bs[i]) <= SeqMax(Highs(bs))
    {
      assert Lows(bs)[i] == bs[i].low && Highs(bs)[i] == bs[i].high;
    }
  }

  /** Over well-formed bars, every defined VWAP value lies between the lowest
      low and the highest high seen so far. */
  lemma VwapWithinRange(bars: seq<Bar>, k: nat)
    requires k < |bars|
    requires forall i :: 0 <= i < |bars| ==> WellFormed(bars[i])
    requires Vwap(bars)[k].Some?
    ensures SeqMin(Lows(bars)[..k + 1]) <= Vwap(bars)[k].value <= SeqMax(Highs(bars)[..k + 1])
  {
    var bs := bars[..k + 1];
    assert Vwap(bars)[k].value == Sum(PriceVolumes(bs)) / Sum(Volumes(bs)) && Sum(Volumes(bs)) != 0.0 by {
      VwapSpec(bars);
      assert Volumes(bars)[..k + 1] == Volumes(bs);
      assert forall i :: 0 <= i <= k ==> PriceVolumes(bars)[..k + 1][i] == PriceVolumes(bs)[i];
      assert PriceVolumes(bars)[..k + 1] == PriceVolumes(bs);
    }
    assert Lows(bars)[..k + 1] == Lows(bs);
    assert Highs(bars)[..k + 1] == Highs(bs);
    WeightedPriceWithinRange(bs);
  }

  // ------------------------------------------------------------------- ATR

  /** pandas row-wise `max` with NaN skipped: the largest of `first` and the
      values present in `rest`. */
  function MaxSkippingMissing(first: real, rest: seq<Option<real>>): (r: real)
    decreases rest
    ensures first <= r
    ensures forall i :: 0 <= i < |rest| && rest[i].Some? ==> rest[i].value <= r
    ensures r == first || exists i :: 0 <= i < |rest| && rest[i] == Some(r)
  {
    if rest == [] then first
    else if rest[0].Some? && rest[0].value > first then MaxSkippingMissing(rest[0].value, rest[1..])
    else MaxSkippingMissing(first, rest[1..])
  }

  /** |a - b|, NaN when b is. */
  function AbsDiff(a: real, b: Option<real>): Option<real> {
    if b.Some? then Some(Abs(a - b.value)) else None
  }

  /** True range at bar k: the row-wise max of |high - low|, |high - prevClose|
      and |low - prevClose|, where prevClose is the shifted close (NaN on the
      first bar). */
  function TrueRangeAt(bars: seq<Bar>, k: nat): real
    requires k < |bars|
  {
    var prevClose := if k == 0 then None else Some(bars[k - 1].close);
    MaxSkippingMissing(Abs(bars[k].high - bars[k].low),
                       [AbsDiff(bars[k].high, prevClose), AbsDiff(bars[k].low, prevClose)])
  }

  function TrueRange(bars: seq<Bar>): seq<real> {
    seq(|bars|, k requires 0 <= k < |bars| => TrueRangeAt(bars, k))
  }

  /** On the first bar the true range is the bar's own range; afterwards it is
      the largest of the three distances to the previous close. */
  lemma TrueRangeValue(bars: seq<Bar>, k: nat)
    requires k < |bars|
    ensures k == 0 ==> TrueRange(bars)[k] == Abs(bars[0].high - bars[0].low)
    ensures k > 0 ==>
      var h, l, pc := bars[k].high, bars[k].low, bars[k - 1].close;
      TrueRange(bars)[k] == MaxReal(Abs(h - l), MaxReal(Abs(h - pc), Abs(l - pc)))
    ensures TrueRange(bars)[k] >= 0.0
  {
    var h, l := bars[k].high, bars[k].low;
    if k > 0 {
      var pc := bars[k - 1].close;
      var rest := [Some(Abs(h - pc)), Some(Abs(l - pc))];
      assert TrueRange(bars)[k] == MaxSkippingMissing(Abs(h - l), rest);
      assert rest[0].value == Abs(h - pc) && rest[1].value == Abs(l - pc);
    } else {
      assert TrueRange(bars)[k] == MaxSkippingMissing(Abs(h - l), [None, None]);
    }
  }

  /** pandas `rolling(period, min_periods=period).mean()` at position k, computed
      from the running sums `cs` of `xs`: undefined until `period` values exist,
      then the mean of the last `period` values. */
  function RollingMean(xs: seq<real>, cs: seq<real>, period: nat, k: nat): (r: Option<real>)
    requires period >= 1 && k < |xs| && cs == RunningSums(xs)
    ensures r.Some? <==> k + 1 >= period
    ensures r.Some? ==> r.value == Sum(xs[k + 1 - period..k + 1]) / period as real
  {
    if k + 1 < period then None
    else
      WindowSum(xs, k + 1 - period, k + 1);
      assert k + 1 > period ==> cs[k - period] == Sum(xs[..k + 1 - period]);
      assert xs[..0] == [];
      Some((cs[k] - (if k + 1 == period then 0.0 else cs[k - period])) / period as real)
  }

  /** Average true range: undefined for the first period-1 bars, then the
      mean true range of the last `period` bars. */
  function Atr(bars: seq<Bar>, period: nat): (r: seq<Option<real>>)
    requires period >= 1
    ensures |r| == |bars|
    ensures forall k :: 0 <= k < |bars| ==> (r[k].Some? <==> k >= period - 1)
    ensures forall k :: period - 1 <= k < |bars| ==>
      r[k] == Some(Sum(TrueRange(bars)[k + 1 - period..k + 1]) / period as real)
  {
    var tr := TrueRange(bars);
    var cs := RunningSums(tr);
    seq(|bars|, k requires 0 <= k < |bars| => RollingMean(tr, cs, period, k))
  }

  // ------------------------------------------------------------------- EMA

  /** The smoothing factor of an EMA with the given span. */
  function Alpha(span: nat): real
    requires span >= 1
  {
    2.0 / (span as real + 1.0)
  }

  lemma AlphaRange(span: nat)
    requires span >= 1
    ensures 0.0 < Alpha(span) <= 1.0
  {
  }

  /** One smoothing step: alpha times the new input plus (1 - alpha) times
      the previous output. */
  function Blend(alpha: real, x: real, prev: real): real {
    alpha * x + (1.0 - alpha) * prev
  }

  /** The forward pass of `ewm(adjust=False).mean()` after its first value,
      carrying the previous output `prev`. */
  function EmaFrom(prev: real, xs: seq<real>, alpha: real): (r: seq<real>)
    decreases xs
    ensures |r| == |xs|
  {
    if xs == [] then []
    else
      var y := Blend(alpha, xs[0], prev);
      [y] + EmaFrom(y, xs[1..], alpha)
  }

  /** The forward pass blends the carried output into its first value, and
      every later output into the next. */
  lemma {:induction false} EmaFromSpec(prev: real, xs: seq<real>, alpha: real)
    decreases xs
    ensures |xs| > 0 ==> EmaFrom(prev, xs, alpha)[0] == Blend(alpha, xs[0], prev)
    ensures forall k :: 0 < k < |xs| ==>
      EmaFrom(prev, xs, alpha)[k] == Blend(alpha, xs[k], EmaFrom(prev, xs, alpha)[k - 1])
  {
    if xs != [] {
      var y := Blend(alpha, xs[0], prev);
      var rest := EmaFrom(y, xs[1..], alpha);
      EmaFromSpec(y, xs[1..], alpha);
      assert EmaFrom(prev, xs, alpha) == [y] + rest;
      assert forall k :: 1 < k < |xs| ==> xs[k] == xs[1..][k - 1];
    }
  }

  /** Exponential moving average with `adjust=False`, alpha = 2 / (span + 1). */
  function Ema(xs: seq<real>, span: nat): (r: seq<real>)
    requires span >= 1
    ensures |r| == |xs|
  {
    if xs == [] then [] else [xs[0]] + EmaFrom(xs[0], xs[1..], Alpha(span))
  }

  /** The first output of an EMA is its first input, and every later output is
      alpha times the input plus (1 - alpha) times the previous output. */
  lemma EmaSpec(xs: seq<real>, span: nat)
    requires span >= 1
    ensures |xs| > 0 ==> Ema(xs, span)[0] == xs[0]
    ensures forall k :: 0 < k < |xs| ==> Ema(xs, span)[k] == Blend(Alpha(span), xs[k], Ema(xs, span)[k - 1])
  {
    if xs != [] {
      EmaFromSpec(xs[0], xs[1..], Alpha(span));
      assert forall k :: 1 < k < |xs| ==> xs[k] == xs[1..][k - 1];
    }
  }

  lemma MulNonNegative(a: real, b: real)
    requires a >= 0.0 && b >= 0.0
    ensures a * b >= 0.0
  {
  }

  /** A convex step: alpha*x + (1-alpha)*p stays in [lo, hi] when x and p do. */
  lemma ConvexStep(alpha: real, x: real, p: real, lo: real, hi: real)
    requires 0.0 < alpha <= 1.0 && lo <= x <= hi && lo <= p <= hi
    ensures lo <= Blend(alpha, x, p) <= hi
  {
    MulNonNegative(alpha, x - lo);
    MulNonNegative(1.0 - alpha, p - lo);
    MulNonNegative(alpha, hi - x);
    MulNonNegative(1.0 - alpha, hi - p);
    assert alpha * x + (1.0 - alpha) * p - lo == alpha * (x - lo) + (1.0 - alpha) * (p - lo);
    assert hi - (alpha * x + (1.0 - alpha) * p) == alpha * (hi - x) + (1.0 - alpha) * (hi - p);
  }

  /** An EMA never leaves the range of its inputs. */
  lemma {:induction false} EmaWithinRange(xs: seq<real>, span: nat, lo: real, hi: real)
    requires span >= 1
    requires forall i :: 0 <= i < |xs| ==> lo <= xs[i] <= hi
    ensures forall k :: 0 <= k < |xs| ==> lo <= Ema(xs, span)[k] <= hi
  {
    var r := Ema(xs, span);
    EmaSpec(xs, span);
    AlphaRange(span);
    var k := 0;
    while k < |xs|
      invariant 0 <= k <= |xs|
      invariant forall m :: 0 <= m < k ==> lo <= r[m] <= hi
    {
      if k > 0 { ConvexStep(Alpha(span), xs[k], r[k - 1], lo, hi); }
      k := k + 1;
    }
  }

  // ---------------------------------------------------------- swing points

  /** Position i is a swing low: it has `left` values before it and `right`
      after it, and it equals the minimum of that window. */
  predicate IsSwingLow(s: seq<real>, left: nat, right: nat, i: int) {
    left <= i < |s| - right && s[i] == SeqMin(s[i - left..i + right + 1])
  }

  /** Position i is a swing high: the mirror of IsSwingLow. */
  predicate IsSwingHigh(s: seq<real>, left: nat, right: nat, i: int) {
    left <= i < |s| - right && s[i] == SeqMax(s[i - left..i + right + 1])
  }

  /** The swing-low mask of a whole series; no position within `left` of the
      start or `right` of the end is ever flagged. */
  function SwingLowFlags(s: seq<real>, left: nat, right: nat): (r: seq<bool>)
    ensures |r| == |s|
    ensures forall i :: 0 <= i < |s| && r[i] ==> left <= i < |s| - right
  {
    seq(|s|, i requires 0 <= i < |s| => IsSwingLow(s, left, right, i))
  }

  /** The swing-high mask of a whole series, flagged only away from the edges. */
  function SwingHighFlags(s: seq<real>, left: nat, right: nat): (r: seq<bool>)
    ensures |r| == |s|
    ensures forall i :: 0 <= i < |s| && r[i] ==> left <= i < |s| - right
  {
    seq(|s|, i requires 0 <= i < |s| => IsSwingHigh(s, left, right, i))
  }

  /** `rolling_swing_lows`: start from an all-false mask and set the flag of
      every position with full context that equals its window's minimum. */
  method SwingLows(s: seq<real>, left: nat, right: nat) returns (flags: seq<bool>)
    ensures flags == SwingLowFlags(s, left, right)
  {
    var isLow := new bool[|s|](_ => false);
    var i := left;
    while i < |s| - right
      invariant left <= i
      invariant forall k :: 0 <= k < |s| ==> (isLow[k] <==> k < i && IsSwingLow(s, left, right, k))
    {
      var window := s[i - left..i + right + 1];
      if s[i] == SeqMin(window) {
        isLow[i] := true;
      }
      i := i + 1;
    }
    flags := isLow[..];
  }

  /** `rolling_swing_highs`: the mirror of SwingLows with the window maximum. */
  method SwingHighs(s: seq<real>, left: nat, right: nat) returns (flags: seq<bool>)
    ensures flags == SwingHighFlags(s, left, right)
  {
    var isHigh := new bool[|s|](_ => false);
    var i := left;
    while i < |s| - right
      invariant left <= i
      invariant forall k :: 0 <= k < |s| ==> (isHigh[k] <==> k < i && IsSwingHigh(s, left, right, k))
    {
      var window := s[i - left..i + right + 1];
      if s[i] == SeqMax(window) {
        isHigh[i] := true;
      }
      i := i + 1;
    }
    flags := isHigh[..];
  }

  /** A position is flagged as a swing low exactly when it has full context and
      is no larger than any value of its window [i - left, i + right]. */
  lemma SwingLowIsWindowMinimum(s: seq<real>, left: nat, right: nat, i: nat)
    requires i < |s|
    ensures SwingLowFlags(s, left, right)[i] <==>
      (left <= i < |s| - right && forall j :: i - left <= j <= i + right ==> s[i] <= s[j])
  {
    if left <= i < |s| - right {
      var w := s[i - left..i + right + 1];
      var m := SeqMin(w);
      assert w[left] == s[i];
      assert forall j :: i - left <= j <= i + right ==> s[j] == w[j - (i - left)];
      if forall j :: i - left <= j <= i + right ==> s[i] <= s[j] {
        var t :| 0 <= t < |w| && m == w[t];
        assert s[i] <= w[t];
      }
    }
  }

  /** A position is flagged as a swing high exactly when it has full context
      and is no smaller than any value of its window. */
  lemma SwingHighIsWindowMaximum(s: seq<real>, left: nat, right: nat, i: nat)
    requires i < |s|
    ensures SwingHighFlags(s, left, right)[i] <==>
      (left <= i < |s| - right && forall j :: i - left <= j <= i + right ==> s[j] <= s[i])
  {
    if left <= i < |s| - right {
      var w := s[i - left..i + right + 1];
      var m := SeqMax(w);
      assert w[left] == s[i];
      assert forall j :: i - left <= j <= i + right ==> s[j] == w[j - (i - left)];
      if forall j :: i - left <= j <= i + right ==> s[j] <= s[i] {
        var t :| 0 <= t < |w| && m == w[t];
        assert w[t] <= s[i];
      }
    }
  }

  // ------------------------------------------------------- fair-value gaps

  /** Bars i-2, i-1, i leave a bullish gap: bar i's low is above bar i-2's high. */
  predicate BullGapAt(bars: seq<Bar>, i: int) {
    2 <= i < |bars| && bars[i].low > bars[i - 2].high
  }

  /** Bars i-2, i-1, i leave a bearish gap: bar i's high is below bar i-2's low. */
  predicate BearGapAt(bars: seq<Bar>, i: int) {
    2 <= i < |bars| && bars[i].high < bars[i - 2].low
  }

  function BullGapZone(bars: seq<Bar>, i: int): Zone
    requires 2 <= i < |bars|
  {
    Zone(bars[i - 2].high, bars[i].low)
  }

  function BearGapZone(bars: seq<Bar>, i: int): Zone
    requires 2 <= i < |bars|
  {
    Zone(bars[i].high, bars[i - 2].low)
  }

  /** The most recent bullish gap among the triplets ending before position k:
      absent exactly when there is none, otherwise the zone of the largest such
      triplet end, a band with low < high. */
  function LatestBullGap(bars: seq<Bar>, k: nat): (r: Option<Zone>)
    requires k <= |bars|
    ensures r.None? <==> forall i :: 2 <= i < k ==> !BullGapAt(bars, i)
    ensures r.Some? ==> exists i :: 2 <= i < k && BullGapAt(bars, i) && r.value == BullGapZone(bars, i)
                                    && forall j :: i < j < k ==> !BullGapAt(bars, j)
    ensures r.Some? ==> r.value.low < r.value.high
  {
    if k < 3 then None
    else if BullGapAt(bars, k - 1) then Some(BullGapZone(bars, k - 1))
    else LatestBullGap(bars, k - 1)
  }

  /** The most recent bearish gap among the triplets ending before position k,
      characterised as LatestBullGap is. */
  function LatestBearGap(bars: seq<Bar>, k: nat): (r: Option<Zone>)
    requires k <= |bars|
    ensures r.None? <==> forall i :: 2 <= i < k ==> !BearGapAt(bars, i)
    ensures r.Some? ==> exists i :: 2 <= i < k && BearGapAt(bars, i) && r.value == BearGapZone(bars, i)
                                    && forall j :: i < j < k ==> !BearGapAt(bars, j)
    ensures r.Some? ==> r.value.low < r.value.high
  {
    if k < 3 then None
    else if BearGapAt(bars, k - 1) then Some(BearGapZone(bars, k - 1))
    else LatestBearGap(bars, k - 1)
  }

  /** `detect_fvg`: fewer than three bars give no zones; otherwise a forward
      scan overwrites the bullish and bearish zone at every triplet that
      leaves a gap, so the latest of each survives. */
  method DetectFvg(bars: seq<Bar>) returns (bull: Option<Zone>, bear: Option<Zone>)
    ensures bull == LatestBullGap(bars, |bars|)
    ensures bear == LatestBearGap(bars, |bars|)
    ensures |bars| < 3 ==> bull == None && bear == None
  {
    if |bars| < 3 {
      return None, None;
    }
    bull, bear := None, None;
    var i := 2;
    while i < |bars|
      invariant 2 <= i <= |bars|
      invariant bull == LatestBullGap(bars, i)
      invariant bear == LatestBearGap(bars, i)
    {
      if bars[i].low > bars[i - 2].high {
        bull := Some(Zone(bars[i - 2].high, bars[i].low));
      }
      if bars[i].high < bars[i - 2].low {
        bear := Some(Zone(bars[i].high, bars[i - 2].low));
      }
      i := i + 1;
    }
  }

  // ----------------------------------------------------------- order blocks

  datatype Side = Bull | Bear

  /** A zone with the timestamp of the candle it was taken from. */
  datatype OrderBlock = OrderBlock(low: real, high: real, ts: int)

  /** The candle colour an order block of this side is taken from: a down
      candle for a bullish block, an up candle for a bearish one. */
  predicate Opposite(b: Bar, side: Side) {
    match side
    case Bull => b.close < b.open
    case Bear => b.close > b.open
  }

  /** Bar j displaces away from candle i: it closes beyond the candle's high
      (low) and its close is more than one ATR `a` past the candle's close. */
  predicate Breakout(w: seq<Bar>, side: Side, i: nat, j: nat, a: real)
    requires i < |w| && j < |w|
  {
    match side
    case Bull => w[j].close > w[i].high && w[j].close - w[i].close > 1.0 * a
    case Bear => w[j].close < w[i].low && w[i].close - w[j].close > 1.0 * a
  }

  /** Candle i qualifies: it is at least three bars from the end, has the
      opposite colour, a finite non-zero ATR, and one of the next three bars
      breaks out by more than that ATR. */
  predicate Candidate(w: seq<Bar>, at: seq<Option<real>>, side: Side, i: int)
    requires |at| == |w|
  {
    0 <= i <= |w| - 4 && Opposite(w[i], side) && at[i].Some? && at[i].value != 0.0
    && (Breakout(w, side, i, i + 1, at[i].value) || Breakout(w, side, i, i + 2, at[i].value)
        || Breakout(w, side, i, i + 3, at[i].value))
  }

  /** The block of candle i: [low, open] for a bullish block, [open, high] for
      a bearish one, each put in order. */
  function BlockAt(w: seq<Bar>, side: Side, i: nat): OrderBlock
    requires i < |w|
  {
    match side
    case Bull => OrderBlock(MinReal(w[i].low, w[i].open), MaxReal(w[i].low, w[i].open), w[i].ts)
    case Bear => OrderBlock(MinReal(w[i].open, w[i].high), MaxReal(w[i].open, w[i].high), w[i].ts)
  }

  /** The backward scan from candle i down to the first candle: the block of
      the largest qualifying candle, absent when none qualifies. */
  function ScanBlocks(w: seq<Bar>, at: seq<Option<real>>, side: Side, i: int): (r: Option<OrderBlock>)
    requires |at| == |w| && i < |w| - 3
    decreases i + 1
    ensures r.Some? ==> r.value.low <= r.value.high
  {
    if i < 0 then None
    else if Candidate(w, at, side, i) then Some(BlockAt(w, side, i))
    else ScanBlocks(w, at, side, i - 1)
  }

  /** The scan finds nothing exactly when no candle at or below i qualifies;
      what it finds is the block of a qualifying candle k with no qualifying
      candle between k and i (the latest match wins). */
  lemma {:induction false} ScanBlocksFindsLatest(w: seq<Bar>, at: seq<Option<real>>, side: Side, i: int)
    requires |at| == |w| && i < |w| - 3
    decreases i + 1
    ensures var r := ScanBlocks(w, at, side, i);
      && (r.None? <==> forall k :: 0 <= k <= i ==> !Candidate(w, at, side, k))
      && (r.Some? ==> exists k :: 0 <= k <= i && Candidate(w, at, side, k) && r.value == BlockAt(w, side, k)
                                  && forall m :: k < m <= i ==> !Candidate(w, at, side, m))
  {
    if i >= 0 && !Candidate(w, at, side, i) {
      ScanBlocksFindsLatest(w, at, side, i - 1);
    }
  }

  /** `find_order_block` as a value: nothing with fewer than 10 bars; otherwise
      the backward scan over the last `lookback` bars, with the ATR series
      restricted to the same bars and forward-filled. */
  function OrderBlockOf(bars: seq<Bar>, atr: seq<Option<real>>, side: Side, lookback: int): (r: Option<OrderBlock>)
    requires |atr| == |bars|
    ensures |bars| < 10 ==> r == None
  {
    if |bars| < 10 then None
    else
      var w := Tail(bars, lookback);
      var at := FillForward(Tail(atr, lookback));
      ScanBlocks(w, at, side, |w| - 4)
  }

  /** The price lies in the zone, widened by `buffer`, of the latest
      qualifying candle of `w` (the one no later candidate follows). */
  predicate InLatestBlock(w: seq<Bar>, at: seq<Option<real>>, side: Side, price: real, buffer: real)
    requires |at| == |w|
  {
    exists k :: 0 <= k <= |w| - 4 && Candidate(w, at, side, k)
                && (forall m :: k < m <= |w| - 4 ==> !Candidate(w, at, side, m))
                && BlockAt(w, side, k).low - buffer <= price <= BlockAt(w, side, k).high + buffer
  }

  /** The latest qualifying candle is unique, so a price retests the block
      the scan finds exactly when it lies in the buffered zone of that
      candle. */
  lemma ScanRetest(w: seq<Bar>, at: seq<Option<real>>, side: Side, price: real, buffer: real)
    requires |at| == |w|
    ensures var ob := ScanBlocks(w, at, side, |w| - 4);
      (ob.Some? && InZone(price, ob.value.low, ob.value.high, buffer)) <==> InLatestBlock(w, at, side, price, buffer)
  {
    ScanBlocksFindsLatest(w, at, side, |w| - 4);
    var ob := ScanBlocks(w, at, side, |w| - 4);
    if ob.Some? {
      var k :| 0 <= k <= |w| - 4 && Candidate(w, at, side, k) && ob.value == BlockAt(w, side, k)
               && forall m :: k < m <= |w| - 4 ==> !Candidate(w, at, side, m);
      if InLatestBlock(w, at, side, price, buffer) {
        var k' :| 0 <= k' <= |w| - 4 && Candidate(w, at, side, k')
                  && (forall m :: k' < m <= |w| - 4 ==> !Candidate(w, at, side, m))
                  && BlockAt(w, side, k').low - buffer <= price <= BlockAt(w, side, k').high + buffer;
        assert k' == k;
      }
    }
  }

  /** A price retests the block `find_order_block` returns exactly when there
      are at least 10 bars and the price lies in the zone, widened by
      `buffer`, of the latest candle of the last `lookback` bars that
      qualifies (with the ATR of those bars forward-filled). */
  lemma OrderBlockRetest(bars: seq<Bar>, atr: seq<Option<real>>, side: Side, lookback: int, price: real, buffer: real)
    requires |atr| == |bars|
    ensures var ob := OrderBlockOf(bars, atr, side, lookback);
      (ob.Some? && InZone(price, ob.value.low, ob.value.high, buffer)) <==>
        |bars| >= 10 && InLatestBlock(Tail(bars, lookback), FillForward(Tail(atr, lookback)), side, price, buffer)
  {
    if |bars| >= 10 {
      ScanRetest(Tail(bars, lookback), FillForward(Tail(atr, lookback)), side, price, buffer);
    }
  }

  /** The backward walk of `find_order_block` over the window `w` and its
      ATR values `at`: from the fourth-to-last candle down to the first, skip
      a candle of the wrong colour or with a non-finite or zero ATR; otherwise
      look at the next one to three bars and return the candle's zone at the
      first breakout. */
  method ScanBackward(w: seq<Bar>, at: seq<Option<real>>, side: Side) returns (ob: Option<OrderBlock>)
    requires |at| == |w|
    ensures ob == ScanBlocks(w, at, side, |w| - 4)
  {
    var n := |w|;
    var i := n - 4;
    while i >= 0
      invariant i <= n - 4
      invariant ScanBlocks(w, at, side, n - 4) == ScanBlocks(w, at, side, i)
      decreases i + 1
    {
      if Opposite(w[i], side) {
        var atrI := at[i];
        if atrI.Some? && atrI.value != 0.0 {
          var j := i + 1;
          while j < MinInt(i + 4, n)
            invariant i + 1 <= j <= i + 4
            invariant forall m :: i + 1 <= m < j ==> !Breakout(w, side, i, m, atrI.value)
          {
            if Breakout(w, side, i, j, atrI.value) {
              return Some(BlockAt(w, side, i));
            }
            j := j + 1;
          }
        }
      }
      i := i - 1;
    }
    return None;
  }

  /** `find_order_block`: fewer than 10 bars give nothing; otherwise keep the
      last `lookback` bars, reindex the ATR series onto them with a forward
      fill, and walk backward for the latest qualifying candle. */
  method FindOrderBlock(bars: seq<Bar>, atr: seq<Option<real>>, side: Side, lookback: int)
    returns (ob: Option<OrderBlock>)
    requires |atr| == |bars|
    ensures ob == OrderBlockOf(bars, atr, side, lookback)
  {
    if |bars| < 10 {
      return None;
    }
    var w := Tail(bars, lookback);
    var at := FillForward(Tail(atr, lookback));
    ob := ScanBackward(w, at, side);
  }

  // ----------------------------------------------------------------- zones

  /** `in_zone`: the price lies in the band widened by `buffer` on both sides. */
  predicate InZone(price: real, zoneLow: real, zoneHigh: real, buffer: real) {
    var lo := zoneLow - buffer;
    var hi := zoneHigh + buffer;
    price >= lo && price <= hi
  }

  /** A price is in the zone iff it lies in [zoneLow - buffer, zoneHigh + buffer];
      with a buffer that is not negative, every price of the band itself is in
      the zone, and widening the buffer never drops a price. */
  lemma InZoneBand(price: real, zoneLow: real, zoneHigh: real, buffer: real)
    ensures InZone(price, zoneLow, zoneHigh, buffer) <==> zoneLow - buffer <= price <= zoneHigh + buffer
    ensures buffer >= 0.0 && zoneLow <= price <= zoneHigh ==> InZone(price, zoneLow, zoneHigh, buffer)
    ensures forall wider :: wider >= buffer && InZone(price, zoneLow, zoneHigh, buffer) ==> InZone(price, zoneLow, zoneHigh, wider)
  {
  }
}
