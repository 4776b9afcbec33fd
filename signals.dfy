/** The scalp-signal engine of signals.py: the PRESETS table, the result
    record, and `compute_scalp_signal`, a straight-line decision procedure
    with a data-sufficiency gate, a session gate, event detection, weighted
    long/short scoring, preset requirement gates, a strict-winner decision
    and stop/target derivation.

    `ScalpSignal` states the whole procedure as one function of its inputs;
    `ComputeScalpSignal` is the step-by-step method (accumulators, reason
    lists, the diagnostics map filled in place, guarded early returns) and is
    proved to compute exactly that function. The lemmas at the end state what
    the procedure promises. */
module Signals {
  import opened Common
  import opened SeriesOps
  import opened Indicators

  // ------------------------------------------------------------- vocabulary

  datatype Bias = Long | Short | Neutral

  /** The trading-session labels of the session classifier. */
  datatype Session = Opening | Midday | Power | Off

  /** The caller's time-of-day switches. */
  datatype SessionFilter = SessionFilter(allowOpening: bool, allowMidday: bool, allowPower: bool)

  /** A session is allowed when its own switch is on; OFF has no switch. */
  predicate Allowed(session: Session, filter: SessionFilter) {
    (session == Opening && filter.allowOpening)
    || (session == Midday && filter.allowMidday)
    || (session == Power && filter.allowPower)
  }

  /** A named bundle of scoring settings (the 0/1 flags of the table as booleans). */
  datatype Preset = Preset(minActionableScore: int, volMultiplier: real,
                           requireVolume: bool, requireMacdTurn: bool,
                           requireVwapEvent: bool, requireRsiEvent: bool)

  const Presets: map<string, Preset> := map[
    "Fast scalp" := Preset(70, 1.15, false, true, true, true),
    "Cleaner signals" := Preset(80, 1.35, true, true, true, true)
  ]

  /** The preset of a mode name; an unknown name falls back to "Cleaner signals".
      Every preset's threshold is a score in [0, 100] and its volume
      multiplier exceeds one. */
  function PresetFor(mode: string): (p: Preset)
    ensures mode in Presets ==> p == Presets[mode]
    ensures mode !in Presets ==> p == Presets["Cleaner signals"]
    ensures 0 <= p.minActionableScore <= 100 && p.volMultiplier > 1.0
  {
    if mode in Presets then Presets[mode] else Presets["Cleaner signals"]
  }

  /** The rules a side can collect, in place of the reason strings. */
  datatype Rule =
    | VwapReclaim | RsiSnapback | MacdTurningUp | VolumeConfirmation | HigherLow
    | LiquiditySweepLow | BullishObRetest | BullishFvgPresent
    | VwapRejection | RsiDownshift | MacdTurningDown | LowerHigh
    | LiquiditySweepHigh | BearishObRetest | BearishFvgPresent

  /** Why the result is what it is; one constructor per exit of the procedure. */
  datatype Reason =
    | NotEnoughData
    | FilteredByTimeOfDay(session: Session)
    | NoVwapEvent
    | NoRsiEvent
    | NoMacdTurn
    | NoVolumeConfirmation
    | NoProTrigger
    | Fired(rules: seq<Rule>)
    | Scores(longScore: int, longRules: seq<Rule>, shortScore: int, shortRules: seq<Rule>)

  /** The keys of the diagnostics map (`ema20`, `trend_long_ok`, ...). */
  datatype Key =
    | Ema20Key | Ema50Key | TrendLongOk | TrendShortOk | PriorSwingHigh | PriorSwingLow
    | BullLiquiditySweep | BearLiquiditySweep | BullFvg | BearFvg | BullOb | BearOb
    | BullObRetest | BearObRetest | Displacement | Atr14

  /** A value of the diagnostics map. */
  datatype Diag = Num(x: real) | Flag(b: bool) | Gap(zone: Option<Zone>) | Block(block: Option<OrderBlock>)

  datatype SignalResult = SignalResult(
    symbol: string,
    bias: Bias,
    setupScore: int,
    reason: Reason,
    entry: Option<real>,
    stop: Option<real>,
    target1R: Option<real>,
    target2R: Option<real>,
    lastPrice: Option<real>,
    timestamp: Option<int>,
    session: Session,
    extras: map<Key, Diag>)

  /** The invariant of a result: a NEUTRAL result carries no levels; a LONG
      result carries all four with stop <= entry < target1R < target2R, a
      SHORT result the mirror; and the second target is twice as far from the
      entry as the first. */
  predicate ConsistentLevels(r: SignalResult) {
    match r.bias
    case Neutral => r.entry.None? && r.stop.None? && r.target1R.None? && r.target2R.None?
    case Long =>
      && r.entry.Some? && r.stop.Some? && r.target1R.Some? && r.target2R.Some?
      && r.stop.value <= r.entry.value < r.target1R.value < r.target2R.value
      && r.target2R.value - r.entry.value == 2.0 * (r.target1R.value - r.entry.value)
    case Short =>
      && r.entry.Some? && r.stop.Some? && r.target1R.Some? && r.target2R.Some?
      && r.target2R.value < r.target1R.value < r.entry.value <= r.stop.value
      && r.target2R.value - r.entry.value == 2.0 * (r.target1R.value - r.entry.value)
  }


  // ------------------------------------------------------------- features

  /** The events read off the last bar of the window. `rsiFast`, `rsiSlow`
      and `macd` are the oscillators already aligned onto the window. */
  datatype Events = Events(
    wasBelowVwap: bool, reclaimVwap: bool, wasAboveVwap: bool, rejectVwap: bool,
    rsiSnap: bool, rsiDownshift: bool, rsiSlow: Option<real>,
    macdTurnUp: bool, macdTurnDown: bool,
    volOk: bool, higherLow: bool, lowerHigh: bool)

  /** The structural anchors: the latest swing of the last six flagged ones,
      or a trailing extreme when none is flagged. */
  datatype Anchors = Anchors(recentSwingLow: real, recentSwingHigh: real,
                             priorSwingLow: real, priorSwingHigh: real)

  /** The pro diagnostics. */
  datatype ProDiag = ProDiag(
    ema20: real, ema50: real, trendLongOk: bool, trendShortOk: bool,
    bullSweep: bool, bearSweep: bool,
    bullFvg: Option<Zone>, bearFvg: Option<Zone>,
    bullOb: Option<OrderBlock>, bearOb: Option<OrderBlock>,
    bullObRetest: bool, bearObRetest: bool,
    displacement: bool)

  /** Everything the engine derives from a window that passed the session gate. */
  datatype Features = Features(lastPrice: real, atrLast: real, events: Events, anchors: Anchors, diag: ProDiag)

  /** The close of bar k positions before the last one lies below (above)
      the VWAP there: `(close.shift(k) < vwap.shift(k)).iloc[-1]`. */
  predicate CloseBelowVwapBack(w: seq<Bar>, k: nat) {
    Lt(Back(Defined(Closes(w)), k), Back(Vwap(w), k))
  }

  predicate CloseAboveVwapBack(w: seq<Bar>, k: nat) {
    Gt(Back(Defined(Closes(w)), k), Back(Vwap(w), k))
  }

  /** Closed below the VWAP 3 or 5 bars before the last bar. */
  predicate WasBelowVwap(w: seq<Bar>) { CloseBelowVwapBack(w, 3) || CloseBelowVwapBack(w, 5) }

  /** Closed above the VWAP 3 or 5 bars before the last bar. */
  predicate WasAboveVwap(w: seq<Bar>) { CloseAboveVwapBack(w, 3) || CloseAboveVwapBack(w, 5) }

  /** The last close is above the VWAP and the one before was at or below it. */
  predicate ReclaimsVwap(w: seq<Bar>) {
    CloseAboveVwapBack(w, 0) && Le(Back(Defined(Closes(w)), 1), Back(Vwap(w), 1))
  }

  /** The last close is below the VWAP and the one before was at or above it. */
  predicate RejectsVwap(w: seq<Bar>) {
    CloseBelowVwapBack(w, 0) && Ge(Back(Defined(Closes(w)), 1), Back(Vwap(w), 1))
  }

  /** The fast RSI crosses up through 30 or through 25 on the last bar. */
  predicate RsiSnaps(rsi: seq<Option<real>>) {
    var now, before := Back(rsi, 0), Back(rsi, 1);
    (Ge(now, Some(30.0)) && Lt(before, Some(30.0))) || (Ge(now, Some(25.0)) && Lt(before, Some(25.0)))
  }

  /** The fast RSI crosses down through 70 or through 75 on the last bar. */
  predicate RsiShiftsDown(rsi: seq<Option<real>>) {
    var now, before := Back(rsi, 0), Back(rsi, 1);
    (Le(now, Some(70.0)) && Gt(before, Some(70.0))) || (Le(now, Some(75.0)) && Gt(before, Some(75.0)))
  }

  /** Two rising MACD-histogram steps ending on the last bar. */
  predicate MacdTurnsUp(macd: seq<Option<real>>) {
    Gt(Back(macd, 0), Back(macd, 1)) && Gt(Back(macd, 1), Back(macd, 2))
  }

  /** Two falling MACD-histogram steps ending on the last bar. */
  predicate MacdTurnsDown(macd: seq<Option<real>>) {
    Lt(Back(macd, 0), Back(macd, 1)) && Lt(Back(macd, 1), Back(macd, 2))
  }

  /** The last volume reaches `mult` times the rolling 30-bar median of the
      volumes (10 bars at least); false while that median is undefined. */
  predicate VolumeConfirms(w: seq<Bar>, mult: real)
    requires |w| > 0
  {
    var median := TrailingMedian(Volumes(w), 30, 10);
    median.Some? && w[|w| - 1].volume >= mult * median.value
  }

  /** The last low is above the lowest low of the last 12 bars. */
  predicate HasHigherLow(w: seq<Bar>)
    requires |w| > 0
  {
    w[|w| - 1].low > SeqMin(Tail(Lows(w), 12))
  }

  /** The last high is below the highest high of the last 12 bars. */
  predicate HasLowerHigh(w: seq<Bar>)
    requires |w| > 0
  {
    w[|w| - 1].high < SeqMax(Tail(Highs(w), 12))
  }

  /** The events on the last bar of the window, with the oscillators already
      aligned onto it; every comparison with a missing value is false. */
  function LastBarEvents(w: seq<Bar>, rsiFast: seq<Option<real>>, rsiSlow: seq<Option<real>>,
                         macd: seq<Option<real>>, cfg: Preset): Events
    requires |w| > 0
  {
    Events(
      wasBelowVwap := WasBelowVwap(w), reclaimVwap := ReclaimsVwap(w),
      wasAboveVwap := WasAboveVwap(w), rejectVwap := RejectsVwap(w),
      rsiSnap := RsiSnaps(rsiFast), rsiDownshift := RsiShiftsDown(rsiFast), rsiSlow := Back(rsiSlow, 0),
      macdTurnUp := MacdTurnsUp(macd), macdTurnDown := MacdTurnsDown(macd),
      volOk := VolumeConfirms(w, cfg.volMultiplier),
      higherLow := HasHigherLow(w), lowerHigh := HasLowerHigh(w))
  }

  /** The VWAP at bar k read off its definition: the price-volume sum over
      the volume sum of bars 0..k, missing when that volume sum is zero. */
  function VwapThrough(w: seq<Bar>, k: nat): Option<real>
    requires k < |w|
  {
    var v := Sum(Volumes(w)[..k + 1]);
    if v == 0.0 then None else Some(Sum(PriceVolumes(w)[..k + 1]) / v)
  }

  /** A reclaim needs two bars: the last close above the VWAP through the
      last bar, and the previous close at or under the VWAP through its bar,
      both VWAPs present; a rejection mirrors it. The two never hold
      together. */
  lemma VwapCrossEvents(w: seq<Bar>)
    ensures var n := |w|;
      && (ReclaimsVwap(w) <==> n >= 2 && VwapThrough(w, n - 1).Some? && VwapThrough(w, n - 2).Some?
                               && w[n - 1].close > VwapThrough(w, n - 1).value
                               && w[n - 2].close <= VwapThrough(w, n - 2).value)
      && (RejectsVwap(w) <==> n >= 2 && VwapThrough(w, n - 1).Some? && VwapThrough(w, n - 2).Some?
                              && w[n - 1].close < VwapThrough(w, n - 1).value
                              && w[n - 2].close >= VwapThrough(w, n - 2).value)
      && !(ReclaimsVwap(w) && RejectsVwap(w))
  {
    VwapSpec(w);
  }

  /** "Was below" is a close under the VWAP through its own bar 3 or 5 bars
      before the last bar; "was above" mirrors it. */
  lemma VwapContextEvents(w: seq<Bar>)
    ensures var n := |w|;
      && (WasBelowVwap(w) <==>
            (n >= 4 && VwapThrough(w, n - 4).Some? && w[n - 4].close < VwapThrough(w, n - 4).value)
            || (n >= 6 && VwapThrough(w, n - 6).Some? && w[n - 6].close < VwapThrough(w, n - 6).value))
      && (WasAboveVwap(w) <==>
            (n >= 4 && VwapThrough(w, n - 4).Some? && w[n - 4].close > VwapThrough(w, n - 4).value)
            || (n >= 6 && VwapThrough(w, n - 6).Some? && w[n - 6].close > VwapThrough(w, n - 6).value))
  {
    VwapSpec(w);
  }

  /** The RSI snap is the fast RSI rising from below 30 to at least 30, or
      from below 25 to at least 25, over its last two values; the downshift
      falls from above 70 (75) to at most 70 (75). A missing value makes both
      false, and they never hold together. */
  lemma RsiEvents(rsi: seq<Option<real>>)
    ensures var m := |rsi|;
      && (RsiSnaps(rsi) <==> m >= 2 && rsi[m - 1].Some? && rsi[m - 2].Some?
                             && ((rsi[m - 2].value < 30.0 <= rsi[m - 1].value)
                                 || (rsi[m - 2].value < 25.0 <= rsi[m - 1].value)))
      && (RsiShiftsDown(rsi) <==> m >= 2 && rsi[m - 1].Some? && rsi[m - 2].Some?
                                  && ((rsi[m - 1].value <= 70.0 < rsi[m - 2].value)
                                      || (rsi[m - 1].value <= 75.0 < rsi[m - 2].value)))
      && !(RsiSnaps(rsi) && RsiShiftsDown(rsi))
  {
  }

  /** The MACD turns are two strictly rising (falling) steps over the last
      three histogram values, all present. The two never hold together. */
  lemma MacdEvents(macd: seq<Option<real>>)
    ensures var q := |macd|;
      && (MacdTurnsUp(macd) <==> q >= 3 && macd[q - 1].Some? && macd[q - 2].Some? && macd[q - 3].Some?
                                 && macd[q - 3].value < macd[q - 2].value < macd[q - 1].value)
      && (MacdTurnsDown(macd) <==> q >= 3 && macd[q - 1].Some? && macd[q - 2].Some? && macd[q - 3].Some?
                                   && macd[q - 3].value > macd[q - 2].value > macd[q - 1].value)
      && !(MacdTurnsUp(macd) && MacdTurnsDown(macd))
  {
  }

  /** Volume confirms exactly when the window has at least 10 bars and the
      last volume reaches `mult` times the trailing median, which is then the
      median of the last 30 volumes. */
  lemma VolumeEvent(w: seq<Bar>, mult: real)
    requires |w| > 0
    ensures var median := TrailingMedian(Volumes(w), 30, 10);
      VolumeConfirms(w, mult) <==> |w| >= 10 && w[|w| - 1].volume >= mult * median.value
    ensures |w| >= 10 ==> TrailingMedian(Volumes(w), 30, 10) == Some(Median(Tail(Volumes(w), 30)))
  {
  }

  /** The last value is above the minimum of a suffix exactly when one of
      the suffix's values is below it. */
  lemma AboveSuffixMin(xs: seq<real>, start: int)
    requires 0 <= start < |xs|
    ensures var n := |xs|;
      xs[n - 1] > SeqMin(xs[start..]) <==> exists j :: start <= j < n && xs[j] < xs[n - 1]
  {
    var n, t := |xs|, xs[start..];
    if xs[n - 1] > SeqMin(t) {
      var i :| 0 <= i < |t| && SeqMin(t) == t[i];
      assert xs[start + i] < xs[n - 1];
    }
    if exists j :: start <= j < n && xs[j] < xs[n - 1] {
      var j :| start <= j < n && xs[j] < xs[n - 1];
      assert t[j - start] == xs[j];
    }
  }

  /** The last value is below the maximum of a suffix exactly when one of
      the suffix's values is above it. */
  lemma BelowSuffixMax(xs: seq<real>, start: int)
    requires 0 <= start < |xs|
    ensures var n := |xs|;
      xs[n - 1] < SeqMax(xs[start..]) <==> exists j :: start <= j < n && xs[j] > xs[n - 1]
  {
    var n, t := |xs|, xs[start..];
    if xs[n - 1] < SeqMax(t) {
      var i :| 0 <= i < |t| && SeqMax(t) == t[i];
      assert xs[start + i] > xs[n - 1];
    }
    if exists j :: start <= j < n && xs[j] > xs[n - 1] {
      var j :| start <= j < n && xs[j] > xs[n - 1];
      assert t[j - start] == xs[j];
    }
  }

  /** A higher low holds exactly when one of the last 12 bars has a lower low
      than the last bar; a lower high mirrors it with the highs. */
  lemma StructureEvents(w: seq<Bar>)
    requires |w| > 0
    ensures var n := |w|;
      && (HasHigherLow(w) <==> exists j :: n - 12 <= j < n && 0 <= j && Lows(w)[j] < w[n - 1].low)
      && (HasLowerHigh(w) <==> exists j :: n - 12 <= j < n && 0 <= j && Highs(w)[j] > w[n - 1].high)
  {
    var n, lows, highs := |w|, Lows(w), Highs(w);
    var start := MaxInt(n - 12, 0);
    assert Tail(lows, 12) == lows[start..];
    assert Tail(highs, 12) == highs[start..];
    assert lows[n - 1] == w[n - 1].low && highs[n - 1] == w[n - 1].high;
    AboveSuffixMin(lows, start);
    BelowSuffixMax(highs, start);
  }

  /** `series.loc[mask]`: the values whose flag is set, in order. */
  function Masked(xs: seq<real>, flags: seq<bool>): (r: seq<real>)
    requires |flags| == |xs|
    ensures |r| <= |xs|
  {
    if xs == [] then []
    else (if flags[0] then [xs[0]] else []) + Masked(xs[1..], flags[1..])
  }

  /** Position i holds the last set flag. */
  predicate LastSetAt(flags: seq<bool>, i: int) {
    0 <= i < |flags| && flags[i] && forall j :: i < j < |flags| ==> !flags[j]
  }

  /** The masked values are empty exactly when no flag is set; otherwise the
      last of them is the value at the last flagged position. */
  lemma {:induction false} MaskedLast(xs: seq<real>, flags: seq<bool>)
    requires |flags| == |xs|
    ensures |Masked(xs, flags)| > 0 <==> exists i :: 0 <= i < |xs| && flags[i]
    ensures var m := Masked(xs, flags);
      |m| > 0 ==> exists i :: LastSetAt(flags, i) && m[|m| - 1] == xs[i]
  {
    if xs != [] {
      var xs', flags' := xs[1..], flags[1..];
      var m, rest := Masked(xs, flags), Masked(xs', flags');
      MaskedLast(xs', flags');
      assert m == (if flags[0] then [xs[0]] else []) + rest;
      if |rest| > 0 {
        var i :| LastSetAt(flags', i) && rest[|rest| - 1] == xs'[i];
        assert LastSetAt(flags, i + 1) by {
          forall j | i + 1 < j < |flags| ensures !flags[j] {
            assert flags[j] == flags'[j - 1];
          }
        }
        assert m[|m| - 1] == xs[i + 1];
      } else if flags[0] {
        assert LastSetAt(flags, 0) by {
          forall j | 0 < j < |flags| ensures !flags[j] {
            assert flags[j] == flags'[j - 1];
          }
        }
      } else {
        forall i | 0 <= i < |xs| ensures !flags[i] {
          if i > 0 {
            assert flags[i] == flags'[i - 1];
          }
        }
      }
    }
  }

  /** The last value of s, or `fallback` when s is empty. */
  function LastOr(s: seq<real>, fallback: real): real {
    if |s| > 0 then s[|s| - 1] else fallback
  }

  /** The position of the last set flag, -1 when none is set. */
  function LastFlagged(flags: seq<bool>): (r: int)
    ensures -1 <= r < |flags|
    ensures r >= 0 ==> flags[r]
    ensures forall j :: r < j < |flags| ==> !flags[j]
  {
    if flags == [] then -1
    else if flags[|flags| - 1] then |flags| - 1
    else LastFlagged(flags[..|flags| - 1])
  }

  /** The swing anchors read from a low mask and a high mask: the low at the
      last flagged position of the low mask, else the lowest low of the last
      12 bars (of the last 30 for the liquidity reference); highs mirrored. */
  function AnchorsFrom(lows: seq<real>, highs: seq<real>, lowFlags: seq<bool>, highFlags: seq<bool>): Anchors
    requires |lows| > 0 && |highs| > 0 && |lowFlags| == |lows| && |highFlags| == |highs|
  {
    var i, k := LastFlagged(lowFlags), LastFlagged(highFlags);
    Anchors(if i >= 0 then lows[i] else SeqMin(Tail(lows, 12)), if k >= 0 then highs[k] else SeqMax(Tail(highs, 12)),
            if i >= 0 then lows[i] else SeqMin(Tail(lows, 30)), if k >= 0 then highs[k] else SeqMax(Tail(highs, 30)))
  }

  /** The swing anchors of a window, from its 3/3 swing-low and swing-high masks. */
  function AnchorsOf(w: seq<Bar>): Anchors
    requires |w| > 0
  {
    AnchorsFrom(Lows(w), Highs(w), SwingLowFlags(Lows(w), 3, 3), SwingHighFlags(Highs(w), 3, 3))
  }

  /** The last ATR(14) value, 0 while the ATR is still warming up. */
  function AtrLast(w: seq<Bar>): real
    requires |w| > 0
  {
    var atr14 := Atr(w, 14);
    if atr14[|w| - 1].Some? then atr14[|w| - 1].value else 0.0
  }

  /** An order block is retested when there is one and the price lies in
      its zone widened by a quarter of the last ATR (no widening when that
      ATR is zero). */
  predicate RetestsBlock(price: real, ob: Option<OrderBlock>, atrLast: real) {
    var buffer := if atrLast != 0.0 then 0.25 * atrLast else 0.0;
    ob.Some? && InZone(price, ob.value.low, ob.value.high, buffer)
  }

  /** The pro diagnostics of a window, given its latest fair-value gaps and
      its order blocks: the trend filter from EMA(20) and EMA(50), liquidity
      sweeps through the prior swing, whether the last close retests an order
      block (zone widened by a quarter ATR), and displacement (a last range of
      at least 1.5 ATR). */
  function ProOf(w: seq<Bar>, atrLast: real, anchors: Anchors, bullFvg: Option<Zone>, bearFvg: Option<Zone>,
                 bullOb: Option<OrderBlock>, bearOb: Option<OrderBlock>): ProDiag
    requires |w| > 0
  {
    var n := |w|;
    var last := w[n - 1];
    var e20, e50 := Ema(Closes(w), 20)[n - 1], Ema(Closes(w), 50)[n - 1];
    ProDiag(
      ema20 := e20,
      ema50 := e50,
      trendLongOk := last.close >= e20 && e20 >= e50,
      trendShortOk := last.close <= e20 && e20 <= e50,
      bullSweep := last.low < anchors.priorSwingLow && last.close > anchors.priorSwingLow,
      bearSweep := last.high > anchors.priorSwingHigh && last.close < anchors.priorSwingHigh,
      bullFvg := bullFvg,
      bearFvg := bearFvg,
      bullOb := bullOb,
      bearOb := bearOb,
      bullObRetest := RetestsBlock(last.close, bullOb, atrLast),
      bearObRetest := RetestsBlock(last.close, bearOb, atrLast),
      displacement := atrLast != 0.0 && last.high - last.low >= 1.5 * atrLast)
  }

  /** The features of a window: its last close and ATR, the last-bar events,
      the swing anchors, the latest fair-value gaps of its last 60 bars and
      the order blocks of its last 35 bars. */
  function Extract(w: seq<Bar>, rsiFast: seq<Option<real>>, rsiSlow: seq<Option<real>>,
                   macd: seq<Option<real>>, cfg: Preset): Features
    requires |w| > 0
  {
    var atrLast := AtrLast(w);
    var anchors := AnchorsOf(w);
    var recent := Tail(w, 60);
    var diag := ProOf(w, atrLast, anchors, LatestBullGap(recent, |recent|), LatestBearGap(recent, |recent|),
                      OrderBlockOf(w, Atr(w, 14), Bull, 35), OrderBlockOf(w, Atr(w, 14), Bear, 35));
    Features(w[|w| - 1].close, atrLast, LastBarEvents(w, rsiFast, rsiSlow, macd, cfg), anchors, diag)
  }

  /** The last ATR(14) of a window is the mean true range of its last 14
      bars, and 0 when the window is shorter than that. */
  lemma AtrLastValue(w: seq<Bar>)
    requires |w| > 0
    ensures AtrLast(w) == if |w| >= 14 then Sum(TrueRange(w)[|w| - 14..]) / 14.0 else 0.0
  {
    var tr := TrueRange(w);
    if |w| >= 14 {
      assert tr[|w| - 14..|w|] == tr[|w| - 14..];
    }
  }

  /** The trend diagnostics: EMA(20) and EMA(50) of the closes lie within
      the range of the closes, and each trend flag holds exactly when the last
      close and the two EMAs are in order. */
  lemma ProTrend(w: seq<Bar>, atrLast: real, anchors: Anchors, bullFvg: Option<Zone>, bearFvg: Option<Zone>,
                 bullOb: Option<OrderBlock>, bearOb: Option<OrderBlock>)
    requires |w| > 0
    ensures var d, n := ProOf(w, atrLast, anchors, bullFvg, bearFvg, bullOb, bearOb), |w|;
      && SeqMin(Closes(w)) <= d.ema20 <= SeqMax(Closes(w))
      && SeqMin(Closes(w)) <= d.ema50 <= SeqMax(Closes(w))
      && (d.trendLongOk <==> w[n - 1].close >= d.ema20 >= d.ema50)
      && (d.trendShortOk <==> w[n - 1].close <= d.ema20 <= d.ema50)
  {
    var closes := Closes(w);
    EmaWithinRange(closes, 20, SeqMin(closes), SeqMax(closes));
    EmaWithinRange(closes, 50, SeqMin(closes), SeqMax(closes));
  }

  /** The liquidity sweeps, with anchors read from a swing-low and a
      swing-high mask of the window (`Extract` uses the 3/3 masks, whose
      meaning `SwingLowIsWindowMinimum` and `SwingHighIsWindowMaximum`
      state): a bullish sweep holds exactly when the last bar trades below the
      prior swing low and closes back above it, where the prior swing low is
      the low of the latest flagged bar or, when no bar is flagged, the lowest
      of the last 30 lows. The bearish sweep mirrors it with the highs. */
  lemma ProSweeps(w: seq<Bar>, atrLast: real, anchors: Anchors, bullFvg: Option<Zone>, bearFvg: Option<Zone>,
                  bullOb: Option<OrderBlock>, bearOb: Option<OrderBlock>, lowFlags: seq<bool>, highFlags: seq<bool>)
    requires |w| > 0 && |lowFlags| == |w| && |highFlags| == |w|
    requires anchors == AnchorsFrom(Lows(w), Highs(w), lowFlags, highFlags)
    ensures var d, n, i := ProOf(w, atrLast, anchors, bullFvg, bearFvg, bullOb, bearOb), |w|, LastFlagged(lowFlags);
      var priorLow := if i >= 0 then w[i].low else SeqMin(Tail(Lows(w), 30));
      d.bullSweep <==> w[n - 1].low < priorLow < w[n - 1].close
    ensures var d, n, i := ProOf(w, atrLast, anchors, bullFvg, bearFvg, bullOb, bearOb), |w|, LastFlagged(highFlags);
      var priorHigh := if i >= 0 then w[i].high else SeqMax(Tail(Highs(w), 30));
      d.bearSweep <==> w[n - 1].close < priorHigh < w[n - 1].high
  {
  }

  /** The order-block retests of the pro diagnostics, with the order block
      found on the last 35 bars of the window and an ATR series `atr` over it
      (`Extract` passes ATR(14) and its last value as `atrLast`): a retest
      holds exactly when the window has at least 10 bars and the last close
      lies in the zone, widened on both sides by a quarter of the last ATR,
      of the latest qualifying candle of the last 35 bars (a down candle for
      the bullish block, an up candle for the bearish one). */
  lemma ProRetest(w: seq<Bar>, atr: seq<Option<real>>, side: Side, atrLast: real)
    requires |w| > 0 && |atr| == |w|
    ensures var n := |w|;
      RetestsBlock(w[n - 1].close, OrderBlockOf(w, atr, side, 35), atrLast) <==>
        n >= 10 && InLatestBlock(Tail(w, 35), FillForward(Tail(atr, 35)), side, w[n - 1].close, 0.25 * atrLast)
  {
    OrderBlockRetest(w, atr, side, 35, w[|w| - 1].close, 0.25 * atrLast);
  }

  /** Displacement holds exactly when the last ATR is not zero and the last
      bar's range is at least 1.5 times it; the last ATR is the mean true
      range of the last 14 bars, and 0 on a window shorter than that. */
  lemma ProDisplacement(w: seq<Bar>, anchors: Anchors, bullFvg: Option<Zone>, bearFvg: Option<Zone>,
                        bullOb: Option<OrderBlock>, bearOb: Option<OrderBlock>)
    requires |w| > 0
    ensures var d, n, a := ProOf(w, AtrLast(w), anchors, bullFvg, bearFvg, bullOb, bearOb), |w|, AtrLast(w);
      && a == (if n >= 14 then Sum(TrueRange(w)[n - 14..]) / 14.0 else 0.0)
      && (d.displacement <==> a != 0.0 && w[n - 1].high - w[n - 1].low >= 1.5 * a)
  {
    AtrLastValue(w);
  }

  /** The diagnostics map of a result that got past the session gate. */
  function Extras(atrLast: real, anchors: Anchors, d: ProDiag): map<Key, Diag> {
    map[
      Ema20Key := Num(d.ema20),
      Ema50Key := Num(d.ema50),
      TrendLongOk := Flag(d.trendLongOk),
      TrendShortOk := Flag(d.trendShortOk),
      PriorSwingHigh := Num(anchors.priorSwingHigh),
      PriorSwingLow := Num(anchors.priorSwingLow),
      BullLiquiditySweep := Flag(d.bullSweep),
      BearLiquiditySweep := Flag(d.bearSweep),
      BullFvg := Gap(d.bullFvg),
      BearFvg := Gap(d.bearFvg),
      BullOb := Block(d.bullOb),
      BearOb := Block(d.bearOb),
      BullObRetest := Flag(d.bullObRetest),
      BearObRetest := Flag(d.bearObRetest),
      Displacement := Flag(d.displacement),
      Atr14 := Num(atrLast)
    ]
  }

  // --------------------------------------------------------------- scoring

  function Weight(on: bool, points: int): int { if on then points else 0 }

  function When(on: bool, rule: Rule): seq<Rule> { if on then [rule] else [] }

  /** The base long table: VWAP 35, RSI 20, MACD 20, volume 15, higher low 10. */
  function LongBasePoints(e: Events): int {
    Weight((e.wasBelowVwap && e.reclaimVwap), 35) + Weight((e.rsiSnap && Lt(e.rsiSlow, Some(60.0))), 20) + Weight(e.macdTurnUp, 20)
    + Weight(e.volOk, 15) + Weight(e.higherLow, 10)
  }

  function LongBaseRules(e: Events): seq<Rule> {
    When((e.wasBelowVwap && e.reclaimVwap), VwapReclaim) + When((e.rsiSnap && Lt(e.rsiSlow, Some(60.0))), RsiSnapback)
    + When(e.macdTurnUp, MacdTurningUp) + When(e.volOk, VolumeConfirmation)
    + When(e.higherLow, HigherLow)
  }

  function ShortBasePoints(e: Events): int {
    Weight((e.wasAboveVwap && e.rejectVwap), 35) + Weight((e.rsiDownshift && Gt(e.rsiSlow, Some(40.0))), 20) + Weight(e.macdTurnDown, 20)
    + Weight(e.volOk, 15) + Weight(e.lowerHigh, 10)
  }

  function ShortBaseRules(e: Events): seq<Rule> {
    When((e.wasAboveVwap && e.rejectVwap), VwapRejection) + When((e.rsiDownshift && Gt(e.rsiSlow, Some(40.0))), RsiDownshift)
    + When(e.macdTurnDown, MacdTurningDown) + When(e.volOk, VolumeConfirmation)
    + When(e.lowerHigh, LowerHigh)
  }

  /** The long total: the base table, and in pro mode also sweep 20,
      order-block retest 15, gap 10 and displacement 5, less a penalty of 15
      floored at zero when neither the trend nor the VWAP reclaim is there.
      Never negative; at most 100 without pro mode and 150 with it. */
  function LongPoints(f: Features, proMode: bool): (p: int)
    ensures 0 <= p <= (if proMode then 150 else 100)
  {
    if !proMode then LongBasePoints(f.events)
    else
      var raw := LongBasePoints(f.events) + Weight(f.diag.bullSweep, 20) + Weight(f.diag.bullObRetest, 15)
                 + Weight(f.diag.bullFvg.Some?, 10) + Weight(f.diag.displacement, 5);
      if !f.diag.trendLongOk && !(f.events.wasBelowVwap && f.events.reclaimVwap) then MaxInt(0, raw - 15) else raw
  }

  /** The short total, the mirror of LongPoints with the same bounds. */
  function ShortPoints(f: Features, proMode: bool): (p: int)
    ensures 0 <= p <= (if proMode then 150 else 100)
  {
    if !proMode then ShortBasePoints(f.events)
    else
      var raw := ShortBasePoints(f.events) + Weight(f.diag.bearSweep, 20) + Weight(f.diag.bearObRetest, 15)
                 + Weight(f.diag.bearFvg.Some?, 10) + Weight(f.diag.displacement, 5);
      if !f.diag.trendShortOk && !(f.events.wasAboveVwap && f.events.rejectVwap) then MaxInt(0, raw - 15) else raw
  }

  /** The rules behind the long total, in the order they are collected. */
  function LongRules(f: Features, proMode: bool): seq<Rule> {
    if !proMode then LongBaseRules(f.events)
    else LongBaseRules(f.events) + When(f.diag.bullSweep, LiquiditySweepLow)
         + When(f.diag.bullObRetest, BullishObRetest) + When(f.diag.bullFvg.Some?, BullishFvgPresent)
  }

  /** The rules behind the short total. */
  function ShortRules(f: Features, proMode: bool): seq<Rule> {
    if !proMode then ShortBaseRules(f.events)
    else ShortBaseRules(f.events) + When(f.diag.bearSweep, LiquiditySweepHigh)
         + When(f.diag.bearObRetest, BearishObRetest) + When(f.diag.bearFvg.Some?, BearishFvgPresent)
  }

  /** The first hard requirement that fails, in the order they are checked:
      each enabled preset requirement whose event is absent on both sides,
      then, in pro mode, the absence of any sweep or order-block retest. The
      result is None exactly when every enabled requirement holds, and
      otherwise names the first failing one. */
  function UnmetRequirement(cfg: Preset, proMode: bool, f: Features): (r: Option<Reason>)
    ensures var e, d := f.events, f.diag;
      var vwapOk := !cfg.requireVwapEvent || (e.wasBelowVwap && e.reclaimVwap) || (e.wasAboveVwap && e.rejectVwap);
      var rsiOk := !cfg.requireRsiEvent || e.rsiSnap || e.rsiDownshift;
      var macdOk := !cfg.requireMacdTurn || e.macdTurnUp || e.macdTurnDown;
      var volumeOk := !cfg.requireVolume || e.volOk;
      var triggerOk := !proMode || d.bullSweep || d.bearSweep || d.bullObRetest || d.bearObRetest;
      && (r.None? <==> vwapOk && rsiOk && macdOk && volumeOk && triggerOk)
      && (r == Some(NoVwapEvent) <==> !vwapOk)
      && (r == Some(NoRsiEvent) <==> vwapOk && !rsiOk)
      && (r == Some(NoMacdTurn) <==> vwapOk && rsiOk && !macdOk)
      && (r == Some(NoVolumeConfirmation) <==> vwapOk && rsiOk && macdOk && !volumeOk)
      && (r == Some(NoProTrigger) <==> vwapOk && rsiOk && macdOk && volumeOk && !triggerOk)
  {
    var e, d := f.events, f.diag;
    if cfg.requireVwapEvent && !((e.wasBelowVwap && e.reclaimVwap) || (e.wasAboveVwap && e.rejectVwap)) then Some(NoVwapEvent)
    else if cfg.requireRsiEvent && !(e.rsiSnap || e.rsiDownshift) then Some(NoRsiEvent)
    else if cfg.requireMacdTurn && !(e.macdTurnUp || e.macdTurnDown) then Some(NoMacdTurn)
    else if cfg.requireVolume && !e.volOk then Some(NoVolumeConfirmation)
    else if proMode && !(d.bullSweep || d.bearSweep || d.bullObRetest || d.bearObRetest) then Some(NoProTrigger)
    else None
  }

  // ---------------------------------------------------------------- levels

  datatype Levels = Levels(entry: real, stop: real, target1R: real, target2R: real)

  /** LONG levels: the stop is the lower of the swing low and the entry less
      0.8 ATR (ATR floored at 0); the risk is at least 0.01 and at least the
      entry-to-stop distance; the targets lie one and two risks above the
      entry. */
  function LongLevels(entry: real, swingLow: real, atr: real): (l: Levels)
    ensures l.entry == entry
    ensures l.stop <= entry - 0.8 * MaxReal(atr, 0.0) && l.stop <= swingLow
    ensures l.stop == swingLow || l.stop == entry - 0.8 * MaxReal(atr, 0.0)
    ensures l.target1R - l.entry >= 0.01 && l.target1R - l.entry >= l.entry - l.stop
    ensures l.target1R - l.entry == 0.01 || l.target1R - l.entry == l.entry - l.stop
    ensures l.target2R - l.entry == 2.0 * (l.target1R - l.entry)
    ensures l.stop <= l.entry < l.target1R < l.target2R
  {
    var stop := MinReal(swingLow, entry - MaxReal(atr, 0.0) * 0.8);
    var risk := MaxReal(entry - stop, 0.01);
    Levels(entry, stop, entry + risk, entry + 2.0 * risk)
  }

  /** SHORT levels: the mirror of LongLevels above the entry. */
  function ShortLevels(entry: real, swingHigh: real, atr: real): (l: Levels)
    ensures l.entry == entry
    ensures l.stop >= entry + 0.8 * MaxReal(atr, 0.0) && l.stop >= swingHigh
    ensures l.stop == swingHigh || l.stop == entry + 0.8 * MaxReal(atr, 0.0)
    ensures l.entry - l.target1R >= 0.01 && l.entry - l.target1R >= l.stop - l.entry
    ensures l.entry - l.target1R == 0.01 || l.entry - l.target1R == l.stop - l.entry
    ensures l.target2R - l.entry == 2.0 * (l.target1R - l.entry)
    ensures l.target2R < l.target1R < l.entry <= l.stop
  {
    var stop := MaxReal(swingHigh, entry + MaxReal(atr, 0.0) * 0.8);
    var risk := MaxReal(stop - entry, 0.01);
    Levels(entry, stop, entry - risk, entry - 2.0 * risk)
  }

  // -------------------------------------------------------------- decision

  function NeutralResult(symbol: string, score: int, reason: Reason, lastPrice: Option<real>,
                         ts: Option<int>, session: Session, extras: map<Key, Diag>): SignalResult {
    SignalResult(symbol, Neutral, score, reason, None, None, None, None, lastPrice, ts, session, extras)
  }

  /** The rules a directional result reports: the first six. */
  function FirstSix(rules: seq<Rule>): seq<Rule> {
    rules[..MinInt(6, |rules|)]
  }

  /** The strict-winner decision on the two totals: a side wins when its
      total reaches the threshold and beats the other side's, and gets its
      levels; otherwise the result is NEUTRAL with both totals. */
  function Pick(symbol: string, minScore: int, lp: int, lr: seq<Rule>, sp: int, sr: seq<Rule>,
                lastPrice: real, swingLow: real, swingHigh: real, atr: real, ts: int, session: Session,
                extras: map<Key, Diag>): SignalResult
  {
    if lp >= minScore && lp > sp then
      var l := LongLevels(lastPrice, swingLow, atr);
      SignalResult(symbol, Long, MinInt(100, lp), Fired(FirstSix(lr)),
                   Some(l.entry), Some(l.stop), Some(l.target1R), Some(l.target2R),
                   Some(lastPrice), Some(ts), session, extras)
    else if sp >= minScore && sp > lp then
      var l := ShortLevels(lastPrice, swingHigh, atr);
      SignalResult(symbol, Short, MinInt(100, sp), Fired(FirstSix(sr)),
                   Some(l.entry), Some(l.stop), Some(l.target1R), Some(l.target2R),
                   Some(lastPrice), Some(ts), session, extras)
    else
      NeutralResult(symbol, MaxInt(lp, sp), Scores(lp, lr, sp, sr), Some(lastPrice), Some(ts), session, extras)
  }

  /** What the winner decision promises. At most one side wins: LONG exactly
      when the long total reaches the threshold and strictly beats the short
      total, SHORT in the mirror case, so a tie is NEUTRAL. A directional score
      is its total capped at 100 and reports the first six rules; a NEUTRAL
      score is the larger total, uncapped, with both totals as the reason. The
      levels keep their invariant and sit beyond the swing anchor and 0.8 ATR
      from the entry. */
  lemma PickRules(symbol: string, minScore: int, lp: int, lr: seq<Rule>, sp: int, sr: seq<Rule>,
                  lastPrice: real, swingLow: real, swingHigh: real, atr: real, ts: int, session: Session,
                  extras: map<Key, Diag>)
    ensures var r := Pick(symbol, minScore, lp, lr, sp, sr, lastPrice, swingLow, swingHigh, atr, ts, session, extras);
      && ConsistentLevels(r)
      && r.lastPrice == Some(lastPrice) && r.timestamp == Some(ts) && r.session == session && r.extras == extras
      && (r.bias == Long <==> lp >= minScore && lp > sp)
      && (r.bias == Short <==> sp >= minScore && sp > lp)
      && (r.bias == Neutral ==> r.setupScore == MaxInt(lp, sp) && r.reason == Scores(lp, lr, sp, sr))
      && (r.bias == Long ==>
            && r.setupScore == MinInt(100, lp)
            && r.reason == Fired(FirstSix(lr))
            && r.entry == Some(lastPrice)
            && r.stop.value <= swingLow
            && r.stop.value <= lastPrice - 0.8 * MaxReal(atr, 0.0)
            && r.target1R.value - lastPrice >= 0.01)
      && (r.bias == Short ==>
            && r.setupScore == MinInt(100, sp)
            && r.reason == Fired(FirstSix(sr))
            && r.entry == Some(lastPrice)
            && r.stop.value >= swingHigh
            && r.stop.value >= lastPrice + 0.8 * MaxReal(atr, 0.0)
            && lastPrice - r.target1R.value >= 0.01)
  {
  }

  /** The requirement gates, then the strict-winner decision with its levels. */
  function Decide(symbol: string, cfg: Preset, proMode: bool, f: Features, ts: int, session: Session): SignalResult
  {
    var lp, sp := LongPoints(f, proMode), ShortPoints(f, proMode);
    var extras := Extras(f.atrLast, f.anchors, f.diag);
    match UnmetRequirement(cfg, proMode, f)
    case Some(why) => NeutralResult(symbol, MaxInt(lp, sp), why, Some(f.lastPrice), Some(ts), session, extras)
    case None =>
      Pick(symbol, cfg.minActionableScore, lp, LongRules(f, proMode), sp, ShortRules(f, proMode),
           f.lastPrice, f.anchors.recentSwingLow, f.anchors.recentSwingHigh, f.atrLast, ts, session, extras)
  }

  /** What the decision promises. A side wins exactly when every requirement
      is met, its total reaches the preset threshold and strictly beats the
      other side's, so the two sides never both win and a tie is NEUTRAL. A
      failed requirement is reported as the reason of a NEUTRAL result whose
      score is the larger total. Whatever the outcome, the levels keep their
      invariant and the result carries the last price, timestamp, session and
      the diagnostics. */
  lemma DecideRules(symbol: string, cfg: Preset, proMode: bool, f: Features, ts: int, session: Session)
    ensures var r := Decide(symbol, cfg, proMode, f, ts, session);
      var lp, sp, unmet := LongPoints(f, proMode), ShortPoints(f, proMode), UnmetRequirement(cfg, proMode, f);
      && ConsistentLevels(r)
      && r.lastPrice == Some(f.lastPrice) && r.timestamp == Some(ts) && r.session == session
      && r.extras == Extras(f.atrLast, f.anchors, f.diag)
      && !r.reason.NotEnoughData? && !r.reason.FilteredByTimeOfDay?
      && (r.bias == Long <==> unmet.None? && lp >= cfg.minActionableScore && lp > sp)
      && (r.bias == Short <==> unmet.None? && sp >= cfg.minActionableScore && sp > lp)
      && (unmet.Some? ==> r.bias == Neutral && r.reason == unmet.value)
      && (r.bias == Neutral ==> r.setupScore == MaxInt(lp, sp))
      && (r.bias == Long ==> r.setupScore == MinInt(100, lp) && r.entry == Some(f.lastPrice))
      && (r.bias == Short ==> r.setupScore == MinInt(100, sp) && r.entry == Some(f.lastPrice))
      && 0 <= r.setupScore <= (if proMode then 150 else 100)
      && (r.bias != Neutral ==> MinInt(100, cfg.minActionableScore) <= r.setupScore <= 100)
  {
    if UnmetRequirement(cfg, proMode, f).None? {
      PickRules(symbol, cfg.minActionableScore, LongPoints(f, proMode), LongRules(f, proMode),
                ShortPoints(f, proMode), ShortRules(f, proMode), f.lastPrice, f.anchors.recentSwingLow,
                f.anchors.recentSwingHigh, f.atrLast, ts, session, Extras(f.atrLast, f.anchors, f.diag));
    }
  }

  /** A NEUTRAL score is the larger raw total and is not capped at 100: in
      pro mode a long side with the VWAP reclaim, MACD turn, volume, higher
      low, sweep, order-block retest, gap and displacement totals 130, and a
      missing RSI event under "Cleaner signals" reports exactly that. */
  lemma NeutralScoreUncapped()
    ensures exists f: Features :: Decide("", PresetFor("Cleaner signals"), true, f, 0, Opening).bias == Neutral
                                 && Decide("", PresetFor("Cleaner signals"), true, f, 0, Opening).setupScore == 130
  {
    var e := Events(wasBelowVwap := true, reclaimVwap := true, wasAboveVwap := false, rejectVwap := false,
                    rsiSnap := false, rsiDownshift := false, rsiSlow := None,
                    macdTurnUp := true, macdTurnDown := false,
                    volOk := true, higherLow := true, lowerHigh := false);
    var d := ProDiag(ema20 := 1.0, ema50 := 1.0, trendLongOk := true, trendShortOk := false,
                     bullSweep := true, bearSweep := false,
                     bullFvg := Some(Zone(0.0, 1.0)), bearFvg := None,
                     bullOb := Some(OrderBlock(0.0, 1.0, 0)), bearOb := None,
                     bullObRetest := true, bearObRetest := false, displacement := true);
    var f := Features(1.0, 1.0, e, Anchors(0.0, 2.0, 0.0, 2.0), d);
    var cfg := PresetFor("Cleaner signals");
    assert LongPoints(f, true) == 130 && ShortPoints(f, true) == 5;
    assert UnmetRequirement(cfg, true, f) == Some(NoRsiEvent);
    assert Decide("", cfg, true, f, 0, Opening).setupScore == 130;
  }

  /** The lookback window can be formed: with 60 bars or more, pandas `tail`
      must leave at least one bar (the last timestamp of an empty window does
      not exist). */
  predicate WindowOk(ohlcv: seq<Bar>, lookbackBars: int) {
    |ohlcv| < 60 || |Tail(ohlcv, lookbackBars)| > 0
  }

  /** `compute_scalp_signal` as a function of its inputs. */
  function ScalpSignal(symbol: string, ohlcv: seq<Bar>, rsiFast: seq<Sample>, rsiSlow: seq<Sample>,
                       macdHist: seq<Sample>, mode: string, proMode: bool, filter: SessionFilter,
                       lookbackBars: int, classify: int -> Session): SignalResult
    requires WindowOk(ohlcv, lookbackBars)
  {
    if |ohlcv| < 60 then
      NeutralResult(symbol, 0, NotEnoughData, None, None, Off, map[])
    else
      var cfg := PresetFor(mode);
      var w := Tail(ohlcv, lookbackBars);
      var last := w[|w| - 1];
      var session := classify(last.ts);
      if !Allowed(session, filter) then
        NeutralResult(symbol, 0, FilteredByTimeOfDay(session), Some(last.close), Some(last.ts), session, map[])
      else
        Assess(symbol, cfg, proMode, w, rsiFast, rsiSlow, macdHist, session)
  }

  /** Everything after the session gate: the features of the window, with
      the oscillators aligned on its timestamps, and the decision on them. */
  function Assess(symbol: string, cfg: Preset, proMode: bool, w: seq<Bar>, rsiFast: seq<Sample>,
                  rsiSlow: seq<Sample>, macdHist: seq<Sample>, session: Session): SignalResult
    requires |w| > 0
  {
    var index := Timestamps(w);
    var f := Extract(w, Align(rsiFast, index), Align(rsiSlow, index), Align(macdHist, index), cfg);
    Decide(symbol, cfg, proMode, f, w[|w| - 1].ts, session)
  }

  // --------------------------------------------------------------- methods

  /** The swing stage: both swing masks and the anchors read from them. */
  method ComputeAnchors(df: seq<Bar>) returns (a: Anchors)
    requires |df| > 0
    ensures a == AnchorsOf(df)
  {
    var low, high := Lows(df), Highs(df);

    var swingLowMask := SwingLows(low, 3, 3);
    var recentSwingLows := Tail(Masked(low, swingLowMask), 6);
    var recentSwingLow := if |recentSwingLows| > 0 then recentSwingLows[|recentSwingLows| - 1]
                          else SeqMin(Tail(low, 12));

    var swingHighMask := SwingHighs(high, 3, 3);
    var recentSwingHighs := Tail(Masked(high, swingHighMask), 6);
    var recentSwingHigh := if |recentSwingHighs| > 0 then recentSwingHighs[|recentSwingHighs| - 1]
                           else SeqMax(Tail(high, 12));

    var priorSwingHigh := if |recentSwingHighs| > 0 then recentSwingHighs[|recentSwingHighs| - 1]
                          else SeqMax(Tail(high, 30));
    var priorSwingLow := if |recentSwingLows| > 0 then recentSwingLows[|recentSwingLows| - 1]
                         else SeqMin(Tail(low, 30));
    a := Anchors(recentSwingLow, recentSwingHigh, priorSwingLow, priorSwingHigh);
    LatestFlagged(low, swingLowMask, SeqMin(Tail(low, 12)));
    LatestFlagged(low, swingLowMask, SeqMin(Tail(low, 30)));
    LatestFlagged(high, swingHighMask, SeqMax(Tail(high, 12)));
    LatestFlagged(high, swingHighMask, SeqMax(Tail(high, 30)));
  }

  /** The pro diagnostics of the window, computed step by step. */
  method ComputePro(df: seq<Bar>, atrLast: real, anchors: Anchors, bullFvg: Option<Zone>, bearFvg: Option<Zone>,
                    obBull: Option<OrderBlock>, obBear: Option<OrderBlock>)
    returns (d: ProDiag)
    requires |df| > 0
    ensures d == ProOf(df, atrLast, anchors, bullFvg, bearFvg, obBull, obBear)
  {
    var n := |df|;
    var close := Closes(df);
    var ema20 := Ema(close, 20);
    var ema50 := Ema(close, 50);
    var lastPrice := df[n - 1].close;
    var buffer := if atrLast != 0.0 then 0.25 * atrLast else 0.0;

    var trendLongOk := lastPrice >= ema20[n - 1] && ema20[n - 1] >= ema50[n - 1];
    var trendShortOk := lastPrice <= ema20[n - 1] && ema20[n - 1] <= ema50[n - 1];

    var bullSweep := df[n - 1].low < anchors.priorSwingLow && lastPrice > anchors.priorSwingLow;
    var bearSweep := df[n - 1].high > anchors.priorSwingHigh && lastPrice < anchors.priorSwingHigh;

    var bullObRetest := obBull.Some? && InZone(lastPrice, obBull.value.low, obBull.value.high, buffer);
    var bearObRetest := obBear.Some? && InZone(lastPrice, obBear.value.low, obBear.value.high, buffer);

    var lastRange := df[n - 1].high - df[n - 1].low;
    var displacement := atrLast != 0.0 && lastRange >= 1.5 * atrLast;

    d := ProDiag(ema20[n - 1], ema50[n - 1], trendLongOk, trendShortOk, bullSweep, bearSweep,
                 bullFvg, bearFvg, obBull, obBear, bullObRetest, bearObRetest, displacement);
  }

  /** The diagnostics map, filled key by key in the order the engine writes it. */
  method RecordPro(atrLast: real, anchors: Anchors, d: ProDiag) returns (extras: map<Key, Diag>)
    ensures extras == Extras(atrLast, anchors, d)
  {
    extras := map[];
    extras := extras[Ema20Key := Num(d.ema20)];
    extras := extras[Ema50Key := Num(d.ema50)];
    extras := extras[TrendLongOk := Flag(d.trendLongOk)];
    extras := extras[TrendShortOk := Flag(d.trendShortOk)];
    extras := extras[PriorSwingHigh := Num(anchors.priorSwingHigh)];
    extras := extras[PriorSwingLow := Num(anchors.priorSwingLow)];
    extras := extras[BullLiquiditySweep := Flag(d.bullSweep)];
    extras := extras[BearLiquiditySweep := Flag(d.bearSweep)];
    extras := extras[BullFvg := Gap(d.bullFvg)];
    extras := extras[BearFvg := Gap(d.bearFvg)];
    extras := extras[BullOb := Block(d.bullOb)];
    extras := extras[BearOb := Block(d.bearOb)];
    extras := extras[BullObRetest := Flag(d.bullObRetest)];
    extras := extras[BearObRetest := Flag(d.bearObRetest)];
    extras := extras[Displacement := Flag(d.displacement)];
    extras := extras[Atr14 := Num(atrLast)];
  }

  /** One scoring rule: when it holds, add its points and record it. */
  method Award(holds: bool, points: int, rule: Rule, total: int, rules: seq<Rule>)
    returns (total': int, rules': seq<Rule>)
    ensures total' == total + Weight(holds, points) && rules' == rules + When(holds, rule)
  {
    total', rules' := total, rules;
    if holds {
      total' := total + points;
      rules' := rules + [rule];
    }
  }

  /** The base long rules, accumulated one by one. */
  method ScoreLongBase(e: Events) returns (points: int, reasons: seq<Rule>)
    ensures points == LongBasePoints(e) && reasons == LongBaseRules(e)
  {
    points, reasons := Weight(e.wasBelowVwap && e.reclaimVwap, 35), When(e.wasBelowVwap && e.reclaimVwap, VwapReclaim);
    points, reasons := Award(e.rsiSnap && Lt(e.rsiSlow, Some(60.0)), 20, RsiSnapback, points, reasons);
    points, reasons := Award(e.macdTurnUp, 20, MacdTurningUp, points, reasons);
    points, reasons := Award(e.volOk, 15, VolumeConfirmation, points, reasons);
    points, reasons := Award(e.higherLow, 10, HigherLow, points, reasons);
  }

  /** The base short rules, accumulated one by one. */
  method ScoreShortBase(e: Events) returns (points: int, reasons: seq<Rule>)
    ensures points == ShortBasePoints(e) && reasons == ShortBaseRules(e)
  {
    points, reasons := Weight(e.wasAboveVwap && e.rejectVwap, 35), When(e.wasAboveVwap && e.rejectVwap, VwapRejection);
    points, reasons := Award(e.rsiDownshift && Gt(e.rsiSlow, Some(40.0)), 20, RsiDownshift, points, reasons);
    points, reasons := Award(e.macdTurnDown, 20, MacdTurningDown, points, reasons);
    points, reasons := Award(e.volOk, 15, VolumeConfirmation, points, reasons);
    points, reasons := Award(e.lowerHigh, 10, LowerHigh, points, reasons);
  }

  /** The long accumulator: the base rules, then in pro mode the pro
      additions and the floored trend penalty. */
  method ScoreLong(f: Features, proMode: bool) returns (points: int, reasons: seq<Rule>)
    ensures points == LongPoints(f, proMode) && reasons == LongRules(f, proMode)
  {
    var e, d := f.events, f.diag;
    points, reasons := ScoreLongBase(e);
    if proMode {
      points, reasons := Award(d.bullSweep, 20, LiquiditySweepLow, points, reasons);
      points, reasons := Award(d.bullObRetest, 15, BullishObRetest, points, reasons);
      points, reasons := Award(d.bullFvg.Some?, 10, BullishFvgPresent, points, reasons);
      points := points + Weight(d.displacement, 5);
      if !d.trendLongOk && !(e.wasBelowVwap && e.reclaimVwap) {
        points := MaxInt(0, points - 15);
      }
    }
  }

  /** The short accumulator, the mirror of ScoreLong. */
  method ScoreShort(f: Features, proMode: bool) returns (points: int, reasons: seq<Rule>)
    ensures points == ShortPoints(f, proMode) && reasons == ShortRules(f, proMode)
  {
    var e, d := f.events, f.diag;
    points, reasons := ScoreShortBase(e);
    if proMode {
      points, reasons := Award(d.bearSweep, 20, LiquiditySweepHigh, points, reasons);
      points, reasons := Award(d.bearObRetest, 15, BearishObRetest, points, reasons);
      points, reasons := Award(d.bearFvg.Some?, 10, BearishFvgPresent, points, reasons);
      points := points + Weight(d.displacement, 5);
      if !d.trendShortOk && !(e.wasAboveVwap && e.rejectVwap) {
        points := MaxInt(0, points - 15);
      }
    }
  }

  /** The requirement gates in order, each an early return naming the first
      one that fails. */
  method CheckRequirements(cfg: Preset, proMode: bool, f: Features) returns (unmet: Option<Reason>)
    ensures unmet == UnmetRequirement(cfg, proMode, f)
  {
    var e, d := f.events, f.diag;
    if cfg.requireVwapEvent {
      if !((e.wasBelowVwap && e.reclaimVwap) || (e.wasAboveVwap && e.rejectVwap)) {
        return Some(NoVwapEvent);
      }
    }
    if cfg.requireRsiEvent {
      if !(e.rsiSnap || e.rsiDownshift) {
        return Some(NoRsiEvent);
      }
    }
    if cfg.requireMacdTurn {
      if !(e.macdTurnUp || e.macdTurnDown) {
        return Some(NoMacdTurn);
      }
    }
    if cfg.requireVolume && !e.volOk {
      return Some(NoVolumeConfirmation);
    }
    if proMode {
      if !(d.bullSweep || d.bearSweep || d.bullObRetest || d.bearObRetest) {
        return Some(NoProTrigger);
      }
    }
    return None;
  }

  /** The strict-winner decision with its stop and targets. */
  method PickWinner(symbol: string, minScore: int, longPoints: int, longReasons: seq<Rule>,
                    shortPoints: int, shortReasons: seq<Rule>, lastPrice: real, swingLow: real,
                    swingHigh: real, atr: real, lastTs: int, session: Session, extras: map<Key, Diag>)
    returns (r: SignalResult)
    ensures r == Pick(symbol, minScore, longPoints, longReasons, shortPoints, shortReasons,
                      lastPrice, swingLow, swingHigh, atr, lastTs, session, extras)
  {
    if longPoints >= minScore && longPoints > shortPoints {
      var entry := lastPrice;
      var stop := MinReal(swingLow, lastPrice - MaxReal(atr, 0.0) * 0.8);
      var risk := MaxReal(entry - stop, 0.01);
      return SignalResult(symbol, Long, MinInt(100, longPoints), Fired(longReasons[..MinInt(6, |longReasons|)]),
                          Some(entry), Some(stop), Some(entry + risk), Some(entry + 2.0 * risk),
                          Some(lastPrice), Some(lastTs), session, extras);
    }

    if shortPoints >= minScore && shortPoints > longPoints {
      var entry := lastPrice;
      var stop := MaxReal(swingHigh, lastPrice + MaxReal(atr, 0.0) * 0.8);
      var risk := MaxReal(stop - entry, 0.01);
      return SignalResult(symbol, Short, MinInt(100, shortPoints), Fired(shortReasons[..MinInt(6, |shortReasons|)]),
                          Some(entry), Some(stop), Some(entry - risk), Some(entry - 2.0 * risk),
                          Some(lastPrice), Some(lastTs), session, extras);
    }

    return SignalResult(symbol, Neutral, MaxInt(longPoints, shortPoints),
                        Scores(longPoints, longReasons, shortPoints, shortReasons),
                        None, None, None, None, Some(lastPrice), Some(lastTs), session, extras);
  }

  /** The requirement gates, each an early NEUTRAL return with the larger
      total as its score, then the winner decision. */
  method Conclude(symbol: string, cfg: Preset, proMode: bool, f: Features,
                  longPoints: int, longReasons: seq<Rule>, shortPoints: int, shortReasons: seq<Rule>,
                  extras: map<Key, Diag>, lastTs: int, session: Session)
    returns (r: SignalResult)
    requires longPoints == LongPoints(f, proMode) && longReasons == LongRules(f, proMode)
    requires shortPoints == ShortPoints(f, proMode) && shortReasons == ShortRules(f, proMode)
    requires extras == Extras(f.atrLast, f.anchors, f.diag)
    ensures r == Decide(symbol, cfg, proMode, f, lastTs, session)
  {
    var unmet := CheckRequirements(cfg, proMode, f);
    if unmet.Some? {
      return SignalResult(symbol, Neutral, MaxInt(longPoints, shortPoints), unmet.value, None, None, None, None,
                          Some(f.lastPrice), Some(lastTs), session, extras);
    }
    r := PickWinner(symbol, cfg.minActionableScore, longPoints, longReasons, shortPoints, shortReasons,
                    f.lastPrice, f.anchors.recentSwingLow, f.anchors.recentSwingHigh, f.atrLast,
                    lastTs, session, extras);
  }

  /** The diagnostic stages after the session gate: the events on the last
      bar, the swing anchors, the gaps, the order blocks and the pro
      diagnostics with their map. */
  method ComputeFeatures(cfg: Preset, df: seq<Bar>, atr14: seq<Option<real>>,
                         rsi5s: seq<Option<real>>, rsi14s: seq<Option<real>>, macd: seq<Option<real>>)
    returns (f: Features, extras: map<Key, Diag>)
    requires |df| > 0 && atr14 == Atr(df, 14)
    ensures f == Extract(df, rsi5s, rsi14s, macd, cfg)
    ensures extras == Extras(f.atrLast, f.anchors, f.diag)
  {
    var n := |df|;
    var events := LastBarEvents(df, rsi5s, rsi14s, macd, cfg);
    var anchors := ComputeAnchors(df);
    var atrLast := if atr14[n - 1].Some? then atr14[n - 1].value else 0.0;
    var bullFvg, bearFvg := DetectFvg(Tail(df, 60));
    var obBull := FindOrderBlock(df, atr14, Bull, 35);
    var obBear := FindOrderBlock(df, atr14, Bear, 35);
    var diag := ComputePro(df, atrLast, anchors, bullFvg, bearFvg, obBull, obBear);
    extras := RecordPro(atrLast, anchors, diag);
    f := Features(df[n - 1].close, atrLast, events, anchors, diag);
  }

  /** Everything after the session gate: the diagnostic stages, both
      accumulators, then the gates and the decision. */
  method Evaluate(symbol: string, cfg: Preset, proMode: bool, df: seq<Bar>, atr14: seq<Option<real>>,
                  rsiFast: seq<Sample>, rsiSlow: seq<Sample>, macdHist: seq<Sample>,
                  rsi5s: seq<Option<real>>, rsi14s: seq<Option<real>>, macd: seq<Option<real>>,
                  lastTs: int, session: Session)
    returns (r: SignalResult)
    requires |df| > 0 && atr14 == Atr(df, 14) && lastTs == df[|df| - 1].ts
    requires rsi5s == Align(rsiFast, Timestamps(df)) && rsi14s == Align(rsiSlow, Timestamps(df))
    requires macd == Align(macdHist, Timestamps(df))
    ensures r == Assess(symbol, cfg, proMode, df, rsiFast, rsiSlow, macdHist, session)
  {
    var f, extras := ComputeFeatures(cfg, df, atr14, rsi5s, rsi14s, macd);

    var longPoints, longReasons := ScoreLong(f, proMode);
    var shortPoints, shortReasons := ScoreShort(f, proMode);

    r := Conclude(symbol, cfg, proMode, f, longPoints, longReasons, shortPoints, shortReasons,
                  extras, lastTs, session);
  }

  /** `compute_scalp_signal`, step by step: the data gate, the window, its
      ATR and the aligned oscillators, the session gate, then the rest. */
  method ComputeScalpSignal(symbol: string, ohlcv: seq<Bar>, rsiFast: seq<Sample>, rsiSlow: seq<Sample>,
                            macdHist: seq<Sample>, mode: string, proMode: bool, filter: SessionFilter,
                            lookbackBars: int, classify: int -> Session)
    returns (r: SignalResult)
    requires WindowOk(ohlcv, lookbackBars)
    ensures r == ScalpSignal(symbol, ohlcv, rsiFast, rsiSlow, macdHist, mode, proMode, filter, lookbackBars, classify)
  {
    if |ohlcv| < 60 {
      TooLittleData(symbol, ohlcv, rsiFast, rsiSlow, macdHist, mode, proMode, filter, lookbackBars, classify);
      return SignalResult(symbol, Neutral, 0, NotEnoughData, None, None, None, None, None, None, Off, map[]);
    }

    var cfg := PresetFor(mode);

    var df := Tail(ohlcv, lookbackBars);
    var n := |df|;
    TailKeepsLast(ohlcv, lookbackBars);
    var atr14 := Atr(df, 14);

    var index := Timestamps(df);
    var rsi5s := Align(rsiFast, index);
    var rsi14s := Align(rsiSlow, index);
    var macd := Align(macdHist, index);

    var lastTs := df[n - 1].ts;
    var session := classify(lastTs);
    var allowed := (session == Opening && filter.allowOpening)
                   || (session == Midday && filter.allowMidday)
                   || (session == Power && filter.allowPower);
    var lastPrice := df[n - 1].close;

    if !allowed {
      SessionGate(symbol, ohlcv, rsiFast, rsiSlow, macdHist, mode, proMode, filter, lookbackBars, classify);
      return SignalResult(symbol, Neutral, 0, FilteredByTimeOfDay(session), None, None, None, None,
                          Some(lastPrice), Some(lastTs), session, map[]);
    }

    PastGates(symbol, ohlcv, rsiFast, rsiSlow, macdHist, mode, proMode, filter, lookbackBars, classify);
    r := Evaluate(symbol, cfg, proMode, df, atr14, rsiFast, rsiSlow, macdHist, rsi5s, rsi14s, macd, lastTs, session);
  }

  // ----------------------------------------------------------------- lemmas

  /** A tail that keeps at least one row ends with the last row of the series. */
  lemma TailKeepsLast(xs: seq<Bar>, k: int)
    requires |Tail(xs, k)| > 0
    ensures Tail(xs, k)[|Tail(xs, k)| - 1] == xs[|xs| - 1]
  {
  }

  /** With fewer than 60 bars the result is NEUTRAL with score 0 and reason
      "not enough data", and carries no levels, no price, no timestamp, the
      OFF session and no diagnostics, whatever the other inputs are. */
  lemma TooLittleData(symbol: string, ohlcv: seq<Bar>, rsiFast: seq<Sample>, rsiSlow: seq<Sample>,
                      macdHist: seq<Sample>, mode: string, proMode: bool, filter: SessionFilter,
                      lookbackBars: int, classify: int -> Session)
    requires |ohlcv| < 60
    ensures var r := ScalpSignal(symbol, ohlcv, rsiFast, rsiSlow, macdHist, mode, proMode, filter, lookbackBars, classify);
      && r.bias == Neutral && r.setupScore == 0 && r.reason == NotEnoughData
      && r.entry.None? && r.stop.None? && r.target1R.None? && r.target2R.None?
      && r.lastPrice.None? && r.timestamp.None? && r.session == Off && r.extras == map[]
  {
  }

  /** The session gate: with enough bars, when the session of the last bar is
      not allowed, the result is NEUTRAL with score 0, names that session,
      carries no levels and no diagnostics, and reports the last close and
      timestamp of the whole series. */
  lemma SessionGate(symbol: string, ohlcv: seq<Bar>, rsiFast: seq<Sample>, rsiSlow: seq<Sample>,
                    macdHist: seq<Sample>, mode: string, proMode: bool, filter: SessionFilter,
                    lookbackBars: int, classify: int -> Session)
    requires |ohlcv| >= 60 && |Tail(ohlcv, lookbackBars)| > 0
    requires !Allowed(classify(ohlcv[|ohlcv| - 1].ts), filter)
    ensures var r := ScalpSignal(symbol, ohlcv, rsiFast, rsiSlow, macdHist, mode, proMode, filter, lookbackBars, classify);
      && r.bias == Neutral && r.setupScore == 0
      && r.reason == FilteredByTimeOfDay(classify(ohlcv[|ohlcv| - 1].ts))
      && r.entry.None? && r.stop.None? && r.target1R.None? && r.target2R.None?
      && r.lastPrice == Some(ohlcv[|ohlcv| - 1].close) && r.timestamp == Some(ohlcv[|ohlcv| - 1].ts)
      && r.session == classify(ohlcv[|ohlcv| - 1].ts) && r.extras == map[]
  {
    TailKeepsLast(ohlcv, lookbackBars);
  }

  /** Every result has levels consistent with its bias: all four on a LONG
      or SHORT result, ordered around the entry, none on a NEUTRAL one. */
  lemma LevelsConsistent(symbol: string, ohlcv: seq<Bar>, rsiFast: seq<Sample>, rsiSlow: seq<Sample>,
      macdHist: seq<Sample>, mode: string, proMode: bool, filter: SessionFilter,
      lookbackBars: int, classify: int -> Session)
    requires WindowOk(ohlcv, lookbackBars)
    ensures var r := ScalpSignal(symbol, ohlcv, rsiFast, rsiSlow, macdHist, mode, proMode, filter, lookbackBars, classify);
      ConsistentLevels(r)
  {
    if |ohlcv| < 60 {
      TooLittleData(symbol, ohlcv, rsiFast, rsiSlow, macdHist, mode, proMode, filter, lookbackBars, classify);
    } else {
      var w := Tail(ohlcv, lookbackBars);
      TailKeepsLast(ohlcv, lookbackBars);
      var session := classify(w[|w| - 1].ts);
      if Allowed(session, filter) {
        PastGates(symbol, ohlcv, rsiFast, rsiSlow, macdHist, mode, proMode, filter, lookbackBars, classify);
        AssessRules(symbol, PresetFor(mode), proMode, w, rsiFast, rsiSlow, macdHist, session);
      } else {
        SessionGate(symbol, ohlcv, rsiFast, rsiSlow, macdHist, mode, proMode, filter, lookbackBars, classify);
      }
    }
  }

  /** Every score lies in [0, 100], or in [0, 150] in pro mode (a NEUTRAL
      score is not capped). */
  lemma ScoreBounds(symbol: string, ohlcv: seq<Bar>, rsiFast: seq<Sample>, rsiSlow: seq<Sample>,
      macdHist: seq<Sample>, mode: string, proMode: bool, filter: SessionFilter,
      lookbackBars: int, classify: int -> Session)
    requires WindowOk(ohlcv, lookbackBars)
    ensures var r := ScalpSignal(symbol, ohlcv, rsiFast, rsiSlow, macdHist, mode, proMode, filter, lookbackBars, classify);
      0 <= r.setupScore <= (if proMode then 150 else 100)
  {
    if |ohlcv| < 60 {
      TooLittleData(symbol, ohlcv, rsiFast, rsiSlow, macdHist, mode, proMode, filter, lookbackBars, classify);
    } else {
      var w := Tail(ohlcv, lookbackBars);
      TailKeepsLast(ohlcv, lookbackBars);
      var session := classify(w[|w| - 1].ts);
      if Allowed(session, filter) {
        PastGates(symbol, ohlcv, rsiFast, rsiSlow, macdHist, mode, proMode, filter, lookbackBars, classify);
        AssessRules(symbol, PresetFor(mode), proMode, w, rsiFast, rsiSlow, macdHist, session);
      } else {
        SessionGate(symbol, ohlcv, rsiFast, rsiSlow, macdHist, mode, proMode, filter, lookbackBars, classify);
      }
    }
  }

  /** A result is filtered by time of day exactly when there are enough bars
      and the last bar's session is not allowed. */
  lemma FilteredExactly(symbol: string, ohlcv: seq<Bar>, rsiFast: seq<Sample>, rsiSlow: seq<Sample>,
      macdHist: seq<Sample>, mode: string, proMode: bool, filter: SessionFilter,
      lookbackBars: int, classify: int -> Session)
    requires WindowOk(ohlcv, lookbackBars)
    ensures var r := ScalpSignal(symbol, ohlcv, rsiFast, rsiSlow, macdHist, mode, proMode, filter, lookbackBars, classify);
      r.reason.FilteredByTimeOfDay? <==> |ohlcv| >= 60 && !Allowed(classify(ohlcv[|ohlcv| - 1].ts), filter)
  {
    if |ohlcv| < 60 {
      TooLittleData(symbol, ohlcv, rsiFast, rsiSlow, macdHist, mode, proMode, filter, lookbackBars, classify);
    } else {
      var w := Tail(ohlcv, lookbackBars);
      TailKeepsLast(ohlcv, lookbackBars);
      var session := classify(w[|w| - 1].ts);
      if Allowed(session, filter) {
        PastGates(symbol, ohlcv, rsiFast, rsiSlow, macdHist, mode, proMode, filter, lookbackBars, classify);
        AssessRules(symbol, PresetFor(mode), proMode, w, rsiFast, rsiSlow, macdHist, session);
      } else {
        SessionGate(symbol, ohlcv, rsiFast, rsiSlow, macdHist, mode, proMode, filter, lookbackBars, classify);
      }
    }
  }

  /** A LONG or SHORT result needs enough bars and a session the filter
      allows. */
  lemma ActionableGates(symbol: string, ohlcv: seq<Bar>, rsiFast: seq<Sample>, rsiSlow: seq<Sample>,
      macdHist: seq<Sample>, mode: string, proMode: bool, filter: SessionFilter,
      lookbackBars: int, classify: int -> Session)
    requires WindowOk(ohlcv, lookbackBars)
    ensures var r := ScalpSignal(symbol, ohlcv, rsiFast, rsiSlow, macdHist, mode, proMode, filter, lookbackBars, classify);
      r.bias != Neutral ==> |ohlcv| >= 60 && Allowed(r.session, filter)
  {
    if |ohlcv| < 60 {
      TooLittleData(symbol, ohlcv, rsiFast, rsiSlow, macdHist, mode, proMode, filter, lookbackBars, classify);
    } else {
      var w := Tail(ohlcv, lookbackBars);
      TailKeepsLast(ohlcv, lookbackBars);
      var session := classify(w[|w| - 1].ts);
      if Allowed(session, filter) {
        PastGates(symbol, ohlcv, rsiFast, rsiSlow, macdHist, mode, proMode, filter, lookbackBars, classify);
        AssessRules(symbol, PresetFor(mode), proMode, w, rsiFast, rsiSlow, macdHist, session);
      } else {
        SessionGate(symbol, ohlcv, rsiFast, rsiSlow, macdHist, mode, proMode, filter, lookbackBars, classify);
      }
    }
  }

  /** A LONG or SHORT result has a score of at most 100 that reaches the
      preset's threshold. */
  lemma ActionableScore(symbol: string, ohlcv: seq<Bar>, rsiFast: seq<Sample>, rsiSlow: seq<Sample>,
      macdHist: seq<Sample>, mode: string, proMode: bool, filter: SessionFilter,
      lookbackBars: int, classify: int -> Session)
    requires WindowOk(ohlcv, lookbackBars)
    ensures var r := ScalpSignal(symbol, ohlcv, rsiFast, rsiSlow, macdHist, mode, proMode, filter, lookbackBars, classify);
      r.bias != Neutral ==> PresetFor(mode).minActionableScore <= r.setupScore <= 100
  {
    if |ohlcv| < 60 {
      TooLittleData(symbol, ohlcv, rsiFast, rsiSlow, macdHist, mode, proMode, filter, lookbackBars, classify);
    } else {
      var w := Tail(ohlcv, lookbackBars);
      TailKeepsLast(ohlcv, lookbackBars);
      var session := classify(w[|w| - 1].ts);
      if Allowed(session, filter) {
        PastGates(symbol, ohlcv, rsiFast, rsiSlow, macdHist, mode, proMode, filter, lookbackBars, classify);
        AssessRules(symbol, PresetFor(mode), proMode, w, rsiFast, rsiSlow, macdHist, session);
        assert MinInt(100, PresetFor(mode).minActionableScore) == PresetFor(mode).minActionableScore;
      } else {
        SessionGate(symbol, ohlcv, rsiFast, rsiSlow, macdHist, mode, proMode, filter, lookbackBars, classify);
      }
    }
  }

  /** With enough bars and an allowed session, the result is the assessment
      of the lookback window under the mode's preset. */
  lemma PastGates(symbol: string, ohlcv: seq<Bar>, rsiFast: seq<Sample>, rsiSlow: seq<Sample>,
                  macdHist: seq<Sample>, mode: string, proMode: bool, filter: SessionFilter,
                  lookbackBars: int, classify: int -> Session)
    requires |ohlcv| >= 60 && |Tail(ohlcv, lookbackBars)| > 0
    requires Allowed(classify(ohlcv[|ohlcv| - 1].ts), filter)
    ensures ScalpSignal(symbol, ohlcv, rsiFast, rsiSlow, macdHist, mode, proMode, filter, lookbackBars, classify)
      == Assess(symbol, PresetFor(mode), proMode, Tail(ohlcv, lookbackBars), rsiFast, rsiSlow, macdHist,
                classify(ohlcv[|ohlcv| - 1].ts))
  {
    TailKeepsLast(ohlcv, lookbackBars);
  }

  /** Past the session gate, the result keeps the level invariant and the
      score bounds, names the session it was given, is never a gate result
      ("not enough data" or "filtered by time of day"), and a directional
      score of at most 100 reaches the threshold (when the threshold is itself
      a score). */
  lemma AssessRules(symbol: string, cfg: Preset, proMode: bool, w: seq<Bar>, rsiFast: seq<Sample>,
                    rsiSlow: seq<Sample>, macdHist: seq<Sample>, session: Session)
    requires |w| > 0
    ensures var r := Assess(symbol, cfg, proMode, w, rsiFast, rsiSlow, macdHist, session);
      && ConsistentLevels(r) && 0 <= r.setupScore <= (if proMode then 150 else 100)
      && !r.reason.NotEnoughData? && !r.reason.FilteredByTimeOfDay? && r.session == session
      && (r.bias != Neutral ==> MinInt(100, cfg.minActionableScore) <= r.setupScore <= 100)
  {
    var index := Timestamps(w);
    var f := Extract(w, Align(rsiFast, index), Align(rsiSlow, index), Align(macdHist, index), cfg);
    DecideRules(symbol, cfg, proMode, f, w[|w| - 1].ts, session);
  }

  /** The last of the (at most six latest) flagged values is the value at
      the last flagged position, and the fallback when nothing is flagged. */
  lemma LatestFlagged(xs: seq<real>, flags: seq<bool>, fallback: real)
    requires |flags| == |xs|
    ensures LastOr(Tail(Masked(xs, flags), 6), fallback)
            == if LastFlagged(flags) >= 0 then xs[LastFlagged(flags)] else fallback
  {
    MaskedLast(xs, flags);
    var m := Masked(xs, flags);
    var t := Tail(m, 6);
    if |m| > 0 {
      assert t[|t| - 1] == m[|m| - 1];
      var i :| LastSetAt(flags, i) && m[|m| - 1] == xs[i];
      assert i == LastFlagged(flags);
    }
  }

  /** The swing anchors: when some bar is flagged in the low mask, the
      recent and the prior swing low are both the low of the latest flagged
      bar; when none is, they are the lowest low of the last 12 and of the last
      30 bars. The highs mirror this with the high mask. */
  lemma AnchorsFromMasks(lows: seq<real>, highs: seq<real>, lowFlags: seq<bool>, highFlags: seq<bool>)
    requires |lows| > 0 && |highs| > 0 && |lowFlags| == |lows| && |highFlags| == |highs|
    ensures var a := AnchorsFrom(lows, highs, lowFlags, highFlags);
      && ((exists i :: 0 <= i < |lows| && lowFlags[i]) ==>
            exists i :: 0 <= i < |lows| && lowFlags[i] && a.recentSwingLow == lows[i] && a.priorSwingLow == lows[i]
                        && forall j :: i < j < |lows| ==> !lowFlags[j])
      && ((forall i :: 0 <= i < |lows| ==> !lowFlags[i]) ==>
            a.recentSwingLow == SeqMin(Tail(lows, 12)) && a.priorSwingLow == SeqMin(Tail(lows, 30)))
    ensures var a := AnchorsFrom(lows, highs, lowFlags, highFlags);
      && ((exists i :: 0 <= i < |highs| && highFlags[i]) ==>
            exists i :: 0 <= i < |highs| && highFlags[i] && a.recentSwingHigh == highs[i] && a.priorSwingHigh == highs[i]
                        && forall j :: i < j < |highs| ==> !highFlags[j])
      && ((forall i :: 0 <= i < |highs| ==> !highFlags[i]) ==>
            a.recentSwingHigh == SeqMax(Tail(highs, 12)) && a.priorSwingHigh == SeqMax(Tail(highs, 30)))
  {
  }
}
