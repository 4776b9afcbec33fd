# Scalp-signal engine: a verified model

This project models the decision core of a scalp-signal engine for intraday
trading. From a history of OHLCV bars and three independently timestamped
oscillators (a fast RSI, a slow RSI and a MACD histogram), the engine decides
whether the last bar sets up a LONG scalp, a SHORT scalp or nothing (NEUTRAL).
A directional result comes with entry, stop and two targets.

The core is two Python files:

- `indicators.py` holds the indicator primitives, modelled in `indicators.dfy`
  (module `Indicators`):
  - cumulative VWAP, ATR(14) and EMA (`ewm(adjust=False)`);
  - swing-low and swing-high masks;
  - the three-bar fair-value-gap (FVG) scan and the order-block search;
  - the zone-membership test.
- `signals.py` holds `compute_scalp_signal`, modelled in `signals.dfy`
  (module `Signals`). It is a straight-line procedure:
  1. a data-sufficiency gate (60 bars);
  2. the preset lookup with its fallback;
  3. the lookback window (pandas `tail`) and alignment of the oscillators
     onto the bar timestamps (`reindex` + `ffill`);
  4. a session gate;
  5. detection of events on the last bar, and the swing anchors;
  6. pro diagnostics (trend, liquidity sweep, FVG, order-block retest,
     displacement);
  7. weighted long and short scoring;
  8. the preset's hard requirements;
  9. a strict-winner decision, and stop and target derivation.

Supporting modules:

- `common.dfy` (module `Common`): bars, missing values and the pandas
  positional helpers `tail` and `shift`.
- `series_ops.dfy` (module `SeriesOps`): `reindex` + `ffill` and the trailing
  rolling median.

How pandas is represented:

- A missing value (NaN) is `None` of `Option<real>`. The comparisons `Lt`,
  `Le`, `Gt` and `Ge` are false as soon as a side is missing, as NaN
  comparisons are.
- Timestamps are integers.
- The session classifier is a parameter of type `int -> Session`.

The code is modelled in its own form:

- Value-level code (the indicators as series, the features, the scores, the
  decision) is functions.
- Step-by-step code is methods, each proved equal to the function that
  specifies it:
  - the swing-mask loops (`SwingLows`, `SwingHighs`), which write into an
    array;
  - the forward FVG scan (`DetectFvg`);
  - the backward order-block walk with its early return (`ScanBackward`);
  - the score accumulators (`ScoreLong`, `ScoreShort`);
  - the diagnostics map filled key by key (`RecordPro`);
  - the requirement gates with their early returns (`CheckRequirements`);
  - the procedure as a whole (`ComputeScalpSignal`).
- `ScalpSignal` is the whole procedure as one function. `ComputeScalpSignal`
  ensures it returns exactly `ScalpSignal`. The lemmas at the end of
  `signals.dfy` state what the procedure promises.

## Model

| member | source | states |
|---|---|---|
| Common.Tail | signals.py:76 | pandas `tail(k)` is a suffix of the series: the last k rows for k > 0 (all rows when k exceeds the length), none for k = 0, all but the first -k for k < 0 |
| Common.Back | signals.py:107-120 | `shift(k).iloc[-1]` is the value k positions before the last one, NaN when the series has no more than k values |
| Common.SeqMin | signals.py:128 | `min()` of a non-empty series is one of its values and no larger than any of them |
| Common.SeqMax | signals.py:132 | `max()` of a non-empty series is one of its values and no smaller than any of them |
| SeriesOps.FillForward | signals.py:82-84 | `ffill` keeps the length of the series |
| SeriesOps.FillForwardSpec | signals.py:82-84 | after `ffill` a position is NaN exactly when no value at or before it is present; otherwise it holds the latest present value at or before it |
| SeriesOps.Lookup | signals.py:82 | reading an oscillator at a timestamp gives NaN when no sample carries that timestamp, and otherwise the value of the first sample stamped with it |
| SeriesOps.Observed | signals.py:82-84 | `reindex(index)` has one entry per bar timestamp, each the oscillator read at that timestamp |
| SeriesOps.Align | signals.py:82-84 | `reindex(index).ffill()` has one entry per bar |
| SeriesOps.AlignSpec | signals.py:82-84 | an aligned value is NaN exactly when no bar up to it has an observed value; otherwise it is the value observed at the latest such bar, so a bar whose timestamp carries a value gets that value |
| SeriesOps.SortAscending | signals.py:122 | the values sorted for the median come out ascending and are a permutation of the input |
| SeriesOps.Median | signals.py:122 | the median lies between the two middle sorted values and within the range of the data |
| SeriesOps.TrailingMedian | signals.py:122 | `rolling(30, min_periods=10).median().iloc[-1]` is defined exactly when the trailing window holds at least `min_periods` values, and then lies within that window's range |
| Indicators.RunningSums | indicators.py:10 | `cumsum` at position k is the sum of positions 0..k |
| Indicators.Vwap | indicators.py:7-10 | the VWAP series has one value per bar |
| Indicators.VwapSpec | indicators.py:7-10 | the VWAP at bar k is NaN exactly when the volume up to k sums to zero (the `replace(0, nan)`); otherwise it is the cumulative price-volume over the cumulative volume |
| Indicators.VwapWithinRange | indicators.py:7-10 | over bars whose close is within their range and whose volume is not negative, every defined VWAP value lies between the lowest low and the highest high seen so far |
| Indicators.WeightedPriceWithinRange | indicators.py:8-10 | the volume-weighted typical price of such bars lies between their lowest low and highest high |
| Indicators.MaxSkippingMissing | indicators.py:18 | the row-wise `max` skipping NaN is at least every present value and is one of them |
| Indicators.TrueRangeValue | indicators.py:17-18 | the true range is the bar's own range on the first bar (the shifted close is NaN there), and otherwise the largest of abs(high - low), abs(high - prevClose) and abs(low - prevClose); it is never negative |
| Indicators.RollingMean | indicators.py:19 | `rolling(period, min_periods=period).mean()` is undefined for the first period-1 positions, then the mean of the last `period` values |
| Indicators.Atr | indicators.py:13-19 | ATR is NaN exactly at the first period-1 bars, then the mean true range of the last `period` bars |
| Indicators.EmaSpec | indicators.py:22-23 | `ewm(span, adjust=False).mean()` starts with the first input; every later output is alpha·x + (1-alpha)·previous, with alpha = 2/(span+1) |
| Indicators.Ema | indicators.py:22-23 | the EMA has one value per input |
| Indicators.EmaWithinRange | indicators.py:22-23 | an EMA never leaves the range of its inputs |
| Indicators.SwingLowFlags | indicators.py:26-33 | the swing-low mask has one flag per value, and no position within `left` of the start or `right` of the end is flagged |
| Indicators.SwingHighFlags | indicators.py:36-43 | the swing-high mask has one flag per value, and only positions away from the edges are flagged |
| Indicators.SwingLows | indicators.py:26-33 | the loop over an all-false mask computes exactly the swing-low mask |
| Indicators.SwingHighs | indicators.py:36-43 | the loop over an all-false mask computes exactly the swing-high mask |
| Indicators.SwingLowIsWindowMinimum | indicators.py:29-32 | a position is flagged exactly when it has full context and is no larger than any value of its window [i-left, i+right] |
| Indicators.SwingHighIsWindowMaximum | indicators.py:39-42 | a position is flagged exactly when it has full context and is no smaller than any value of its window |
| Indicators.LatestBullGap | indicators.py:59-61 | the bullish gap is absent exactly when no triplet has low[i] > high[i-2]; otherwise it is the zone (high[i-2], low[i]) of the latest such triplet, with low < high |
| Indicators.LatestBearGap | indicators.py:62-63 | the bearish gap is absent exactly when no triplet has high[i] < low[i-2]; otherwise it is the zone (high[i], low[i-2]) of the latest such triplet, with low < high |
| Indicators.DetectFvg | indicators.py:46-64 | the forward overwrite loop returns the latest bullish and the latest bearish gap, and returns nothing for fewer than three bars |
| Indicators.ScanBlocks | indicators.py:90-111 | a block found by the backward scan is an ordered zone (low <= high) |
| Indicators.ScanBlocksFindsLatest | indicators.py:90-111 | the scan finds nothing exactly when no candle qualifies; otherwise it returns the block of a qualifying candle with no qualifying candle after it (latest match wins) |
| Indicators.OrderBlockOf | indicators.py:78-79 | fewer than 10 bars give no order block |
| Indicators.ScanBackward | indicators.py:90-112 | the nested backward/forward walk with its early return finds exactly what the backward scan specifies |
| Indicators.FindOrderBlock | indicators.py:67-112 | `find_order_block`, step by step, returns exactly the order block the model specifies for the last `lookback` bars with the ATR forward-filled |
| Indicators.ScanRetest | indicators.py:90-118 | the latest qualifying candle is unique, so a price is in the buffered zone of the block the backward scan finds exactly when it is in the buffered zone of the latest qualifying candle |
| Indicators.OrderBlockRetest | indicators.py:78-118 | a price retests the order block (`in_zone` with a buffer) exactly when there are at least 10 bars and the price lies in the buffered zone of the latest qualifying candle among the last `lookback` bars |
| Indicators.InZoneBand | indicators.py:115-118 | `in_zone` (`InZone`) holds exactly for prices in [zoneLow - buffer, zoneHigh + buffer]; with a buffer that is not negative every price of the band is in the zone, and widening the buffer never drops a price |
| Signals.PresetFor | signals.py:37-74 | a known mode gets its preset and any other name falls back to "Cleaner signals"; every preset's threshold lies in [0, 100] and its volume multiplier exceeds one |
| Signals.Masked | signals.py:127 | `series.loc[mask]` keeps at most the values of the series |
| Signals.MaskedLast | signals.py:127 | the masked values are empty exactly when no flag is set; otherwise the last of them is the value at the last flagged position |
| Signals.LastFlagged | signals.py:126-127 | the position of the last set flag: that flag is set and none after it is, or -1 when no flag is set |
| Signals.LatestFlagged | signals.py:127-128 | the last of the (at most six latest) flagged values is the value at `LastFlagged`, and the fallback when no bar is flagged |
| Signals.AnchorsFromMasks | signals.py:125-148 | the anchors (`AnchorsFrom`, and `AnchorsOf` with the 3/3 swing masks): the recent and the prior swing low are the low of the latest flagged swing bar, or else the lowest low of the last 12 and of the last 30 bars; the highs mirror this |
| Signals.ComputeAnchors | signals.py:125-148 | the swing stage computes exactly the anchors of the window (`AnchorsOf`) |
| Signals.VwapCrossEvents | signals.py:108-111 | `LastBarEvents`: a VWAP reclaim holds exactly when there are two bars, the last close is above the cumulative VWAP through the last bar and the previous close is at or below the VWAP through its own bar, both VWAPs defined; a rejection mirrors it; the two never hold together |
| Signals.VwapContextEvents | signals.py:107-110 | `LastBarEvents`: "was below VWAP" holds exactly when the close 3 or 5 bars before the last was below the VWAP through its own bar; "was above" mirrors it |
| Signals.RsiEvents | signals.py:113-117 | `LastBarEvents`: the RSI snap holds exactly when the fast RSI rises from below 30 to at least 30, or from below 25 to at least 25, over its last two values; the downshift falls through 70 or 75; a missing value makes both false and they never hold together |
| Signals.MacdEvents | signals.py:119-120 | `LastBarEvents`: the MACD turns up (down) exactly when its last three values are present and strictly rising (falling); the two never hold together |
| Signals.VolumeEvent | signals.py:122-123 | `LastBarEvents`: volume confirms exactly when there are at least 10 bars and the last volume reaches the multiplier times the trailing median, which is then the median of the last 30 volumes |
| Signals.AboveSuffixMin | signals.py:186 | the last low exceeds the minimum of a trailing window exactly when some value in that window is below it, which is what the higher-low test asks |
| Signals.BelowSuffixMax | signals.py:199 | the last high is under the maximum of a trailing window exactly when some value in that window is above it, which is what the lower-high test asks |
| Signals.StructureEvents | signals.py:186-199 | `LastBarEvents`: a higher low holds exactly when one of the last 12 bars has a lower low than the last bar; a lower high mirrors it with the highs |
| Signals.AtrLastValue | signals.py:134 | the last ATR is the mean true range of the last 14 bars, and 0 when the window is shorter (the ATR is NaN there) |
| Signals.ProTrend | signals.py:140-145 | `ProOf`: EMA(20) and EMA(50) lie within the range of the closes; the long trend holds exactly when close >= EMA(20) >= EMA(50), the short trend in the mirror order |
| Signals.ProSweeps | signals.py:147-154 | `ProOf`: a bullish sweep holds exactly when the last low is below the prior swing low and the last close above it, the prior swing low being the low at the last flagged swing bar or else the lowest of the last 30 lows; the bearish sweep mirrors it |
| Signals.ProRetest | signals.py:160-168 | `ProOf` (through `RetestsBlock`): a bullish (bearish) order-block retest holds exactly when there are at least 10 bars and the last close lies in the zone of the latest qualifying down (up) candle of the last 35 bars, widened by a quarter of the last ATR |
| Signals.ProDisplacement | signals.py:170-171 | `ProOf`: displacement holds exactly when the last ATR is not zero and the last bar's range is at least 1.5 times it |
| Signals.ComputePro | signals.py:134-171 | the pro stage computes exactly the pro diagnostics `ProOf`, whose meaning `ProTrend`, `ProSweeps`, `ProRetest` and `ProDisplacement` state |
| Signals.RecordPro | signals.py:137-173 | the diagnostics map is filled with exactly the sixteen diagnostics |
| Signals.LongPoints | signals.py:175-221 | the long total is never negative and is at most 100 without pro mode and 150 with it |
| Signals.ShortPoints | signals.py:189-221 | the short total is never negative and is at most 100 without pro mode and 150 with it |
| Signals.Award | signals.py:178-187 | one scoring rule adds its points and appends its reason exactly when it holds |
| Signals.ScoreLongBase | signals.py:176-187 | the base long accumulator computes exactly the base long table (VWAP 35, RSI 20, MACD 20, volume 15, higher low 10) and its reasons in order |
| Signals.ScoreShortBase | signals.py:189-200 | the base short accumulator computes exactly the base short table and its reasons in order |
| Signals.ScoreLong | signals.py:202-219 | the long accumulator computes exactly the long total and reasons, including the pro additions and the floored trend penalty |
| Signals.ScoreShort | signals.py:202-221 | the short accumulator computes exactly the short total and reasons |
| Signals.UnmetRequirement | signals.py:223-238 | no requirement is reported exactly when every enabled requirement holds (VWAP event, RSI event, MACD turn, volume, and the pro trigger in pro mode); otherwise the reported one fails and every one checked before it holds |
| Signals.CheckRequirements | signals.py:223-238 | the gates run in order and report exactly the first requirement that fails |
| Signals.LongLevels | signals.py:242-246 | LONG: stop = min(swing low, entry - 0.8·max(ATR, 0)); the risk is at least 0.01 and at least entry - stop; target1 is one risk and target2 two risks above the entry; stop <= entry < target1 < target2 |
| Signals.ShortLevels | signals.py:248-252 | SHORT: the mirror of the LONG levels above the entry |
| Signals.PickRules | signals.py:240-255 | the winner decision `Pick`: at most one side wins: LONG exactly when the long total reaches the threshold and strictly beats the short total, SHORT in the mirror case, so a tie is NEUTRAL; a directional score is min(100, total) with the first six reasons; a NEUTRAL score is the larger total; the levels keep their invariant |
| Signals.PickWinner | signals.py:240-255 | the winner decision with its stop and targets computes exactly the specified pick |
| Signals.DecideRules | signals.py:223-255 | the decision `Decide`: a side wins exactly when every requirement holds and its total reaches the threshold and beats the other side's; a failed requirement gives NEUTRAL with that reason and the larger total; levels consistent; score in [0, 100] ([0, 150] in pro mode); a directional score reaches the threshold |
| Signals.NeutralScoreUncapped | signals.py:226 | a NEUTRAL score is not capped: in pro mode a failed requirement can report 130 |
| Signals.Conclude | signals.py:223-255 | the requirement gates with early NEUTRAL returns, then the winner decision, compute exactly the specified decision |
| Signals.ComputeFeatures | signals.py:106-173 | the diagnostic stages after the session gate compute exactly the features of the window (`Extract`) and the diagnostics map |
| Signals.Evaluate | signals.py:106-255 | everything after the session gate computes exactly the assessment of the window |
| Signals.ComputeScalpSignal | signals.py:57-255 | `compute_scalp_signal`, step by step, returns exactly the result `ScalpSignal` specifies |
| Signals.TooLittleData | signals.py:71-72 | fewer than 60 bars: NEUTRAL, score 0, "not enough data", no levels, no price or timestamp, session OFF, no diagnostics |
| Signals.SessionGate | signals.py:93-104 | a disallowed session of the last bar: NEUTRAL, score 0, filtered by time of day naming that session, no levels, no diagnostics, and the last close and timestamp |
| Signals.PastGates | signals.py:74-104 | `ScalpSignal`: with enough bars and an allowed session, the result is the assessment of the lookback window under the mode's preset |
| Signals.AssessRules | signals.py:106-255 | `Assess`, past the session gate: the result keeps the level invariant and the score bounds, names its session and is never a gate result |
| Signals.LevelsConsistent | signals.py:240-255 | every result has consistent levels: none on NEUTRAL; all four on LONG/SHORT, ordered around the entry, with target2 - entry = 2·(target1 - entry) |
| Signals.ScoreBounds | signals.py:175-255 | every score lies in [0, 100], or [0, 150] in pro mode |
| Signals.FilteredExactly | signals.py:93-104 | a result is filtered by time of day exactly when there are at least 60 bars and the last bar's session is not allowed |
| Signals.ActionableGates | signals.py:71-104 | a LONG or SHORT result needs at least 60 bars and an allowed session |
| Signals.ActionableScore | signals.py:240-252 | a LONG or SHORT result has a score of at most 100 that reaches the preset's threshold |

## Left out

- Floating point: prices, volumes and indicator values are exact reals. IEEE-754 rounding and infinities are not modelled. NaN is modelled as a missing value, and every comparison with it is false.
- The session classifier is a parameter. `sessions.py` is not part of this model.
- The oscillator series (RSI, MACD histogram), the data fetching and the UI come from `app.py`, which is not part of this model. The oscillators are inputs.
- Reason texts are not modelled as strings. The `Reason` and `Rule` datatypes keep which exit and which rules, in order, but not the string formatting (`", ".join`, the f-strings).
- The diagnostics dictionary is modelled as a map from a `Key` enumeration to typed values. Its insertion order is not modelled.
- Timestamps are integers. An oscillator with two samples on one timestamp makes `reindex` raise at signals.py:82-84. The model reads the first matching sample instead (`SeriesOps.Lookup`).
- Duplicate bar timestamps: `find_order_block` reindexes the ATR onto the window's own index (indicators.py:81), which raises when that index repeats a timestamp and the window has more than 35 bars. The model takes the tail of the ATR series position by position, as if the bar timestamps were distinct.
- `find_order_block` reindexes the ATR onto the tail of the same frame. This is modelled as the tail of the ATR series, forward-filled.
- `find_order_block`'s side string: "bull" is `Bull`, and every other string behaves as `Bear`.
- A `lookback_bars` that leaves an empty window makes the source raise at `df.index[-1]`. The model requires a non-empty window (`WindowOk`).
- The result record's comment (signals.py:25) gives `setup_score` the range 0..100. The code caps only directional scores, so a NEUTRAL score can reach 150 in pro mode. The model follows the code: see `Signals.ScoreBounds` and `Signals.NeutralScoreUncapped`.
- Masked: its own contract states only that the result is no longer than the input. Which values it keeps is stated by `Signals.MaskedLast`.
- Vwap: its own contract states only the length. The values are stated by `Indicators.VwapSpec`.
- Ema: its own contract states only the length. The recurrence is stated by `Indicators.EmaSpec`.
- FillForward: its own contract states only the length. The values are stated by `SeriesOps.FillForwardSpec`.
- Align: its own contract states only the length. The values are stated by `SeriesOps.AlignSpec`.
- ScanBlocks: its own contract states only that a found zone is ordered. Which candle is found is stated by `Indicators.ScanBlocksFindsLatest`.
- OrderBlockOf: its own contract states only the fewer-than-10-bars case. The scan it performs is stated by `Indicators.FindOrderBlock` and `Indicators.ScanBlocksFindsLatest`.
