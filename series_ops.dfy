/** The pandas series operations the engine relies on: reindexing an
    independently timestamped oscillator onto the bar timestamps and carrying
    values forward (`reindex(...).ffill()`), and the trailing rolling median
    of the volume column. */
module SeriesOps {
  import opened Common

  /** One observation of an oscillator series: its timestamp and its value
      (NaN, here None, while the oscillator warms up). */
  datatype Sample = Sample(ts: int, value: Option<real>)

  // --------------------------------------------------------------- ffill

  /** The forward pass of `ffill`, carrying the last present value `carry`. */
  function FillForwardFrom(carry: Option<real>, xs: seq<Option<real>>): (r: seq<Option<real>>)
    decreases xs
    ensures |r| == |xs|
  {
    if xs == [] then []
    else
      var c := if xs[0].Some? then xs[0] else carry;
      [c] + FillForwardFrom(c, xs[1..])
  }

  /** After the forward pass a position is missing only when it and everything
      before it, carry included, are missing; otherwise it holds the latest
      present value (or the carry when nothing before it was present). */
  lemma {:induction false} FillForwardFromSpec(carry: Option<real>, xs: seq<Option<real>>)
    decreases xs
    ensures forall k :: 0 <= k < |xs| ==>
      (FillForwardFrom(carry, xs)[k].None? <==> carry.None? && forall j :: 0 <= j <= k ==> xs[j].None?)
    ensures forall k :: 0 <= k < |xs| && FillForwardFrom(carry, xs)[k].Some? ==>
      (FillForwardFrom(carry, xs)[k] == carry && forall j :: 0 <= j <= k ==> xs[j].None?) ||
      (exists j :: 0 <= j <= k && xs[j] == FillForwardFrom(carry, xs)[k] && forall m :: j < m <= k ==> xs[m].None?)
  {
    if xs != [] {
      var c := if xs[0].Some? then xs[0] else carry;
      FillForwardFromSpec(c, xs[1..]);
      assert forall j :: 1 <= j < |xs| ==> xs[j] == xs[1..][j - 1];
      var r := FillForwardFrom(carry, xs);
      assert forall k :: 1 <= k < |xs| ==> r[k] == FillForwardFrom(c, xs[1..])[k - 1];
    }
  }

  /** pandas `ffill`: every missing value takes the latest present value at
      or before its position. */
  function FillForward(xs: seq<Option<real>>): (r: seq<Option<real>>)
    ensures |r| == |xs|
  {
    FillForwardFrom(None, xs)
  }

  /** After `ffill`, a position is missing exactly when no value at or before
      it is present; otherwise it holds the latest present value at or before
      it. */
  lemma FillForwardSpec(xs: seq<Option<real>>)
    ensures forall k :: 0 <= k < |xs| ==> (FillForward(xs)[k].None? <==> forall j :: 0 <= j <= k ==> xs[j].None?)
    ensures forall k :: 0 <= k < |xs| && FillForward(xs)[k].Some? ==>
      exists j :: 0 <= j <= k && xs[j] == FillForward(xs)[k] && forall m :: j < m <= k ==> xs[m].None?
    ensures forall k :: 0 <= k < |xs| && xs[k].Some? ==> FillForward(xs)[k] == xs[k]
  {
    FillForwardFromSpec(None, xs);
    forall k | 0 <= k < |xs| && xs[k].Some? ensures FillForward(xs)[k] == xs[k] {
      var j :| 0 <= j <= k && xs[j] == FillForward(xs)[k] && forall m :: j < m <= k ==> xs[m].None?;
    }
  }

  // ------------------------------------------------------------- reindex

  /** Position i holds the first sample stamped t. */
  predicate FirstStamped(osc: seq<Sample>, t: int, i: int) {
    0 <= i < |osc| && osc[i].ts == t && forall j :: 0 <= j < i ==> osc[j].ts != t
  }

  /** The value an oscillator holds at timestamp t: that of the first sample
      stamped t, NaN when no sample carries that timestamp. */
  function Lookup(osc: seq<Sample>, t: int): (r: Option<real>)
    ensures (forall i :: 0 <= i < |osc| ==> osc[i].ts != t) ==> r == None
    ensures forall i :: FirstStamped(osc, t, i) ==> r == osc[i].value
    ensures r.Some? ==> exists i :: 0 <= i < |osc| && osc[i].ts == t && osc[i].value == r
  {
    if osc == [] then None
    else if osc[0].ts == t then osc[0].value
    else
      var rest := osc[1..];
      var r := Lookup(rest, t);
      assert forall i :: 1 <= i < |osc| ==> osc[i] == rest[i - 1];
      assert forall i :: FirstStamped(osc, t, i) ==> FirstStamped(rest, t, i - 1) by {
        forall i | FirstStamped(osc, t, i) ensures FirstStamped(rest, t, i - 1) {
          assert i >= 1;
        }
      }
      r
  }

  /** `osc.reindex(index)`: the oscillator read at each bar timestamp, NaN
      where no sample carries that timestamp. */
  function Observed(osc: seq<Sample>, index: seq<int>): (r: seq<Option<real>>)
    ensures |r| == |index|
    ensures forall k :: 0 <= k < |index| ==> r[k] == Lookup(osc, index[k])
  {
    seq(|index|, k requires 0 <= k < |index| => Lookup(osc, index[k]))
  }

  /** `osc.reindex(index).ffill()`: the oscillator read at each bar
      timestamp, carried forward over the bars where it has no value. */
  function Align(osc: seq<Sample>, index: seq<int>): (r: seq<Option<real>>)
    ensures |r| == |index|
  {
    FillForward(Observed(osc, index))
  }

  /** After alignment, position k is missing exactly when no bar at or before
      k has an observed value; otherwise it is the value observed at the
      latest such bar. A bar whose timestamp carries an oscillator value gets
      that value. */
  lemma AlignSpec(osc: seq<Sample>, index: seq<int>)
    ensures forall k :: 0 <= k < |index| && Observed(osc, index)[k].Some? ==>
      Align(osc, index)[k] == Observed(osc, index)[k]
    ensures forall k :: 0 <= k < |index| ==>
      (Align(osc, index)[k].None? <==> forall j :: 0 <= j <= k ==> Observed(osc, index)[j].None?)
    ensures forall k :: 0 <= k < |index| && Align(osc, index)[k].Some? ==>
      exists j :: 0 <= j <= k && Observed(osc, index)[j] == Align(osc, index)[k]
                  && forall m :: j < m <= k ==> Observed(osc, index)[m].None?
  {
    var observed := Observed(osc, index);
    FillForwardSpec(observed);
    assert Align(osc, index) == FillForward(observed);
  }

  // ------------------------------------------------------ rolling median

  predicate SortedAsc(s: seq<real>) {
    forall i, j :: 0 <= i < j < |s| ==> s[i] <= s[j]
  }

  /** Insert x before the first value it does not exceed. The result holds
      the values of s and x, and starts with the smaller of x and the old
      first value. */
  function Insert(x: real, s: seq<real>): (r: seq<real>)
    ensures |r| == |s| + 1
    ensures r[0] == (if s == [] then x else MinReal(x, s[0]))
  {
    if s == [] then [x]
    else if x <= s[0] then [x] + s
    else [s[0]] + Insert(x, s[1..])
  }

  /** Inserting adds x to the values and changes nothing else. */
  lemma {:induction false} InsertPermutes(x: real, s: seq<real>)
    ensures multiset(Insert(x, s)) == multiset(s) + multiset{x}
  {
    if s != [] {
      assert s == [s[0]] + s[1..];
      if x > s[0] {
        InsertPermutes(x, s[1..]);
      }
    }
  }

  /** Inserting into an ascending sequence keeps it ascending. */
  lemma {:induction false} InsertSorted(x: real, s: seq<real>)
    requires SortedAsc(s)
    ensures SortedAsc(Insert(x, s))
  {
    var r := Insert(x, s);
    if s != [] && x > s[0] {
      var rest := Insert(x, s[1..]);
      InsertSorted(x, s[1..]);
      assert r == [s[0]] + rest;
      forall i, j | 0 <= i < j < |r|
        ensures r[i] <= r[j]
      {
        assert r[j] == rest[j - 1] && rest[0] <= rest[j - 1];
        if i > 0 {
          assert r[i] == rest[i - 1];
        }
      }
    } else if s != [] {
      assert r == [x] + s;
      forall i, j | 0 <= i < j < |r|
        ensures r[i] <= r[j]
      {
        assert r[j] == s[j - 1] && s[0] <= s[j - 1];
        if i > 0 {
          assert r[i] == s[i - 1];
        }
      }
    }
  }

  /** The values of xs in ascending order. */
  function SortAscending(xs: seq<real>): (r: seq<real>)
    ensures |r| == |xs|
    ensures SortedAsc(r)
    ensures multiset(r) == multiset(xs)
  {
    if xs == [] then []
    else
      assert xs == [xs[0]] + xs[1..];
      var sorted := SortAscending(xs[1..]);
      InsertSorted(xs[0], sorted);
      InsertPermutes(xs[0], sorted);
      Insert(xs[0], sorted)
  }

  /** Every element of a permutation of xs lies within the range of xs. */
  lemma PermutationWithinRange(xs: seq<real>, s: seq<real>, i: nat)
    requires |xs| > 0 && i < |s| && multiset(s) == multiset(xs)
    ensures SeqMin(xs) <= s[i] <= SeqMax(xs)
  {
    assert s[i] in multiset(s);
    assert s[i] in xs;
  }

  /** pandas `median`: the middle value of the sorted values, or the mean of
      the two middle values when their number is even. It lies between the
      two middle values and within the range of the data. */
  function Median(xs: seq<real>): (r: real)
    requires |xs| > 0
    ensures SortAscending(xs)[(|xs| - 1) / 2] <= r <= SortAscending(xs)[|xs| / 2]
    ensures SeqMin(xs) <= r <= SeqMax(xs)
  {
    var s := SortAscending(xs);
    var n := |s|;
    assert 0 <= (n - 1) / 2 <= n / 2 < n;
    assert n % 2 == 1 ==> (n - 1) / 2 == n / 2;
    var lower, upper := s[(n - 1) / 2], s[n / 2];
    assert lower <= upper;
    PermutationWithinRange(xs, s, (n - 1) / 2);
    PermutationWithinRange(xs, s, n / 2);
    if n % 2 == 1 then lower else (lower + upper) / 2.0
  }

  /** `rolling(window, min_periods).median().iloc[-1]` over a series without
      NaN: the median of the last `window` values, defined only when that
      trailing window holds at least `minPeriods` (and at least one) values. */
  function TrailingMedian(xs: seq<real>, window: nat, minPeriods: nat): (r: Option<real>)
    requires window >= 1
    ensures r.Some? <==> |xs| > 0 && MinInt(window, |xs|) >= minPeriods
    ensures r.Some? ==> SeqMin(Tail(xs, window)) <= r.value <= SeqMax(Tail(xs, window))
  {
    var w := Tail(xs, window);
    if |w| > 0 && |w| >= minPeriods then Some(Median(w)) else None
  }
}
