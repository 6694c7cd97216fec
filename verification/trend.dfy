/**
 * The Supertrend trend state machine.
 *
 * One forward pass over the candles. `inTrend` starts as `[true]`; for each
 * later candle the close is compared with the PREVIOUS candle's working bands.
 * A close above the upper band starts (or keeps) an uptrend, one below the
 * lower band a downtrend, and otherwise the trend persists and the band that
 * acts as the trailing stop is ratcheted: in an uptrend the lower band may not
 * drop below its predecessor, in a downtrend the upper band may not rise above
 * its predecessor. The band arrays hold the raw bands on entry and are
 * overwritten in place, so the comparison at candle `i` sees the value that
 * step `i - 1` may have written.
 */
module Trend {

  /** What the pass has settled for one candle: trend, working upper band, working lower band. */
  datatype State = State(inTrend: bool, upper: real, lower: real)

  predicate Aligned(close: seq<real>, rawUpper: seq<real>, rawLower: seq<real>) {
    |rawUpper| == |close| && |rawLower| == |close|
  }

  /** The close neither broke above the previous upper band nor below the previous lower one. */
  predicate Persists(prev: State, close: real) {
    prev.lower <= close <= prev.upper
  }

  function Max(a: real, b: real): real { if a < b then b else a }

  function Min(a: real, b: real): real { if a < b then a else b }

  /** One step of the recurrence, from the previous candle's state and this candle's close and raw bands. */
  function Step(prev: State, close: real, rawUpper: real, rawLower: real): State {
    if close > prev.upper then State(true, rawUpper, rawLower)
    else if close < prev.lower then State(false, rawUpper, rawLower)
    else if prev.inTrend then
      State(true, rawUpper, if rawLower < prev.lower then prev.lower else rawLower)
    else
      State(false, if rawUpper > prev.upper then prev.upper else rawUpper, rawLower)
  }

  /** The state of candle `i` once the pass is over; candle 0 is seeded as an uptrend with its raw bands. */
  function StateAt(close: seq<real>, rawUpper: seq<real>, rawLower: seq<real>, i: nat): State
    requires Aligned(close, rawUpper, rawLower) && i < |close|
    decreases i
  {
    if i == 0 then State(true, rawUpper[0], rawLower[0])
    else Step(StateAt(close, rawUpper, rawLower, i - 1), close[i], rawUpper[i], rawLower[i])
  }

  /**
   * The pass over the band arrays. On entry they hold the raw bands; on exit
   * every candle's trend and working bands are those of the recurrence.
   * Step `i` writes only index `i`.
   */
  method PropagateTrend(close: seq<real>, upperBand: array<real>, lowerBand: array<real>)
    returns (inTrend: seq<bool>)
    requires upperBand != lowerBand
    requires |close| >= 1 && upperBand.Length == |close| && lowerBand.Length == |close|
    modifies upperBand, lowerBand
    ensures |inTrend| == |close|
    ensures forall i :: 0 <= i < |close| ==>
      StateAt(close, old(upperBand[..]), old(lowerBand[..]), i) == State(inTrend[i], upperBand[i], lowerBand[i])
  {
    ghost var rawUpper, rawLower := upperBand[..], lowerBand[..];
    inTrend := [true];
    var i := 1;
    while i < |close|
      invariant 1 <= i <= |close| && |inTrend| == i
      invariant forall j :: 0 <= j < i ==>
        StateAt(close, rawUpper, rawLower, j) == State(inTrend[j], upperBand[j], lowerBand[j])
      invariant forall j :: i <= j < |close| ==> upperBand[j] == rawUpper[j] && lowerBand[j] == rawLower[j]
    {
      if close[i] > upperBand[i - 1] {
        inTrend := inTrend + [true];
      } else if close[i] < lowerBand[i - 1] {
        inTrend := inTrend + [false];
      } else {
        inTrend := inTrend + [inTrend[i - 1]];
        if inTrend[i] && lowerBand[i] < lowerBand[i - 1] {
          lowerBand[i] := lowerBand[i - 1];
        }
        if !inTrend[i] && upperBand[i] > upperBand[i - 1] {
          upperBand[i] := upperBand[i - 1];
        }
      }
      i := i + 1;
    }
  }

  /**
   * The transition has fixed priority: a break above the previous upper band
   * wins, then a break below the previous lower band, else the trend persists.
   */
  lemma TrendTransition(close: seq<real>, rawUpper: seq<real>, rawLower: seq<real>, i: nat)
    requires Aligned(close, rawUpper, rawLower) && 1 <= i < |close|
    ensures var prev := StateAt(close, rawUpper, rawLower, i - 1);
      StateAt(close, rawUpper, rawLower, i).inTrend
        == (close[i] > prev.upper || (close[i] >= prev.lower && prev.inTrend))
  {
  }

  /** On a break in either direction both bands of candle `i` keep their raw values. */
  lemma CrossingKeepsRawBands(close: seq<real>, rawUpper: seq<real>, rawLower: seq<real>, i: nat)
    requires Aligned(close, rawUpper, rawLower) && 1 <= i < |close|
    requires !Persists(StateAt(close, rawUpper, rawLower, i - 1), close[i])
    ensures StateAt(close, rawUpper, rawLower, i).upper == rawUpper[i]
    ensures StateAt(close, rawUpper, rawLower, i).lower == rawLower[i]
  {
  }

  /** Uptrend ratchet: when an uptrend persists, the lower band is the larger of its raw value and its predecessor. */
  lemma UptrendRatchet(close: seq<real>, rawUpper: seq<real>, rawLower: seq<real>, i: nat)
    requires Aligned(close, rawUpper, rawLower) && 1 <= i < |close|
    requires Persists(StateAt(close, rawUpper, rawLower, i - 1), close[i])
    requires StateAt(close, rawUpper, rawLower, i - 1).inTrend
    ensures var prev, cur := StateAt(close, rawUpper, rawLower, i - 1), StateAt(close, rawUpper, rawLower, i);
      && cur.inTrend
      && cur.upper == rawUpper[i]
      && cur.lower == Max(rawLower[i], prev.lower)
      && cur.lower >= prev.lower
  {
  }

  /** Downtrend ratchet: when a downtrend persists, the upper band is the smaller of its raw value and its predecessor. */
  lemma DowntrendRatchet(close: seq<real>, rawUpper: seq<real>, rawLower: seq<real>, i: nat)
    requires Aligned(close, rawUpper, rawLower) && 1 <= i < |close|
    requires Persists(StateAt(close, rawUpper, rawLower, i - 1), close[i])
    requires !StateAt(close, rawUpper, rawLower, i - 1).inTrend
    ensures var prev, cur := StateAt(close, rawUpper, rawLower, i - 1), StateAt(close, rawUpper, rawLower, i);
      && !cur.inTrend
      && cur.lower == rawLower[i]
      && cur.upper == Min(rawUpper[i], prev.upper)
      && cur.upper <= prev.upper
  {
  }

  /**
   * Working bands only ever tighten relative to the raw bands: the lower band is
   * raised to its predecessor or left alone, the upper band lowered or left alone.
   */
  lemma WorkingBandsWithinRaw(close: seq<real>, rawUpper: seq<real>, rawLower: seq<real>, i: nat)
    requires Aligned(close, rawUpper, rawLower) && i < |close|
    ensures var cur := StateAt(close, rawUpper, rawLower, i);
      && rawLower[i] <= cur.lower && cur.upper <= rawUpper[i]
      && (cur.lower == rawLower[i] || (i > 0 && cur.lower == StateAt(close, rawUpper, rawLower, i - 1).lower))
      && (cur.upper == rawUpper[i] || (i > 0 && cur.upper == StateAt(close, rawUpper, rawLower, i - 1).upper))
  {
  }

  /**
   * Over a stretch in which the close never breaks out of the previous bands,
   * an uptrend stays an uptrend and its lower band never moves down.
   */
  lemma {:induction false} UptrendStretch(close: seq<real>, rawUpper: seq<real>, rawLower: seq<real>, a: nat, b: nat)
    requires Aligned(close, rawUpper, rawLower) && a <= b < |close|
    requires StateAt(close, rawUpper, rawLower, a).inTrend
    requires forall j :: a < j <= b ==> Persists(StateAt(close, rawUpper, rawLower, j - 1), close[j])
    ensures forall j :: a <= j <= b ==> StateAt(close, rawUpper, rawLower, j).inTrend
    ensures forall j, k :: a <= j <= k <= b ==>
      StateAt(close, rawUpper, rawLower, j).lower <= StateAt(close, rawUpper, rawLower, k).lower
  {
    if a < b {
      UptrendStretch(close, rawUpper, rawLower, a, b - 1);
      UptrendRatchet(close, rawUpper, rawLower, b);
      var last := StateAt(close, rawUpper, rawLower, b).lower;
      forall j | a <= j <= b
        ensures StateAt(close, rawUpper, rawLower, j).lower <= last
      {
        if j < b {
          assert StateAt(close, rawUpper, rawLower, j).lower <= StateAt(close, rawUpper, rawLower, b - 1).lower;
        }
      }
    }
  }

  /**
   * Over a stretch in which the close never breaks out of the previous bands,
   * a downtrend stays a downtrend and its upper band never moves up.
   */
  lemma {:induction false} DowntrendStretch(close: seq<real>, rawUpper: seq<real>, rawLower: seq<real>, a: nat, b: nat)
    requires Aligned(close, rawUpper, rawLower) && a <= b < |close|
    requires !StateAt(close, rawUpper, rawLower, a).inTrend
    requires forall j :: a < j <= b ==> Persists(StateAt(close, rawUpper, rawLower, j - 1), close[j])
    ensures forall j :: a <= j <= b ==> !StateAt(close, rawUpper, rawLower, j).inTrend
    ensures forall j, k :: a <= j <= k <= b ==>
      StateAt(close, rawUpper, rawLower, k).upper <= StateAt(close, rawUpper, rawLower, j).upper
  {
    if a < b {
      DowntrendStretch(close, rawUpper, rawLower, a, b - 1);
      DowntrendRatchet(close, rawUpper, rawLower, b);
      var last := StateAt(close, rawUpper, rawLower, b).upper;
      forall j | a <= j <= b
        ensures last <= StateAt(close, rawUpper, rawLower, j).upper
      {
        if j < b {
          assert StateAt(close, rawUpper, rawLower, b - 1).upper <= StateAt(close, rawUpper, rawLower, j).upper;
        }
      }
    }
  }

  /**
   * A flat series (every close and both raw bands equal to one price) never
   * leaves the seeded uptrend, and its working bands stay on that price.
   */
  lemma {:induction false} FlatSeriesStaysUp(close: seq<real>, rawUpper: seq<real>, rawLower: seq<real>, price: real, i: nat)
    requires Aligned(close, rawUpper, rawLower) && i < |close|
    requires forall j :: 0 <= j < |close| ==> close[j] == price && rawUpper[j] == price && rawLower[j] == price
    ensures StateAt(close, rawUpper, rawLower, i) == State(true, price, price)
  {
    if i > 0 {
      FlatSeriesStaysUp(close, rawUpper, rawLower, price, i - 1);
    }
  }

  /**
   * The lower band CAN drop while the trend stays up: when the close breaks
   * above the previous upper band, the new candle adopts its raw bands
   * unratcheted, however low its raw lower band is.
   */
  lemma UptrendLowerCanDropOnCrossing()
    ensures var close, rawUpper, rawLower := [9.0, 11.0], [10.0, 20.0], [8.0, 2.0];
      && StateAt(close, rawUpper, rawLower, 0).inTrend
      && StateAt(close, rawUpper, rawLower, 1).inTrend
      && StateAt(close, rawUpper, rawLower, 1).lower < StateAt(close, rawUpper, rawLower, 0).lower
  {
    var close, rawUpper, rawLower := [9.0, 11.0], [10.0, 20.0], [8.0, 2.0];
    assert StateAt(close, rawUpper, rawLower, 0) == State(true, 10.0, 8.0);
    assert StateAt(close, rawUpper, rawLower, 1) == State(true, 20.0, 2.0);
  }
}
