/**
 * One run of the signal pipeline over a window of completed candles: align
 * the library's ATR with the candles, compute the raw bands, run the trend
 * pass over them in place, and decide on the last two trends.
 *
 * The candle columns and the indicator library's ATR output are inputs; the
 * deployed bot uses `period = 1` and `multiplier = 3`.
 */
module Pipeline {
  import opened AtrAlignment
  import opened Bands
  import opened Trend
  import opened Signal

  /** The trend of every candle, as the recurrence over the given bands defines it. */
  function Trends(close: seq<real>, rawUpper: seq<real>, rawLower: seq<real>): seq<bool>
    requires Aligned(close, rawUpper, rawLower)
  {
    seq(|close|, i requires 0 <= i < |close| => StateAt(close, rawUpper, rawLower, i).inTrend)
  }

  /**
   * The pipeline. `atr` is `period` zeros followed by the library output, the
   * band arrays and `inTrend` have one entry per candle and hold the trend
   * recurrence over the raw bands, and the decision is taken on `inTrend`.
   */
  method Run(high: seq<real>, low: seq<real>, close: seq<real>, libAtr: seq<real>, period: nat, multiplier: real)
    returns (atr: seq<real>, upperBand: array<real>, lowerBand: array<real>, inTrend: seq<bool>, decision: Option<Decision>)
    requires |close| >= 1 && |high| == |close| && |low| == |close|
    requires |close| <= period + |libAtr|
    ensures atr == Zeros(period) + libAtr
    ensures upperBand.Length == |close| && lowerBand.Length == |close|
    ensures inTrend == Trends(close, RawUpper(high, low, atr, multiplier), RawLower(high, low, atr, multiplier))
    ensures forall i :: 0 <= i < |close| ==>
      StateAt(close, RawUpper(high, low, atr, multiplier), RawLower(high, low, atr, multiplier), i)
        == State(inTrend[i], upperBand[i], lowerBand[i])
    ensures decision == Decide(inTrend)
  {
    atr := ZeroFill(libAtr, period);
    ZeroFillShape(libAtr, period, atr);
    upperBand, lowerBand := ComputeBands(high, low, atr, multiplier);
    inTrend := PropagateTrend(close, upperBand, lowerBand);
    decision := Decide(inTrend);
  }

  /**
   * A flat window (every high, low and close at one price, zero ATR) keeps the
   * seeded uptrend throughout, so with two candles or more the decision is to
   * wait for a downtrend.
   */
  lemma FlatWindowWaitsForDowntrend(high: seq<real>, low: seq<real>, close: seq<real>, atr: seq<real>, multiplier: real, price: real)
    requires |low| == |high| == |close| <= |atr| && |close| >= 2
    requires forall i :: 0 <= i < |close| ==> high[i] == price && low[i] == price && close[i] == price && atr[i] == 0.0
    ensures var trends := Trends(close, RawUpper(high, low, atr, multiplier), RawLower(high, low, atr, multiplier));
      && (forall i :: 0 <= i < |close| ==> trends[i])
      && Decide(trends) == Some(WaitForDowntrend)
  {
    var rawUpper, rawLower := RawUpper(high, low, atr, multiplier), RawLower(high, low, atr, multiplier);
    forall i | 0 <= i < |close|
      ensures StateAt(close, rawUpper, rawLower, i).inTrend
    {
      FlatSeriesStaysUp(close, rawUpper, rawLower, price, i);
    }
    DecisionFromLastTwo(Trends(close, rawUpper, rawLower), WaitForDowntrend);
  }

  /** A close above the last downtrend candle's upper band turns the trend up: buy. */
  lemma BreakoutAfterDowntrendBuys(close: seq<real>, rawUpper: seq<real>, rawLower: seq<real>)
    requires Aligned(close, rawUpper, rawLower) && |close| >= 2
    requires var prev := StateAt(close, rawUpper, rawLower, |close| - 2);
      !prev.inTrend && close[|close| - 1] > prev.upper
    ensures Decide(Trends(close, rawUpper, rawLower)) == Some(Buy)
  {
    TrendTransition(close, rawUpper, rawLower, |close| - 1);
    DecisionFromLastTwo(Trends(close, rawUpper, rawLower), Buy);
  }

  /** A close below the last uptrend candle's lower band (and not above its upper band) turns the trend down: sell. */
  lemma BreakdownAfterUptrendSells(close: seq<real>, rawUpper: seq<real>, rawLower: seq<real>)
    requires Aligned(close, rawUpper, rawLower) && |close| >= 2
    requires var prev := StateAt(close, rawUpper, rawLower, |close| - 2);
      prev.inTrend && close[|close| - 1] < prev.lower && close[|close| - 1] <= prev.upper
    ensures Decide(Trends(close, rawUpper, rawLower)) == Some(Sell)
  {
    TrendTransition(close, rawUpper, rawLower, |close| - 1);
    DecisionFromLastTwo(Trends(close, rawUpper, rawLower), Sell);
  }
}
