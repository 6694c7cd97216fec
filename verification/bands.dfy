/**
 * Raw Supertrend bands: the candle midpoint plus or minus `multiplier` times
 * the candle's ATR. The pipeline fills two fresh arrays by index, one entry
 * per candle.
 */
module Bands {

  function Midpoint(high: real, low: real): real {
    (high + low) / 2.0
  }

  /** Raw upper band of every candle. */
  function RawUpper(high: seq<real>, low: seq<real>, atr: seq<real>, multiplier: real): seq<real>
    requires |low| == |high| <= |atr|
  {
    seq(|high|, i requires 0 <= i < |high| => Midpoint(high[i], low[i]) + multiplier * atr[i])
  }

  /** Raw lower band of every candle. */
  function RawLower(high: seq<real>, low: seq<real>, atr: seq<real>, multiplier: real): seq<real>
    requires |low| == |high| <= |atr|
  {
    seq(|high|, i requires 0 <= i < |high| => Midpoint(high[i], low[i]) - multiplier * atr[i])
  }

  /** Fills the upper and lower band arrays, candle by candle. */
  method ComputeBands(high: seq<real>, low: seq<real>, atr: seq<real>, multiplier: real)
    returns (upperBand: array<real>, lowerBand: array<real>)
    requires |low| == |high| <= |atr|
    ensures fresh(upperBand) && fresh(lowerBand) && upperBand != lowerBand
    ensures upperBand[..] == RawUpper(high, low, atr, multiplier)
    ensures lowerBand[..] == RawLower(high, low, atr, multiplier)
  {
    upperBand := new real[|high|];
    lowerBand := new real[|high|];
    for i := 0 to |high|
      invariant forall j :: 0 <= j < i ==> upperBand[j] == RawUpper(high, low, atr, multiplier)[j]
      invariant forall j :: 0 <= j < i ==> lowerBand[j] == RawLower(high, low, atr, multiplier)[j]
    {
      upperBand[i] := Midpoint(high[i], low[i]) + multiplier * atr[i];
      lowerBand[i] := Midpoint(high[i], low[i]) - multiplier * atr[i];
    }
  }

  /**
   * The two raw bands sit symmetrically about the midpoint, `2 * multiplier * atr[i]`
   * apart; they are ordered whenever `multiplier * atr[i]` is non-negative, and
   * collapse onto the midpoint for a zero (warm-up) ATR.
   */
  lemma RawBandsAroundMidpoint(high: seq<real>, low: seq<real>, atr: seq<real>, multiplier: real, i: nat)
    requires |low| == |high| <= |atr| && i < |high|
    ensures var u, l := RawUpper(high, low, atr, multiplier)[i], RawLower(high, low, atr, multiplier)[i];
      && (u + l) / 2.0 == Midpoint(high[i], low[i])
      && u - l == 2.0 * multiplier * atr[i]
      && (multiplier * atr[i] >= 0.0 ==> l <= u)
      && (atr[i] == 0.0 ==> u == l == Midpoint(high[i], low[i]))
  {
  }
}
