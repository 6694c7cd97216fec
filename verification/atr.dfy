/**
 * Alignment of the ATR series with the candles.
 *
 * The ATR values themselves come from a foreign indicator library and are an
 * input here. That library yields no value for the first `period` candles, so
 * the pipeline prepends `period` zeros (one `unshift(0)` per round of a loop)
 * to make `atr[i]` belong to candle `i`.
 */
module AtrAlignment {

  /** `n` warm-up placeholders: zero volatility. */
  function Zeros(n: nat): seq<real> {
    seq(n, _ => 0.0)
  }

  /** Prepends `period` zeros to the library's ATR output, one at a time. */
  method ZeroFill(libAtr: seq<real>, period: nat) returns (atr: seq<real>)
    ensures |atr| == period + |libAtr|
    ensures forall i :: 0 <= i < period ==> atr[i] == 0.0
    ensures forall k :: 0 <= k < |libAtr| ==> atr[period + k] == libAtr[k]
  {
    atr := libAtr;
    var i := 0;
    while i < period
      invariant 0 <= i <= period
      invariant |atr| == i + |libAtr|
      invariant forall j :: 0 <= j < i ==> atr[j] == 0.0
      invariant forall k :: 0 <= k < |libAtr| ==> atr[i + k] == libAtr[k]
    {
      atr := [0.0] + atr;
      i := i + 1;
    }
  }

  /** The zero-filled series is exactly the placeholders followed by the library output. */
  lemma ZeroFillShape(libAtr: seq<real>, period: nat, atr: seq<real>)
    requires |atr| == period + |libAtr|
    requires forall i :: 0 <= i < period ==> atr[i] == 0.0
    requires forall k :: 0 <= k < |libAtr| ==> atr[period + k] == libAtr[k]
    ensures atr == Zeros(period) + libAtr
  {
    forall i | 0 <= i < |atr|
      ensures atr[i] == (Zeros(period) + libAtr)[i]
    {
      if i >= period {
        assert atr[period + (i - period)] == libAtr[i - period];
      }
    }
  }
}
