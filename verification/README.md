# Supertrend signal pipeline of Stonks-Bot, in Dafny

Stonks-Bot fetches a window of daily ETH/USDT candles, computes a Supertrend
indicator over them and decides whether to buy, sell or wait. This project
models the part of `main.js` that computes the signal:

- **ATR alignment** (`atr.dfy`, module `AtrAlignment`). The indicator library's
  ATR output is left-padded with `period` zeros, one `unshift(0)` per loop
  round, so that `atr[i]` belongs to candle `i`.
- **Raw bands** (`bands.dfy`, module `Bands`). For each candle the upper and lower
  bands are the candle midpoint `(high + low) / 2` plus or minus
  `multiplier * atr[i]`. They are written by index into two fresh arrays.
- **Trend pass** (`trend.dfy`, module `Trend`). `inTrend` is seeded `[true]`. Then
  for each later candle:
  - a close above the previous working upper band gives an uptrend;
  - otherwise a close below the previous working lower band gives a downtrend;
  - otherwise the trend persists, and the band arrays are ratcheted in place.
    In an uptrend the lower band may not fall below its predecessor. In a
    downtrend the upper band may not rise above its predecessor.

  `PropagateTrend` is the in-place loop over the two arrays. Each step compares
  against index `i - 1` of the same arrays, which the previous step may already
  have overwritten. It is proved against the pure recurrence `StateAt`
  (`Step` gives one step). The lemmas about `StateAt` state the trend's
  properties.
- **Decision** (`signal.dfy`, module `Signal`). This is `executeOrder` without the
  trades. Four independent `if`s test the last two trend entries with `===`.
  An array read out of bounds is `undefined`, which matches no branch. So
  `Decide` returns one of four decisions when there are at least two entries,
  and none otherwise.
- **Pipeline** (`pipeline.dfy`, module `Pipeline`). `Run` chains the four stages
  over one candle window. The lemmas in this module link the trend to the
  decision.

Prices, ATR values and the multiplier are `real`. `period` and `multiplier` are
parameters; the bot itself uses 1 and 3 (`main.js:22-23`).

## Model

| member | source | states |
|---|---|---|
| `AtrAlignment.ZeroFill` | main.js:119-121 | The aligned series is `period` zeros followed by the library output, in order. Its length is `period` plus the library's length, so it is N when the library returns N - period values. |
| `AtrAlignment.ZeroFillShape` | main.js:119-121 | Those three facts determine the series: it equals `Zeros(period) + libAtr`. |
| `Bands.ComputeBands` | main.js:124-131 | Two distinct fresh arrays, one entry per candle. Entry i is midpoint(i) + multiplier * atr[i] (upper) or midpoint(i) - multiplier * atr[i] (lower). |
| `Bands.RawBandsAroundMidpoint` | main.js:127-130 | The raw bands are symmetric about the midpoint and 2 * multiplier * atr[i] apart. Upper ≥ lower whenever multiplier * atr[i] ≥ 0. A zero (warm-up) ATR collapses both bands onto the midpoint. |
| `Trend.PropagateTrend` | main.js:134-150 | `inTrend` has one entry per candle. For every candle, its trend and its final array entries are the recurrence `StateAt` over the arrays' raw contents. Candle 0 is an uptrend with its raw bands. The loop invariant says step i writes only index i and leaves later indices raw. |
| `Trend.TrendTransition` | main.js:136-142 | Fixed priority. The trend at i is up iff the close breaks above the previous working upper band, or it does not break below the previous working lower band and the previous trend was up. |
| `Trend.CrossingKeepsRawBands` | main.js:136-139 | When the close breaks out of the previous bands in either direction, both bands at i keep their raw values. |
| `Trend.UptrendRatchet` | main.js:140-145 | When an uptrend persists: the trend stays up, the upper band stays raw, and the lower band becomes max(raw lower, previous lower). So it never falls below its predecessor. |
| `Trend.DowntrendRatchet` | main.js:140-148 | When a downtrend persists: the trend stays down, the lower band stays raw, and the upper band becomes min(raw upper, previous upper). So it never rises above its predecessor. |
| `Trend.WorkingBandsWithinRaw` | main.js:140-148 | At every index the working lower band is ≥ the raw lower band and the working upper band is ≤ the raw upper band. Each working band is either its raw value or its predecessor's. |
| `Trend.UptrendStretch` | main.js:142-145 | Over any stretch where the close stays inside the previous bands, an uptrend stays up and its lower band is non-decreasing. |
| `Trend.DowntrendStretch` | main.js:142-148 | Over any stretch where the close stays inside the previous bands, a downtrend stays down and its upper band is non-increasing. |
| `Trend.FlatSeriesStaysUp` | main.js:126-150 | If every close and both raw bands equal one price, every candle keeps the seeded uptrend with both working bands at that price. |
| `Trend.UptrendLowerCanDropOnCrossing` | main.js:136-137 | The lower band can drop while the trend stays up. Concrete input: a close above the previous upper band gives a new candle its raw bands unratcheted. |
| `Signal.Decide` | main.js:50-67 | With two or more trend entries exactly one of the four branches fires, and the result is that branch's decision. With fewer entries no branch fires and there is no decision. |
| `Signal.DecisionFromLastTwo` | main.js:53-66 | The decision is d exactly when the last two entries are `Transition(d)`: (false, true) buy, (true, false) sell, (false, false) wait for uptrend, (true, true) wait for downtrend. |
| `Signal.SameEndingSameDecision` | main.js:50-51 | Two trend series that end in the same two entries get the same decision. |
| `Pipeline.Run` | main.js:119-152 | `atr` is `period` zeros followed by the library output. The band arrays and `inTrend` have one entry per candle and hold the trend recurrence over the raw bands. The decision is the one taken on `inTrend`. |
| `Pipeline.FlatWindowWaitsForDowntrend` | main.js:124-150 | In a flat window (equal high, low and close, zero ATR) every trend is up. With two or more candles the decision is to wait for a downtrend. |
| `Pipeline.BreakoutAfterDowntrendBuys` | main.js:53-56 | If the second-to-last candle is in a downtrend and the last close is above its working upper band, the decision is to buy. |
| `Pipeline.BreakdownAfterUptrendSells` | main.js:58-61 | If the second-to-last candle is in an uptrend and the last close is below its working lower band (and not above its upper band), the decision is to sell. |

## Left out

- The ATR itself is not modelled. It comes from the `technicalindicators` library (`main.js:3`, `119`), which is not part of this model. Its output is an input of `Run`.
- `Pipeline.Run` requires `period + |libAtr| >= N`, that is, at least N - period library values. With fewer, JavaScript would read `undefined` and produce NaN bands. That case is not modelled.
- Market-data fetching is not modelled (`fetchOHLCV`, `main.js:108`). Neither is dropping the incomplete last candle or the `ohlcvs.length > 0` guard (`main.js:109-111`). `Run` takes the completed candles' columns and requires at least one candle, which is what that guard ensures.
- `convertOHLCVToTradingView` (`main.js:112`) is not modelled; it is a library reshaping. The high, low and close columns are given directly.
- The exchange clients, credentials and `dotenv` (`main.js:2-14`) are configuration and network setup.
- `buyBase`, `sellBase` and `balanceFetcher` (`main.js:71-103`) are network calls and order sizing. `executeOrder` fires them without waiting, so `Decide` returns the decision instead.
- `consolePrinter` and every `console` call (`main.js:26-44`, `151`) are presentation only.
- The `try`/`catch` in `main` (`main.js:107`, `155-157`) only logs.
- IEEE-754 rounding and NaN are not modelled. Prices are exact reals.
- The code does no input validation: no minimum candle count, no check that high ≥ low, no finiteness check. So the model has no error cases for those either.
- A commonly stated Supertrend invariant says the lower band never drops while the trend stays up. This code does not keep it. The ratchet applies only when the close stays inside the previous bands, and `Trend.UptrendLowerCanDropOnCrossing` shows a drop. The model follows the code.
