/**
 * The price table of app.js: for each coin, the spot price, a simple
 * windowed RSI over the daily closes, the buy and sell bands and the action
 * label — the computation inside the loop of `fetchPricesAndRSI`, lifted out
 * of the fetch.
 *
 * Prices are reals: every branch is kept, IEEE rounding is not. The
 * non-finite results of `Math.min()` and `Math.max()` on an empty list are
 * kept as explicit infinities.
 */
module WindowRsi {
  import opened Wrappers

  /** `lookback`: the window length and, always, the divisor. */
  const Lookback: int := 14

  /** The loop adds a positive difference to `gains` and any other one,
      negated, to `losses`. */
  function GainAt(closes: seq<real>, i: int): real
    requires 1 <= i < |closes|
  {
    if closes[i] - closes[i - 1] > 0.0 then closes[i] - closes[i - 1] else 0.0
  }

  function LossAt(closes: seq<real>, i: int): real
    requires 1 <= i < |closes|
  {
    if closes[i] - closes[i - 1] > 0.0 then 0.0 else -(closes[i] - closes[i - 1])
  }

  /** The gains at the indices i with lo <= i < hi, skipping i <= 0 as the
      loop's `continue` does. */
  function GainSum(closes: seq<real>, lo: int, hi: int): (r: real)
    requires hi <= |closes|
    ensures r >= 0.0
    decreases hi - lo
  {
    if hi <= lo || hi <= 1 then 0.0 else GainSum(closes, lo, hi - 1) + GainAt(closes, hi - 1)
  }

  function LossSum(closes: seq<real>, lo: int, hi: int): (r: real)
    requires hi <= |closes|
    ensures r >= 0.0
    decreases hi - lo
  {
    if hi <= lo || hi <= 1 then 0.0 else LossSum(closes, lo, hi - 1) + LossAt(closes, hi - 1)
  }

  /** What the loop accumulates: the indices from `closes.length - lookback`
      up to the end. */
  function WindowGains(closes: seq<real>): real
  {
    GainSum(closes, |closes| - Lookback, |closes|)
  }

  function WindowLosses(closes: seq<real>): real
  {
    LossSum(closes, |closes| - Lookback, |closes|)
  }

  lemma ProductZero(a: real, b: real)
    requires b != 0.0
    ensures a * b == 0.0 <==> a == 0.0
  {
  }

  /** The RSI if-chain on the two averages: 100 when only gains, 0 when only
      losses, the usual formula when there are losses, and 50 otherwise. */
  function RsiOf(avgG: real, avgL: real): (r: real)
    requires avgG >= 0.0 && avgL >= 0.0
    ensures 0.0 <= r <= 100.0
    ensures r == 50.0 <==> avgG == avgL
    ensures r == 100.0 <==> avgL == 0.0 && avgG > 0.0
    ensures r == 0.0 <==> avgG == 0.0 && avgL > 0.0
    ensures avgL > 0.0 ==> r * (avgG + avgL) == 100.0 * avgG
  {
    if avgL == 0.0 && avgG > 0.0 then 100.0
    else if avgG == 0.0 && avgL > 0.0 then 0.0
    else if avgL > 0.0 then
      var ratio := avgG / avgL;
      assert ratio * avgL == avgG;
      var q := 100.0 / (1.0 + ratio);
      assert q * (1.0 + ratio) == 100.0;
      assert q * avgG + q * avgL == 100.0 * avgL by {
        assert q * (1.0 + ratio) * avgL == 100.0 * avgL;
      }
      assert (50.0 - q) * (avgG + avgL) == 50.0 * (avgG - avgL);
      ProductZero(50.0 - q, avgG + avgL);
      100.0 - q
    else 50.0
  }

  /** The windowed RSI of a list of closes. */
  function Rsi(closes: seq<real>): (r: real)
    ensures 0.0 <= r <= 100.0
  {
    RsiOf(WindowGains(closes) / Lookback as real, WindowLosses(closes) / Lookback as real)
  }

  /** The RSI block of `fetchPricesAndRSI`: a loop over the last `lookback`
      indices accumulating gains and losses, then the if-chain. */
  method ComputeRsi(closes: seq<real>) returns (rsi: real)
    ensures rsi == Rsi(closes)
    ensures 0.0 <= rsi <= 100.0
  {
    var n := |closes|;
    var gains, losses := 0.0, 0.0;
    var i := n - Lookback;
    while i < n
      invariant n - Lookback <= i <= n
      invariant gains == GainSum(closes, n - Lookback, i)
      invariant losses == LossSum(closes, n - Lookback, i)
    {
      if i > 0 {
        var diff := closes[i] - closes[i - 1];
        if diff > 0.0 { gains := gains + diff; } else { losses := losses + -diff; }
      }
      i := i + 1;
    }
    var avgG := gains / Lookback as real;
    var avgL := losses / Lookback as real;
    rsi := 50.0;
    if avgL == 0.0 && avgG > 0.0 {
      rsi := 100.0;
    } else if avgG == 0.0 && avgL > 0.0 {
      rsi := 0.0;
    } else if avgL > 0.0 {
      rsi := 100.0 - (100.0 / (1.0 + (avgG / avgL)));
    }
  }

  /** Over the window, gains minus losses is the net move of the price:
      the last close minus the close just before the first index summed. */
  lemma {:induction false} NetMove(closes: seq<real>, lo: int, hi: int)
    requires 1 <= lo < hi <= |closes|
    ensures GainSum(closes, lo, hi) - LossSum(closes, lo, hi) == closes[hi - 1] - closes[lo - 1]
    decreases hi - lo
  {
    if hi - 1 > lo {
      NetMove(closes, lo, hi - 1);
    }
  }

  /** The window's net move: for at least two closes, the last close minus the
      close at the start of the window (or the first close, for a short list). */
  lemma WindowNetMove(closes: seq<real>)
    requires |closes| >= 2
    ensures var start := if |closes| - Lookback > 1 then |closes| - Lookback else 1;
            WindowGains(closes) - WindowLosses(closes) == closes[|closes| - 1] - closes[start - 1]
  {
    var n := |closes|;
    var start := if n - Lookback > 1 then n - Lookback else 1;
    SumsFrom(closes, n - Lookback, start, n);
    NetMove(closes, start, n);
  }

  /** Indices at or below 0 contribute nothing: starting the sum anywhere at
      or below index 1 is the same as starting it at 1. */
  lemma {:induction false} SumsFrom(closes: seq<real>, lo: int, start: int, hi: int)
    requires hi <= |closes|
    requires start == if lo > 1 then lo else 1
    ensures GainSum(closes, lo, hi) == GainSum(closes, start, hi)
    ensures LossSum(closes, lo, hi) == LossSum(closes, start, hi)
    decreases hi - lo
  {
    if hi > lo && hi > 1 {
      SumsFrom(closes, lo, start, hi - 1);
    }
  }

  /** Earlier history does not matter: with at least 15 closes, putting more
      closes in front leaves the windowed RSI unchanged. */
  lemma HistoryIgnored(history: seq<real>, closes: seq<real>)
    requires |closes| >= Lookback + 1
    ensures Rsi(history + closes) == Rsi(closes)
  {
    var n := |closes|;
    SumsShift(history, closes, n - Lookback, n);
    assert |history + closes| - Lookback == n - Lookback + |history|;
  }

  lemma {:induction false} SumsShift(history: seq<real>, closes: seq<real>, lo: int, hi: int)
    requires 1 <= lo && hi <= |closes|
    ensures GainSum(history + closes, lo + |history|, hi + |history|) == GainSum(closes, lo, hi)
    ensures LossSum(history + closes, lo + |history|, hi + |history|) == LossSum(closes, lo, hi)
    decreases hi - lo
  {
    if hi > lo {
      SumsShift(history, closes, lo, hi - 1);
      var all := history + closes;
      assert all[hi - 1 + |history|] == closes[hi - 1];
      assert all[hi - 2 + |history|] == closes[hi - 2];
    }
  }

  /** Sums of zero-difference steps are zero. */
  lemma {:induction false} FlatSumsZero(closes: seq<real>, lo: int, hi: int)
    requires hi <= |closes|
    requires forall k :: 0 < k < |closes| ==> closes[k] == closes[k - 1]
    ensures GainSum(closes, lo, hi) == 0.0 && LossSum(closes, lo, hi) == 0.0
    decreases hi - lo
  {
    if hi > lo && hi > 1 {
      FlatSumsZero(closes, lo, hi - 1);
    }
  }

  /** A flat list of closes, of any length, has windowed RSI 50; so does a
      list too short to have any step. */
  lemma FlatIs50(closes: seq<real>)
    requires forall k :: 0 < k < |closes| ==> closes[k] == closes[k - 1]
    ensures Rsi(closes) == 50.0
  {
    FlatSumsZero(closes, |closes| - Lookback, |closes|);
  }

  /** If every step inside the window rises, the windowed RSI is 100. */
  lemma {:induction false} RisingSums(closes: seq<real>, lo: int, hi: int)
    requires 1 <= lo < hi <= |closes|
    requires forall k :: lo <= k < hi ==> closes[k - 1] < closes[k]
    ensures GainSum(closes, lo, hi) > 0.0 && LossSum(closes, lo, hi) == 0.0
    decreases hi - lo
  {
    if hi - 1 > lo {
      RisingSums(closes, lo, hi - 1);
    }
  }

  lemma {:induction false} FallingSums(closes: seq<real>, lo: int, hi: int)
    requires 1 <= lo < hi <= |closes|
    requires forall k :: lo <= k < hi ==> closes[k - 1] > closes[k]
    ensures GainSum(closes, lo, hi) == 0.0 && LossSum(closes, lo, hi) > 0.0
    decreases hi - lo
  {
    if hi - 1 > lo {
      FallingSums(closes, lo, hi - 1);
    }
  }

  lemma RisingIs100(closes: seq<real>)
    requires |closes| >= 2
    requires forall k :: 0 < k < |closes| ==> closes[k - 1] < closes[k]
    ensures Rsi(closes) == 100.0
  {
    var n := |closes|;
    var start := if n - Lookback > 1 then n - Lookback else 1;
    SumsFrom(closes, n - Lookback, start, n);
    RisingSums(closes, start, n);
  }

  lemma FallingIs0(closes: seq<real>)
    requires |closes| >= 2
    requires forall k :: 0 < k < |closes| ==> closes[k - 1] > closes[k]
    ensures Rsi(closes) == 0.0
  {
    var n := |closes|;
    var start := if n - Lookback > 1 then n - Lookback else 1;
    SumsFrom(closes, n - Lookback, start, n);
    FallingSums(closes, start, n);
  }

  /** The fixed divisor cancels: whenever the window holds a loss, the RSI is
      100 * gains / (gains + losses) of the raw sums, whatever the length. */
  lemma DivisorCancels(closes: seq<real>)
    requires WindowLosses(closes) > 0.0
    ensures Rsi(closes) * (WindowGains(closes) + WindowLosses(closes)) == 100.0 * WindowGains(closes)
  {
    var g, l := WindowGains(closes), WindowLosses(closes);
    var d := Lookback as real;
    var r := Rsi(closes);
    assert r * (g / d + l / d) == 100.0 * (g / d);
    assert g / d + l / d == (g + l) / d;
    assert r * (g + l) == (r * ((g + l) / d)) * d;
  }

  // ---------------------------------------------------------------------
  // Buy and sell bands.

  /** A number as `Math.min` and `Math.max` may return it: finite, or one of
      the two infinities they give for an empty argument list. */
  datatype ExtReal = Finite(v: real) | PosInf | NegInf

  /** `Math.min(...closes)`. */
  function MathMin(xs: seq<real>): (m: ExtReal)
    ensures xs == [] <==> m == PosInf
    ensures xs != [] ==> m.Finite? && m.v in xs
    ensures xs != [] ==> forall k :: 0 <= k < |xs| ==> m.v <= xs[k]
  {
    if xs == [] then PosInf
    else
      var rest := MathMin(xs[1..]);
      if rest.PosInf? || xs[0] <= rest.v then Finite(xs[0]) else rest
  }

  /** `Math.max(...closes)`. */
  function MathMax(xs: seq<real>): (m: ExtReal)
    ensures xs == [] <==> m == NegInf
    ensures xs != [] ==> m.Finite? && m.v in xs
    ensures xs != [] ==> forall k :: 0 <= k < |xs| ==> xs[k] <= m.v
  {
    if xs == [] then NegInf
    else
      var rest := MathMax(xs[1..]);
      if rest.NegInf? || xs[0] >= rest.v then Finite(xs[0]) else rest
  }

  /** `isFinite(maxP - minP) ? maxP - minP : 0`: a difference involving an
      infinity is infinite or NaN, so only two finite ends give a range. */
  function Range(minP: ExtReal, maxP: ExtReal): real
  {
    if minP.Finite? && maxP.Finite? then maxP.v - minP.v else 0.0
  }

  datatype Bands = Bands(buyLow: real, buyHigh: real, sellLow: real, sellHigh: real)

  /** The buy zone is the bottom fifth of the closes' range and the sell zone
      the top fifth; with no closes every bound falls back to the spot price. */
  function ZoneBands(closes: seq<real>, usd: real): (b: Bands)
    ensures closes == [] ==> b == Bands(usd, usd, usd, usd)
    ensures closes != [] ==> b.buyLow in closes && b.sellHigh in closes
    ensures closes != [] ==> forall k :: 0 <= k < |closes| ==> b.buyLow <= closes[k] <= b.sellHigh
    ensures b.buyHigh - b.buyLow == b.sellHigh - b.sellLow == 0.2 * (b.sellHigh - b.buyLow)
    ensures b.buyLow <= b.buyHigh <= b.sellLow <= b.sellHigh
  {
    var minP := MathMin(closes);
    var maxP := MathMax(closes);
    var range := Range(minP, maxP);
    Bands(
      if minP.Finite? then minP.v else usd,
      if minP.Finite? then minP.v + range * 0.2 else usd,
      if maxP.Finite? then maxP.v - range * 0.2 else usd,
      if maxP.Finite? then maxP.v else usd)
  }

  // ---------------------------------------------------------------------
  // Labels and the table row.

  /** The action label: 考慮買入 below 30, otherwise 考慮賣出 above 70,
      otherwise 持有. */
  method Action(rsi: real) returns (action: string)
    ensures action == "考慮買入" <==> rsi < 30.0
    ensures action == "考慮賣出" <==> rsi > 70.0
    ensures action == "持有" <==> 30.0 <= rsi <= 70.0
  {
    action := "持有";
    if rsi < 30.0 {
      action := "考慮買入";
    } else if rsi > 70.0 {
      action := "考慮賣出";
    }
  }

  /** `price[coin.id]?.usd || 0`: a missing (or zero) quote reads as 0. */
  function SpotPrice(quote: Option<real>): (usd: real)
    ensures quote.None? ==> usd == 0.0
    ensures quote.Some? ==> usd == quote.value
  {
    if quote.Some? && quote.value != 0.0 then quote.value else 0.0
  }

  datatype Row = Row(usd: real, rsi: real, bands: Bands, action: string)

  /** One coin's row of the table, from its quote and its daily closes. */
  method PriceRow(quote: Option<real>, closes: seq<real>) returns (row: Row)
    ensures row.usd == SpotPrice(quote)
    ensures row.rsi == Rsi(closes) && 0.0 <= row.rsi <= 100.0
    ensures row.bands == ZoneBands(closes, row.usd)
    ensures row.action == "考慮買入" <==> row.rsi < 30.0
    ensures row.action == "考慮賣出" <==> row.rsi > 70.0
    ensures row.action == "持有" <==> 30.0 <= row.rsi <= 70.0
  {
    var usd := SpotPrice(quote);
    var rsi := ComputeRsi(closes);
    var action := Action(rsi);
    row := Row(usd, rsi, ZoneBands(closes, usd), action);
  }
}
