/**
 * The two RSI variants side by side, with the 14-period window both pages
 * use: they agree on series that move in one direction and disagree on a
 * flat one.
 */
module RsiVariants {
  import WilderRsi
  import WindowRsi

  /** On a flat series long enough for Wilder smoothing to run, the Wilder
      RSI says 100 (no loss, so `rs` is Infinity) while the windowed RSI says
      50 (no gain and no loss). */
  lemma FlatSeriesDisagree(prices: seq<real>)
    requires |prices| >= 16
    requires forall k :: 0 < k < |prices| ==> prices[k] == prices[k - 1]
    ensures WilderRsi.Rsi(prices, 14) == 100.0
    ensures WindowRsi.Rsi(prices) == 50.0
  {
    WilderRsi.NeverFallingIs100(prices, 14);
    WindowRsi.FlatIs50(prices);
  }

  /** A strictly rising series gives 100 under both variants. */
  lemma RisingSeriesAgree(prices: seq<real>)
    requires |prices| >= 16
    requires forall k :: 0 < k < |prices| ==> prices[k - 1] < prices[k]
    ensures WilderRsi.Rsi(prices, 14) == WindowRsi.Rsi(prices) == 100.0
  {
    WilderRsi.NeverFallingIs100(prices, 14);
    WindowRsi.RisingIs100(prices);
  }

  /** A strictly falling series gives 0 under both variants. */
  lemma FallingSeriesAgree(prices: seq<real>)
    requires |prices| >= 16
    requires forall k :: 0 < k < |prices| ==> prices[k - 1] > prices[k]
    ensures WilderRsi.Rsi(prices, 14) == WindowRsi.Rsi(prices) == 0.0
  {
    WilderRsi.AlwaysFallingIs0(prices, 14);
    WindowRsi.FallingIs0(prices);
  }
}
