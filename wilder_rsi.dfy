/**
 * The RSI of script.js: `calculateRSI` with Wilder smoothing, its helper
 * `average`, and the zone label written next to it in the market table.
 *
 * Prices are reals: every branch of the source is kept, IEEE rounding is not.
 */
module WilderRsi {

  /** `reduce((a, b) => a + b, 0)`: addition folded from the left. */
  function Sum(s: seq<real>): (r: real)
    ensures (forall k :: 0 <= k < |s| ==> s[k] >= 0.0) ==> r >= 0.0
  {
    if s == [] then 0.0 else Sum(s[..|s| - 1]) + s[|s| - 1]
  }

  /** `average`: 0 for an empty array, otherwise the sum over the length. */
  function Average(s: seq<real>): (a: real)
    ensures (forall k :: 0 <= k < |s| ==> s[k] >= 0.0) ==> a >= 0.0
  {
    if |s| == 0 then 0.0 else Sum(s) / |s| as real
  }

  /** `n` copies of `x` added up. */
  function Repeat(n: nat, x: real): real
  {
    if n == 0 then 0.0 else Repeat(n - 1, x) + x
  }

  lemma {:induction false} RepeatIsProduct(n: nat, x: real)
    ensures Repeat(n, x) == n as real * x
  {
    if n > 0 {
      RepeatIsProduct(n - 1, x);
      assert n as real * x == (n - 1) as real * x + x;
    }
  }

  lemma {:induction false} SumBetween(s: seq<real>, lo: real, hi: real)
    requires forall k :: 0 <= k < |s| ==> lo <= s[k] <= hi
    ensures Repeat(|s|, lo) <= Sum(s) <= Repeat(|s|, hi)
  {
    if s != [] {
      var n := |s|;
      var init := s[..n - 1];
      SumBetween(init, lo, hi);
      assert Sum(s) == Sum(init) + s[n - 1];
    }
  }

  /** A number whose product with a positive number is non-negative is
      itself non-negative. */
  lemma NonNegFactor(a: real, n: real)
    requires n > 0.0 && a * n >= 0.0
    ensures a >= 0.0
  {
  }

  /** The average of a non-empty array lies between any lower and upper
      bound of its elements; the empty array averages to 0. */
  lemma AverageBetween(s: seq<real>, lo: real, hi: real)
    requires forall k :: 0 <= k < |s| ==> lo <= s[k] <= hi
    ensures s == [] ==> Average(s) == 0.0
    ensures s != [] ==> lo <= Average(s) <= hi
  {
    if s != [] {
      SumBetween(s, lo, hi);
      RepeatIsProduct(|s|, lo);
      RepeatIsProduct(|s|, hi);
      QuotientBetween(Sum(s), |s| as real, lo, hi);
    }
  }

  /** Dividing by a positive count keeps a value between the bounds it had
      per element. */
  lemma QuotientBetween(x: real, n: real, lo: real, hi: real)
    requires n > 0.0 && n * lo <= x <= n * hi
    ensures lo <= x / n <= hi
  {
    var a := x / n;
    assert a * n == x;
    assert (a - lo) * n == x - n * lo;
    assert (hi - a) * n == n * hi - x;
    NonNegFactor(a - lo, n);
    NonNegFactor(hi - a, n);
  }

  /** One step of the price series: a rise or a zero difference is a gain,
      a fall is a loss. */
  function StepGain(diff: real): real { if diff >= 0.0 then diff else 0.0 }
  function StepLoss(diff: real): real { if diff >= 0.0 then 0.0 else -diff }

  /** The `gains` array the first loop of `calculateRSI` builds. */
  function Gains(prices: seq<real>): (g: seq<real>)
    ensures |g| == if prices == [] then 0 else |prices| - 1
    ensures forall k :: 0 <= k < |g| ==> g[k] >= 0.0
  {
    if |prices| <= 1 then []
    else seq(|prices| - 1, k requires 0 <= k < |prices| - 1 => StepGain(prices[k + 1] - prices[k]))
  }

  /** The `losses` array the first loop of `calculateRSI` builds. */
  function Losses(prices: seq<real>): (l: seq<real>)
    ensures |l| == if prices == [] then 0 else |prices| - 1
    ensures forall k :: 0 <= k < |l| ==> l[k] >= 0.0
  {
    if |prices| <= 1 then []
    else seq(|prices| - 1, k requires 0 <= k < |prices| - 1 => StepLoss(prices[k + 1] - prices[k]))
  }

  /** Appending a price appends one step to both arrays. */
  lemma StepsExtend(prices: seq<real>, i: nat)
    requires 1 <= i < |prices|
    ensures Gains(prices[..i + 1]) == Gains(prices[..i]) + [StepGain(prices[i] - prices[i - 1])]
    ensures Losses(prices[..i + 1]) == Losses(prices[..i]) + [StepLoss(prices[i] - prices[i - 1])]
  {
    var p, q := prices[..i], prices[..i + 1];
    assert forall k :: 0 <= k < i ==> q[k] == p[k];
    var g, g' := Gains(p), Gains(q);
    assert |g'| == |g| + 1;
    assert forall k :: 0 <= k < |g| ==> g'[k] == g[k];
    assert g' == g + [StepGain(prices[i] - prices[i - 1])];
    var l, l' := Losses(p), Losses(q);
    assert |l'| == |l| + 1;
    assert forall k :: 0 <= k < |l| ==> l'[k] == l[k];
    assert l' == l + [StepLoss(prices[i] - prices[i - 1])];
  }

  /** Each step records a gain or a loss, never both, and the two together
      give back the price difference. */
  lemma StepSplitsDifference(prices: seq<real>, k: nat)
    requires k + 1 < |prices|
    ensures Gains(prices)[k] >= 0.0 && Losses(prices)[k] >= 0.0
    ensures Gains(prices)[k] == 0.0 || Losses(prices)[k] == 0.0
    ensures Gains(prices)[k] - Losses(prices)[k] == prices[k + 1] - prices[k]
    ensures prices[k + 1] == prices[k] ==> Gains(prices)[k] == 0.0 && Losses(prices)[k] == 0.0
  {
  }

  /** The Wilder update `avg' = (avg * (period - 1) + x) / period`. */
  function WilderStep(avg: real, x: real, period: nat): real
    requires period >= 1
  {
    (avg * (period - 1) as real + x) / period as real
  }

  /** The Wilder update applied to
      xs[period], ..., xs[hi - 1] in turn, starting from `init`. */
  function Smoothed(init: real, xs: seq<real>, period: nat, hi: nat): (r: real)
    requires 1 <= period <= hi <= |xs|
    ensures init >= 0.0 && (forall k :: period <= k < hi ==> xs[k] >= 0.0) ==> r >= 0.0
    decreases hi
  {
    if hi == period then init
    else WilderStep(Smoothed(init, xs, period, hi - 1), xs[hi - 1], period)
  }

  lemma MulNonNeg(a: real, b: real)
    requires a >= 0.0 && b >= 0.0
    ensures a * b >= 0.0
  {
  }

  lemma SmoothedLastStep(init: real, xs: seq<real>, period: nat, hi: nat)
    requires 1 <= period < hi <= |xs|
    ensures Smoothed(init, xs, period, hi) == WilderStep(Smoothed(init, xs, period, hi - 1), xs[hi - 1], period)
  {
  }

  lemma WilderStepNonNeg(avg: real, x: real, period: nat)
    requires period >= 1 && avg >= 0.0 && x >= 0.0
    ensures WilderStep(avg, x, period) >= 0.0
  {
    MulNonNeg(avg, period as real - 1.0);
  }

  lemma QuotientNonNeg(a: real, b: real)
    requires a >= 0.0 && b > 0.0
    ensures a / b >= 0.0
  {
  }

  /** One Wilder step is a weighted mean of the old average and the new value,
      so it stays between any bounds both respect. */
  lemma WilderStepBetween(avg: real, x: real, period: nat, lo: real, hi: real)
    requires period >= 1 && lo <= avg <= hi && lo <= x <= hi
    ensures lo <= WilderStep(avg, x, period) <= hi
  {
    var p := period as real;
    var num := avg * (p - 1.0) + x;
    MulNonNeg(avg - lo, p - 1.0);
    MulNonNeg(hi - avg, p - 1.0);
    assert lo * p <= num <= hi * p;
    var r := num / p;
    assert r * p == num;
  }

  /** The smoothed average stays between any bounds that hold of the starting
      average and of every value folded in. */
  lemma {:induction false} SmoothedBetween(init: real, xs: seq<real>, period: nat, hi: nat, lo: real, up: real)
    requires 1 <= period <= hi <= |xs|
    requires lo <= init <= up
    requires forall k :: period <= k < hi ==> lo <= xs[k] <= up
    ensures lo <= Smoothed(init, xs, period, hi) <= up
    decreases hi
  {
    if hi > period {
      SmoothedBetween(init, xs, period, hi - 1, lo, up);
      WilderStepBetween(Smoothed(init, xs, period, hi - 1), xs[hi - 1], period, lo, up);
    }
  }

  /** `100 - 100 / (1 + rs)` with `rs = avgGain / avgLoss`, or `rs = Infinity`
      (so the quotient is 0) when `avgLoss` is 0. */
  function RsiOf(avgGain: real, avgLoss: real): (r: real)
    requires avgGain >= 0.0 && avgLoss >= 0.0
    ensures 0.0 <= r <= 100.0
    ensures r == 100.0 <==> avgLoss == 0.0
    ensures r == 0.0 <==> avgGain == 0.0 && avgLoss > 0.0
    ensures avgLoss > 0.0 ==> r * (avgGain + avgLoss) == 100.0 * avgGain
  {
    if avgLoss == 0.0 then 100.0
    else
      var rs := avgGain / avgLoss;
      assert rs * avgLoss == avgGain;
      var q := 100.0 / (1.0 + rs);
      assert q * (1.0 + rs) == 100.0;
      assert q * avgGain + q * avgLoss == 100.0 * avgLoss by {
        assert q * (1.0 + rs) * avgLoss == 100.0 * avgLoss;
      }
      assert 0.0 < q <= 100.0;
      100.0 - q
  }

  /** The value of `rsi` once the smoothing loop has run up to index `hi`:
      still 50 if it has not run at all. */
  function LoopRsi(gains: seq<real>, losses: seq<real>, period: nat, hi: nat): (r: real)
    requires 1 <= period <= hi <= |gains| == |losses|
    requires forall k :: 0 <= k < |gains| ==> gains[k] >= 0.0 && losses[k] >= 0.0
    ensures 0.0 <= r <= 100.0
  {
    if hi == period then 50.0
    else
      RsiOf(Smoothed(Average(gains[..period]), gains, period, hi),
            Smoothed(Average(losses[..period]), losses, period, hi))
  }

  /** `calculateRSI(prices, period)` as a function of its inputs. */
  function Rsi(prices: seq<real>, period: nat): (r: real)
    requires period >= 1
    ensures 0.0 <= r <= 100.0
    ensures |prices| <= period + 1 ==> r == 50.0
  {
    if |prices| <= period then 50.0
    else LoopRsi(Gains(prices), Losses(prices), period, |prices| - 1)
  }

  /** `calculateRSI`: 50 when there are no more prices than the period;
      otherwise the first loop pushes one gain and one loss per step and the
      smoothing loop turns them into the RSI. */
  method CalculateRsi(prices: seq<real>, period: nat) returns (rsi: real)
    requires period >= 1
    ensures rsi == Rsi(prices, period)
    ensures 0.0 <= rsi <= 100.0
  {
    if |prices| <= period {
      return 50.0;
    }
    var gains: seq<real> := [];
    var losses: seq<real> := [];
    var i := 1;
    while i < |prices|
      invariant 1 <= i <= |prices|
      invariant gains == Gains(prices[..i]) && losses == Losses(prices[..i])
    {
      StepsExtend(prices, i);
      var diff := prices[i] - prices[i - 1];
      if diff >= 0.0 {
        gains := gains + [diff];
        losses := losses + [0.0];
      } else {
        gains := gains + [0.0];
        losses := losses + [-diff];
      }
      i := i + 1;
    }
    assert prices[..i] == prices;
    rsi := SmoothingLoop(gains, losses, period);
  }

  /** The second loop of `calculateRSI`: seed both averages with the plain
      average of the first `period` steps, then apply the Wilder update from
      index `period` on, recomputing `rsi` after each step. */
  method SmoothingLoop(gains: seq<real>, losses: seq<real>, period: nat) returns (rsi: real)
    requires 1 <= period <= |gains| == |losses|
    requires forall k :: 0 <= k < |gains| ==> gains[k] >= 0.0 && losses[k] >= 0.0
    ensures rsi == LoopRsi(gains, losses, period, |gains|)
    ensures |gains| == period ==> rsi == 50.0
  {
    var avgGain := Average(gains[..period]);
    var avgLoss := Average(losses[..period]);
    ghost var gainSeed, lossSeed := avgGain, avgLoss;
    rsi := 50.0;
    var j := period;
    while j < |gains|
      invariant period <= j <= |gains|
      invariant avgGain == Smoothed(gainSeed, gains, period, j)
      invariant avgLoss == Smoothed(lossSeed, losses, period, j)
      invariant avgGain >= 0.0 && avgLoss >= 0.0
      invariant rsi == LoopRsi(gains, losses, period, j)
    {
      WilderStepNonNeg(avgGain, gains[j], period);
      WilderStepNonNeg(avgLoss, losses[j], period);
      avgGain := WilderStep(avgGain, gains[j], period);
      avgLoss := WilderStep(avgLoss, losses[j], period);
      if avgLoss == 0.0 {
        rsi := 100.0;
      } else {
        QuotientNonNeg(avgGain, avgLoss);
        var rs := avgGain / avgLoss;
        rsi := 100.0 - 100.0 / (1.0 + rs);
      }
      j := j + 1;
    }
  }

  /** A series that never falls, long enough for the smoothing loop to run,
      has RSI 100: no loss is ever recorded. A flat series is one. */
  lemma NeverFallingIs100(prices: seq<real>, period: nat)
    requires period >= 1 && |prices| >= period + 2
    requires forall k :: 0 <= k < |prices| - 1 ==> prices[k] <= prices[k + 1]
    ensures Rsi(prices, period) == 100.0
  {
    var losses := Losses(prices);
    assert forall k :: 0 <= k < |losses| ==> losses[k] == 0.0;
    AverageBetween(losses[..period], 0.0, 0.0);
    SmoothedBetween(Average(losses[..period]), losses, period, |losses|, 0.0, 0.0);
  }

  /** A Wilder step that folds in a positive value from a non-negative
      average gives a positive average. */
  lemma WilderStepPositive(avg: real, x: real, period: nat)
    requires period >= 1 && avg >= 0.0 && x > 0.0
    ensures WilderStep(avg, x, period) > 0.0
  {
    MulNonNeg(avg, period as real - 1.0);
  }

  /** Once the smoothing loop runs, the RSI is that of the two final
      smoothed averages. */
  lemma RsiOfFinalAverages(prices: seq<real>, period: nat)
    requires period >= 1 && |prices| >= period + 2
    ensures var gains, losses := Gains(prices), Losses(prices);
            Rsi(prices, period)
              == RsiOf(Smoothed(Average(gains[..period]), gains, period, |gains|),
                       Smoothed(Average(losses[..period]), losses, period, |losses|))
  {
  }

  /** On a series that falls at every step, every step is a pure loss. */
  lemma FallingSteps(prices: seq<real>)
    requires forall k :: 0 <= k < |prices| - 1 ==> prices[k] > prices[k + 1]
    ensures forall k :: 0 <= k < |Gains(prices)| ==> Gains(prices)[k] == 0.0
    ensures forall k :: 0 <= k < |Losses(prices)| ==> Losses(prices)[k] > 0.0
  {
  }

  /** A series that falls at every step, long enough for the smoothing loop to
      run, has RSI 0: no gain is ever recorded and the last loss is positive. */
  lemma AlwaysFallingIs0(prices: seq<real>, period: nat)
    requires period >= 1 && |prices| >= period + 2
    requires forall k :: 0 <= k < |prices| - 1 ==> prices[k] > prices[k + 1]
    ensures Rsi(prices, period) == 0.0
  {
    var gains, losses := Gains(prices), Losses(prices);
    var n := |gains|;
    FallingSteps(prices);
    var gainSeed := Average(gains[..period]);
    AverageBetween(gains[..period], 0.0, 0.0);
    SmoothedBetween(gainSeed, gains, period, n, 0.0, 0.0);
    var lossSeed := Average(losses[..period]);
    var before := Smoothed(lossSeed, losses, period, n - 1);
    WilderStepPositive(before, losses[n - 1], period);
    SmoothedLastStep(lossSeed, losses, period, n);
    RsiOfFinalAverages(prices, period);
  }

  /** The zone label of the market table: 可買 below 30, 可賣 above 70,
      otherwise 等待. The two tests are consecutive assignments; they cannot
      both fire. */
  method Zone(rsi: real) returns (zone: string)
    ensures zone == "可買" <==> rsi < 30.0
    ensures zone == "可賣" <==> rsi > 70.0
    ensures zone == "等待" <==> 30.0 <= rsi <= 70.0
  {
    zone := "等待";
    if rsi < 30.0 { zone := "可買"; }
    if rsi > 70.0 { zone := "可賣"; }
  }
}
