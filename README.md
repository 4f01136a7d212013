# Crypto dashboard core in Dafny

This project models the computational core of a set of browser dashboards for
cryptocurrency markets, together with the edge relay in front of two exchange
APIs:

- **The edge relay** (`worker.js`, module `Relay`). It answers a CORS
  preflight. It rejects a request whose `target` is not `binance` or `okx`,
  or whose `path` is not on that target's allow-list. Otherwise it builds
  the upstream URL `base + path + ("?" + qs when qs is non-empty)`. It passes
  the upstream status and body through with CORS headers. A thrown fetch
  becomes a 502 with `{error: message}`, and so does an upstream answer
  with a null-body status (101, 204, 205, 304), because re-wrapping it
  throws inside the same `try`. The upstream fetch is a parameter of
  `Handle` (a function from URL to outcome). `Route` states the forwarded
  URL exactly, so each contract of `Handle` says which URL is fetched.
- **The market-table RSI** (`script.js`, module `WilderRsi`):
  `calculateRSI` with its two loops, `average`, and the zone label
  可買 / 等待 / 可賣.
  - The first loop becomes a method proved against the sequences `Gains`
    and `Losses`.
  - The smoothing loop becomes a method proved against the recursive
    function `Smoothed`.
  - The RSI is proved to lie in [0, 100], and to be 50 for at most
    `period + 1` prices. With at least `period + 2` prices, it is proved to
    be 100 on a series that never falls and 0 on a series that always
    falls.
- **The windowed RSI and trade bands** (`app.js`, module `WindowRsi`). The
  model covers:
  - the 14-step window sums, including the `if (i <= 0) continue` skip;
  - the RSI if-chain;
  - `Math.min(...)` / `Math.max(...)` over a possibly empty list, modelled
    with `±Infinity`;
  - the four band bounds, the action label 考慮買入 / 持有 / 考慮賣出, and
    the spot-price default `?.usd || 0`.
- **The daily balance series** (`script.js`, module `DailyBalance`). The
  transactions are sorted by time in place with an insertion sort. They are
  folded into a running balance per day, and the day keys are listed in
  order. Each balance is proved to be the sum of every transaction up to the
  end of that day, whatever order the transactions arrived in.
- **Module `RsiVariants`** compares the two RSI definitions on flat, rising
  and falling series.

Prices are Dafny `real`s. Every branch of the source is kept, but IEEE
rounding is not modelled. Satoshi amounts and times are `int`s.

Three behaviours of the code depart from the usual RSI conventions; the model
follows the code:

- **Short series, Wilder RSI.** The usual convention is a neutral 50 for
  fewer than `period + 1` points. `calculateRSI` also returns 50 for exactly
  `period + 1` points, because its smoothing loop then never runs
  (`WilderRsi.Rsi`).
- **Short series, windowed RSI.** The windowed RSI of `app.js` has no
  short-series default: a rising two-point series gives 100
  (`WindowRsi.RisingIs100`).
- **Flat series.** A flat series of at least `period + 2` prices gives 100
  under `calculateRSI`, because a zero difference counts as a gain and the
  zero loss average makes `rs` infinite (`WilderRsi.NeverFallingIs100`
  covers flat series). The windowed RSI gives 50 for a
  flat series of any length (`RsiVariants.FlatSeriesDisagree`,
  `WindowRsi.FlatIs50`).

## Model

| member | source | states |
|---|---|---|
| Relay.Json | worker.js:66-71 | the error response carries the given status, the body `{error}`, exactly the three CORS headers plus `content-type: application/json`, and origin `*` |
| Relay.ParamOr | worker.js:25-27 | `get(name) \|\| fallback`: the fallback is taken exactly when the parameter is absent or empty; otherwise the parameter itself is returned |
| Relay.Route | worker.js:21-38 | a preflight exactly for OPTIONS; an unknown or missing target is rejected with "target not allowed"; a binance or okx target is forwarded or rejected with its own message; a request is forwarded exactly when (target, defaulted path) is one of the four whitelisted pairs; the forwarded URL is the target's base, then the defaulted path, then `?qs` only when qs is non-empty |
| Relay.Handle | worker.js:20-54 | every response has origin `*`; OPTIONS gives 200 with the CORS headers and no body; a rejection gives 400 with the reason; an upstream answer passes its status and body through, with its content type or `application/json`, unless its status is one of 101, 204, 205 and 304, which gives 502 with the Response constructor's error message; a thrown fetch gives 502 with the message |
| Relay.MissingPathRejected | worker.js:26-37 | with no path (or an empty one) the default "/" is on neither allow-list, so the request is always answered 400 |
| Relay.OwnKeyGuard | worker.js:28-30 | the corrected target guard passes exactly the targets that are own keys of ALLOW |
| Relay.InheritedTargetPassesGuard | worker.js:28-38 | the guard as written lets `target=toString` through, although it names no upstream and no path check applies; `Route` rejects it |
| Relay.SplitQueryJoin | worker.js:38 | a path without `?` followed by the optional `?qs` splits back into that path and qs |
| Relay.ParseBuiltUrl | worker.js:38 | an upstream URL on an allowed base parses back into its target, path and qs |
| Relay.ForwardedUrlRoundTrip | worker.js:25-38 | every forwarded URL determines the request's target, defaulted path and defaulted qs |
| WilderRsi.Sum | script.js:160 | the left-fold sum of non-negative values is non-negative |
| WilderRsi.SumBetween | script.js:160 | the sum of n values lying in [lo, hi] lies between n copies of lo and n copies of hi |
| WilderRsi.Average | script.js:158-161 | `average` of non-negative values is non-negative |
| WilderRsi.AverageBetween | script.js:158-161 | the empty array averages to 0; a non-empty one averages to a value between any bounds of its elements |
| WilderRsi.Gains | script.js:133-144 | one gain per consecutive pair of prices, each non-negative |
| WilderRsi.Losses | script.js:133-144 | one loss per consecutive pair of prices, each non-negative |
| WilderRsi.StepsExtend | script.js:135-143 | each iteration of the first loop pushes exactly one gain and one loss for the newest difference |
| WilderRsi.StepSplitsDifference | script.js:136-143 | each difference splits into a gain and a loss, at most one of them non-zero, whose difference is the price change; no change gives two zeros |
| WilderRsi.Smoothed | script.js:149-151 | Wilder smoothing of non-negative values from a non-negative seed stays non-negative |
| WilderRsi.WilderStepNonNeg | script.js:150-151 | one smoothing step keeps an average non-negative |
| WilderRsi.WilderStepBetween | script.js:150-151 | one smoothing step is a weighted mean: it stays within any bounds of the old average and the new value |
| WilderRsi.SmoothedBetween | script.js:149-151 | the smoothed average stays within any bounds of its seed and of every value folded in |
| WilderRsi.WilderStepPositive | script.js:150-151 | folding a positive value into a non-negative average gives a positive average |
| WilderRsi.RsiOf | script.js:152-153 | the RSI lies in [0, 100]; it is 100 exactly when the loss average is 0; it is 0 exactly when the gain average is 0 and the loss average positive; otherwise it satisfies rsi·(g + l) = 100·g |
| WilderRsi.LoopRsi | script.js:148-155 | the value left in `rsi` by the smoothing loop lies in [0, 100] |
| WilderRsi.Rsi | script.js:131-156 | `calculateRSI` lies in [0, 100], and it is 50 for at most period + 1 prices |
| WilderRsi.CalculateRsi | script.js:131-156 | the two-loop procedure computes `Rsi` and so lies in [0, 100] |
| WilderRsi.SmoothingLoop | script.js:146-155 | the smoothing loop leaves the RSI of the final smoothed averages, or 50 when it does not run |
| WilderRsi.NeverFallingIs100 | script.js:135-153 | a series that never falls, with at least period + 2 prices, has RSI 100 |
| WilderRsi.FallingSteps | script.js:135-143 | a strictly falling series has only zero gains and only positive losses |
| WilderRsi.AlwaysFallingIs0 | script.js:131-156 | a strictly falling series, with at least period + 2 prices, has RSI 0 |
| WilderRsi.Zone | script.js:106-108 | 可買 exactly below 30, 可賣 exactly above 70, 等待 exactly in [30, 70] |
| WindowRsi.GainSum | app.js:104-109 | the window's accumulated gains are non-negative |
| WindowRsi.LossSum | app.js:104-109 | the window's accumulated losses are non-negative |
| WindowRsi.RsiOf | app.js:112-115 | the RSI lies in [0, 100]; it is 50 exactly when the two averages are equal; it is 100 exactly when there are no losses and some gains; it is 0 exactly when there are no gains and some losses; otherwise it satisfies rsi·(g + l) = 100·g |
| WindowRsi.Rsi | app.js:103-115 | the windowed RSI of any close series lies in [0, 100] |
| WindowRsi.ComputeRsi | app.js:103-115 | the loop with its `i <= 0` skip computes `Rsi` |
| WindowRsi.NetMove | app.js:105-108 | gains minus losses over a range of steps is the net price change across it |
| WindowRsi.WindowNetMove | app.js:105-109 | the window's gains minus losses is the change from the first close in the window to the last |
| WindowRsi.SumsFrom | app.js:105-106 | starting the loop at a non-positive index is the same as starting at 1 |
| WindowRsi.SumsShift | app.js:105-108 | prepending history shifts the window without changing its sums |
| WindowRsi.HistoryIgnored | app.js:105-115 | with at least 15 closes, only the last 15 matter: prepending any history leaves the RSI unchanged |
| WindowRsi.FlatSumsZero | app.js:107-108 | a flat series accumulates no gains and no losses |
| WindowRsi.FlatIs50 | app.js:112-115 | a flat series has RSI 50 |
| WindowRsi.RisingSums | app.js:107-108 | strictly rising steps give positive gains and no losses |
| WindowRsi.FallingSums | app.js:107-108 | strictly falling steps give no gains and positive losses |
| WindowRsi.RisingIs100 | app.js:103-115 | a strictly rising series of two or more closes has RSI 100 |
| WindowRsi.FallingIs0 | app.js:103-115 | a strictly falling series of two or more closes has RSI 0 |
| WindowRsi.DivisorCancels | app.js:110-115 | the common divisor 14 cancels: with some losses, rsi·(gains + losses) = 100·gains on the raw sums |
| WindowRsi.MathMin | app.js:117 | `Math.min(...)` is +Infinity exactly for an empty list; otherwise it is a member of the list and a lower bound on it |
| WindowRsi.MathMax | app.js:118 | `Math.max(...)` is -Infinity exactly for an empty list; otherwise it is a member of the list and an upper bound on it |
| WindowRsi.ZoneBands | app.js:117-123 | with no closes all four bounds are the spot price; otherwise the outer bounds are the lowest and highest close; both bands span 20% of the range; the bounds are ordered |
| WindowRsi.Action | app.js:124-126 | 考慮買入 exactly below 30, 考慮賣出 exactly above 70, 持有 exactly in [30, 70] |
| WindowRsi.SpotPrice | app.js:97 | a missing quote gives 0; a present one is used as is |
| WindowRsi.PriceRow | app.js:96-126 | a table row holds the spot price, the windowed RSI, the bands and the action label, which agree with one another as above |
| DailyBalance.DayKeyMonotone | script.js:37-38 | a later time never falls on an earlier day |
| DailyBalance.BalanceThroughAppend | script.js:33-39 | the balance through a day splits over a concatenation of transaction lists |
| DailyBalance.BalanceThroughPermutation | script.js:29-40 | the balance through a day does not depend on the order of the transactions |
| DailyBalance.BalanceThroughAll | script.js:33-40 | when every transaction falls on or before a day, the balance through it is the running total |
| DailyBalance.Swap | script.js:29 | exchanges two transactions and keeps the multiset |
| DailyBalance.SortByTime | script.js:29 | `txs.sort((a, b) => a.time - b.time)`: the array ends sorted by time and is a permutation of what it was |
| DailyBalance.Accumulate | script.js:32-40 | over sorted transactions, the map has one key per day with a transaction, and the value stored for that day is the balance through that day |
| DailyBalance.Least | script.js:41 | a non-empty set of day keys has a least member |
| DailyBalance.SortedKeys | script.js:41 | the labels are strictly increasing and are exactly the map's keys |
| DailyBalance.BalanceSeries | script.js:29-42 | the array ends sorted and permuted; the labels are the transaction days in increasing order; each balance is the balance through its day in BTC (satoshis / 1e8), whatever the original order |
| RsiVariants.FlatSeriesDisagree | script.js:137-153 | on a flat series of 16 or more prices `calculateRSI` gives 100 while the windowed RSI gives 50 |
| RsiVariants.RisingSeriesAgree | script.js:131-156 | both RSIs give 100 on a strictly rising series of 16 or more prices |
| RsiVariants.FallingSeriesAgree | script.js:131-156 | both RSIs give 0 on a strictly falling series of 16 or more prices |

## Left out

- Network, DOM and charting code, including `fetchFNG`, the other fetch-and-render helpers and `analysis.js`. These are I/O and view glue. The fetched values enter the model as parameters: the closes, the quote and the transaction list.
- The edge cache (`cf: { cacheTtl: 30, cacheEverything: true }`) and the `accept` request header. They change no status, header or body the handler produces.
- Relay.Handle: the message of the TypeError that the Response constructor throws for a null-body status is a parameter (`bodyError`), because its text belongs to the runtime. A status outside 200-599 other than 101, which would throw a RangeError, is not modelled: an upstream HTTP answer reaching the handler has a final status in 200-599.
- URL parsing and percent-decoding of the query. Parameters enter already decoded; an absent one is `None`.
- Case-insensitivity of header names. Headers are a map keyed by the exact strings the source writes.
- The source's regular expressions are kept as literal strings: each is anchored at both ends and has no metacharacter, so it matches exactly one path.
- Relay.Route: checks `target` against the own keys of ALLOW. As written, `in` also accepts inherited keys such as `toString` (see Findings), and the forwarded URL for such a target is not modelled.
- IEEE-754 behaviour: rounding, `NaN`, `Infinity` arising from arithmetic, and `0.2` not being exact in binary. Reals stand in for numbers.
- `toFixed` and `toLocaleString` formatting of the table cells.
- WilderRsi.CalculateRsi: requires `period >= 1`. With period 0 the source divides by zero into `Infinity`/`NaN`. Every call site passes 14.
- WilderRsi.Rsi: requires `period >= 1`, for the same reason.
- WilderRsi.SmoothingLoop: requires `period >= 1`, for the same reason.
- A `null` or non-array `prices` argument. The `!prices` guard and `average`'s `!arr` guard are not modelled, because the model's sequences always exist.
- `data.txs || []` and `k.prices || []`. An absent list enters the model as the empty sequence.
- WindowRsi.SpotPrice: `|| 0` also replaces a quoted price of exactly 0 or `NaN`; the model takes a present quote as is.
- DailyBalance.DayKey: a day is `time / 86400`, the UTC day number, in place of the ISO string `YYYY-MM-DD`. For years 0 to 9999 the strings sort in the same order as the day numbers.
- Times outside the range a JS `Date` can represent are not modelled.
- Balances divided by 1e8 are exact reals.
- DailyBalance.SortByTime: does not state stability, which `Array.prototype.sort` guarantees. No result depends on it: `BalanceSeries` is proved the same for every order of the transactions.
- The engine's own sort algorithm is not modelled; an insertion sort stands in for it.

## Findings

| source | as written | input that shows it | evidently intended | confidence | as-written member | corrected member |
|---|---|---|---|---|---|---|
| worker.js:28 | `!(target in ALLOW)` also finds keys inherited from `Object.prototype` | `?target=toString&path=/x` passes the target guard. Neither path check applies, because the target is neither `binance` nor `okx`, so the request goes on to fetch from `ALLOW["toString"]` | only `binance` and `okx` pass the target guard | high; not executed | Relay.InheritedTargetPassesGuard | Relay.OwnKeyGuard |
