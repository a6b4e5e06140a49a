# Crypto bullish dashboard: indicators, scoring and alert book-keeping

This project models the computational core of a single-session market-signal
dashboard. The dashboard (`app.py`) fetches candles for the top coins of a
price feed. It computes the Relative Strength Index (RSI) and two exponential
moving averages (EMA 9 and EMA 21) over the closing prices, and gives each
coin a bullish score from 0 to 3. It then collects the coins that reach 3.
Given the bot credentials, each such coin gets at most one successful chat
alert per session. A failed send is tried again on the next rerun while the
coin still scores 3.

The Dafny model has four modules:

- `Wrappers` (`wrappers.dfy`): `Option`, Python's `None` beside a value.
- `Indicators` (`indicators.dfy`): `calculate_rsi` and `calculate_ema`, each
  written as a method with the loop of `app.py`. Each method is proved equal to
  a specification function (`RsiSpec`, `EmaSpec`). The RSI series drawn under
  the price chart is modelled here too.
- `Signals` (`signals.dfy`): the guard and the score of `analyze_coin`, the
  signal panel of the selected coin, and the loop that collects the score-3
  analyses.
- `Session` (`session.dfy`): a `SessionState` class. It holds the notified
  coin set and the "bot connected" flag that the script keeps in the session
  between reruns. It also models the alert pass and the one-shot connection
  message.

Prices, RSI, EMA and the smoothing factor are exact reals. Every network
result is a parameter:

- the price feed's reply is a list of `Candle` rows, and an empty list stands
  for a failed fetch;
- the coin listing is a list of coin ids;
- each message send is a boolean outcome.

Behaviour of `app.py` that is easy to misread:

- A price difference of zero goes into `losses`, as `abs(0) = 0`. It is not
  dropped. `ConstantPricesAreZeroLosses` states this.
- `calculate_rsi` has no length requirement. For fewer than two prices it
  returns 100. `RsiSpec` is total.
- `analyze_coin` accepts 14 rows, which give only 13 deltas. The guard is
  `len(data) < RSI_PERIOD`, not `RSI_PERIOD + 1`.
- The selected-coin panel (app.py:113-156) has no length guard. It scores any
  non-empty data.
- `gains[-14:]` and `losses[-14:]` take the last 14 gains and the last 14
  losses separately, not the deltas of the last 14 steps. The fixed divisor
  14 cancels in the ratio, so the RSI is `100 * G / (G + L)` of those two
  window sums (`RsiFromWindowSums`).

## Model

| member | source | states |
|---|---|---|
| `Indicators.Gains` | app.py:25-31 | every entry of `gains` is a positive delta |
| `Indicators.Losses` | app.py:25-31 | every entry of `losses` is non-negative |
| `Indicators.LastWindow` | app.py:32-33 | the `[-14:]` slice: the last 14 entries, or all of them. `AvgLossZeroIff` and `RsiFromWindowSums` state the averages in terms of it |
| `Indicators.WindowAverage` | app.py:32-33 | the window sum over the fixed 14, or 0 for an empty list. `AveragesOfWindowSums` states this for both averages, the gain sum proved non-negative |
| `Indicators.AvgGain` | app.py:32 | the gain average is non-negative |
| `Indicators.AvgLoss` | app.py:33 | the loss average is non-negative |
| `Indicators.RsiSpec` | app.py:24-37 | the value `calculate_rsi` returns. `RsiInRange` bounds it to [0, 100] with 100 exactly when the loss average is 0; `AvgLossZeroIff` and `RsiFromWindowSums` characterise it by the window sums |
| `Indicators.CalculateRsi` | app.py:24-37 | the loop-and-append implementation returns `RsiSpec(prices)`, a value in [0, 100] |
| `Indicators.SplitStep` | app.py:26-31 | one turn of the delta loop appends to exactly one list: a positive delta to gains, any other delta as its magnitude to losses |
| `Indicators.SplitAccountsForEveryDelta` | app.py:25-31 | gains and losses together hold one entry per consecutive pair (0 for an empty list), and sum(gains) - sum(losses) equals last price minus first price |
| `Indicators.AvgLossZeroIff` | app.py:33-35 | the loss average is 0 exactly when every loss inside the 14-entry window is 0, which includes no losses at all |
| `Indicators.RsiInRange` | app.py:32-37 | the RSI lies in [0, 100], and it equals 100 exactly when the loss average is 0 |
| `Indicators.RsiFromWindowSums` | app.py:32-37 | the fixed divisor cancels: RSI = 100·G/(G+L) for the window sums G, L when L > 0, and 100 when L = 0 |
| `Indicators.LossesZeroWhenNonDecreasing` | app.py:26-31 | prices that never fall produce only zero losses |
| `Indicators.RsiOfNonDecreasingPrices` | app.py:24-35 | prices that never fall give an RSI of exactly 100, including fewer than two prices |
| `Indicators.ConstantPricesAreZeroLosses` | app.py:26-35 | constant prices give no gains, one zero loss per consecutive pair, and an RSI of 100 |
| `Indicators.SampleSeriesRsi` | app.py:24-37 | the closes 100, 102, 101, …, 122, 121 (15 points) give an RSI of exactly 2600/31 |
| `Indicators.RsiSeries` | app.py:138 | the plotted series as written, entry i built from the first i closes. `RsiSeriesShape` and `RsiSeriesLagsCurrentRsi` state its properties |
| `Indicators.RsiSeriesShape` | app.py:138 | the plotted series has one entry per close; entry i is None exactly when i ≤ 14, and otherwise holds the RSI of the first i closes, which lies in [0, 100] |
| `Indicators.RsiSeriesLagsCurrentRsi` | app.py:138 | for fifteen closes of 1 followed by 0, the last plotted entry is 100 while the RSI of all closes is 0 |
| `Indicators.RsiSeriesAligned` | app.py:138 | the corrected series, entry i built from the closes up to and including close i. `RsiSeriesAlignedEndsAtCurrentRsi` states its properties |
| `Indicators.RsiSeriesAlignedEndsAtCurrentRsi` | app.py:138 | the aligned series has one entry per close and the same data threshold, its values lie in [0, 100], and its last entry is the RSI of all closes |
| `Indicators.Smoothing` | app.py:41 | k = 2/(period+1) is positive, and it is at most 1 when period ≥ 1 |
| `Indicators.EmaSpec` | app.py:39-46 | one EMA value per price, and the first value is the first price |
| `Indicators.CalculateEma` | app.py:39-46 | the running-`ema` loop returns exactly `EmaSpec(prices, period)` |
| `Indicators.EmaPrefix` | app.py:43-46 | the EMA of the first n prices is the first n values of the EMA: later prices never change earlier values |
| `Indicators.EmaAt` | app.py:44 | for i ≥ 1, value i is price i · k + value i−1 · (1 − k) |
| `Indicators.EmaBetweenPriceAndPrevious` | app.py:41-45 | for period ≥ 1, each later EMA value lies between the current price and the previous EMA value |
| `Indicators.EmaWithinPriceBounds` | app.py:39-46 | for period ≥ 1, any bounds that hold every price also hold every EMA value, so every value lies in [min(prices), max(prices)] |
| `Indicators.EmaOfConstant` | app.py:39-46 | a constant price list has a constant EMA, for every period |
| `Signals.Closes` | app.py:64 | the closing prices, `item[4]` of each row, in row order. `AnalysisContract` ties the record's price to the last row's close |
| `Signals.ScoreOf` | app.py:69-75 | the score is at most 3, is 3 exactly when all three conditions hold, and is 0 exactly when none holds |
| `Signals.Score` | app.py:69-75 | the score of an RSI, two EMA values and a price is at most 3, and it is 3 exactly when RSI < 30, short EMA > long EMA and price > short EMA |
| `Signals.ScoreMonotone` | app.py:69-75 | turning any one condition on, with the other two fixed, adds exactly one point |
| `Signals.Analyze` | app.py:60-84 | what `analyze_coin` returns. `AnalysisContract` states its guard and the fields of the record |
| `Signals.AnalyzeCoin` | app.py:60-84 | the guard, the indicator calls and the `score += 1` steps return `Analyze(coinId, data)` |
| `Signals.AnalysisContract` | app.py:60-84 | the result is None exactly when there are fewer than 14 rows (this includes empty data). Otherwise the record has this coin's id, the RSI of the closes (in [0, 100]), the last EMA 9 and EMA 21 values and the last close, and a score ≤ 3 that equals 3 exactly when all three tests hold |
| `Signals.PanelView` | app.py:113-156 | what the selected-coin panel shows. `PanelAgreesWithAnalysis` states when it appears and how it agrees with `analyze_coin` |
| `Signals.SelectedCoinPanel` | app.py:113-156 | the selected-coin panel returns `PanelView(data)`: nothing for empty data, and otherwise the current price, the RSI, both EMA lists and the score from the same three tests |
| `Signals.PanelAgreesWithAnalysis` | app.py:113-156 | the panel appears exactly for non-empty data, with EMA lists one per close seeded by the first close. With at least 14 rows it agrees with `analyze_coin` on RSI, price, last EMAs and score |
| `Signals.KeepBullish` | app.py:163-167 | the score-3 analyses of a list of optional analyses, in order. `KeepBullishIsOrderedFilter` characterises it as an ordered filter |
| `Signals.Bullish` | app.py:163-167 | `bullish_results` for the listed coins and their fetched data. `BullishIsOrderedFilter` states its contents and order |
| `Signals.CollectBullish` | app.py:163-167 | the loop over the listed coins returns `Bullish(coins, feeds)` |
| `Signals.KeepBullishIsOrderedFilter` | app.py:163-167 | the kept analyses sit at strictly increasing positions, one per entry. Those positions are exactly the ones whose analysis exists and scores 3 |
| `Signals.BullishIsOrderedFilter` | app.py:163-167 | `bullish_results` holds exactly the score-3 analyses in the order of `coins`, each with the id of the coin it was computed for |
| `Session.SessionState.constructor` | app.py:176-177 | a new session has nothing notified and no connection announced |
| `Session.SessionState.AnnounceConnection` | app.py:99-106 | the announcement is attempted only with both credentials and while the flag is unset. The flag is set exactly by a successful attempt and never cleared. The notified set is unchanged |
| `Session.SessionState.NotifyBullish` | app.py:175-197 | with credentials and a non-empty bullish list, one alert goes to each coin of `new_coins` in order, and the set afterwards is the old set plus the coins whose send succeeded. Otherwise nothing is sent and nothing changes. The connection flag is untouched |
| `Session.NewCoins` | app.py:179 | `new_coins`. `NewCoinsAreUnnotified` and `NewCoinsEmptyWhenAllNotified` state its contents |
| `Session.NewCoinsAreUnnotified` | app.py:179 | `new_coins` holds exactly the bullish results whose coin id is not already notified |
| `Session.Delivered` | app.py:192-194 | the ids added to `notified_coins` by one pass. `DeliveredIffSucceeded` states which ones |
| `Session.DeliveredIffSucceeded` | app.py:192-194 | a coin id is added exactly when one of its sends returned true |
| `Session.NotifiedGrowsOnlyByDeliveredNewCoins` | app.py:176-197 | one alert pass never removes a coin from the set. Every coin it adds is a coin of `new_coins` whose send returned true, and so one of the bullish coins |
| `Session.RerunAlertsOnlyFailures` | app.py:176-197 | a second pass over unchanged results alerts exactly the coins whose first send failed, and nothing when every send succeeded |
| `Session.NewCoinsEmptyWhenAllNotified` | app.py:179 | when every bullish coin is already notified, `new_coins` is empty |
| `Session.TwoPassesAlertOnce` | app.py:175-197 | with credentials, two reruns with the same bullish coin alert it once: the first pass alerts it, and after a successful send the second alerts nothing |
| `Session.ConnectionAnnouncedOnce` | app.py:99-106 | the first rerun attempts the announcement. The second attempts it again exactly when the first send failed. The flag ends set exactly when one of the two sends succeeded |

## Left out

- HTTP calls: `get_coin_ohlc`, `get_top_coins` and `send_telegram_message` (app.py:16-22, 48-58, 86-93) talk to external services. Their results are inputs: candle rows (empty on a non-200 reply), coin ids, and one boolean per send.
- The Telegram credentials come from two sidebar text inputs (app.py:13-14). They are string parameters, and "present" means non-empty, as Python's truthiness has it.
- Streamlit widgets, page layout, the coin selection box and its `if selected_coin` test, DataFrame construction, `sort_values` and the matplotlib charts are display code. The sort is over rows that all have score 3.
- The alert and connection message texts and their `:.4f` / `:.2f` formatting are presentation only.
- IEEE-754 floating point: prices, k, RSI and EMA are exact reals. Rounding, and so the exact test `avg_loss == 0` under rounding, is not modelled. Python returns the integer 100 on one RSI path; the model returns the real 100.
- Timestamp conversion with `pd.to_datetime` takes no part in the computation. `Candle.timestamp` is carried and never read.
- The `notified_coins` set is created lazily on the first alert pass (app.py:176-177). The model creates it empty with the session, which behaves the same.
- `Indicators.CalculateEma`: requires a non-empty price list, so the IndexError that `prices[0]` (app.py:40) raises on an empty list is not modelled. Neither call site reaches it: app.py:62 demands at least 14 rows and app.py:114 non-empty data. `Indicators.EmaSpec` has the same requirement.
- `Indicators.CalculateEma`: `period` is a natural number. Python would also accept other negative integers and fail only for -1. The script passes only 9 and 21.
- The selected coin's panel and `analyze_coin` fetch the same coin separately. The model takes the two fetched lists as separate inputs.

## Findings

| source | as written | input that shows it | evidently intended | confidence | as-written member | corrected member |
|---|---|---|---|---|---|---|
| app.py:138 | entry i of the plotted RSI series is `calculate_rsi(prices[:i])`, the RSI of the closes before candle i, so the plotted line lags its candles by one and never shows the RSI of all closes | fifteen closes of 1.0 followed by 0.0: the last plotted entry is 100, while the RSI shown in the metric (app.py:122) is 0 | entry i is the RSI of the closes up to and including candle i, once more than 14 closes are known | medium, not executed | `Indicators.RsiSeriesLagsCurrentRsi` | `Indicators.RsiSeriesAlignedEndsAtCurrentRsi` |
