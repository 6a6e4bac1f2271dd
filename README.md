# Pump detector: a Dafny model of the detection cycle

This project models the core of a Binance futures "pump" detector. Each cycle
works through four steps:

1. It resolves the universe of USDT-quoted futures pairs. The list is fetched
   once and cached for the life of the process.
2. It pulls the 24-hour ticker snapshot and keeps the rows of those pairs whose
   volume is numeric.
3. It scores every row. Rows with 14 or more hourly closes get an indicator
   score (RSI, stochastic RSI, MACD). Rows with less history get a
   volume-and-price fallback score.
4. It emits a `BUY` signal for every row whose score is above 0.79 and whose
   price change lies strictly between -2% and 1%. Each signal goes into the
   process-wide log `detected_signals` and into the cycle's batch. A non-empty
   batch is sent as one notification.

Modules, one per component:

- `Outcomes` (outcomes.dfy): `Option` and `Fetch`. A `Fetch` is the outcome of
  one HTTP request: `Failed`, or the decoded payload.
- `Universe` (universe.dfy): the exchange-info comprehension `ExtractUsdt`, and
  the class `PairCache` that owns `usdt_pairs_cache`.
- `Market` (market.dfy): the ticker filter, the close-price extraction and the
  mean volume.
- `Sentiment` (sentiment.dfy): both scorers, over `real`.
- `Telegram` (telegram.dfy): the notification sink, which records every message
  it is given.
- `Detector` (detector.dfy): signals, the row loop as a specification function
  (`Judge`, `Collect`, `ScanRows`), message rendering, and the class
  `PumpDetector` that owns `detected_signals`.

Inputs from outside the process are parameters:

- the exchange-info and ticker responses (`Fetch` values);
- the klines response for each symbol;
- the indicator library, as a function from a close series to its last readings;
- the clock, as one ISO-8601 string per row position;
- number formatting, as a `Formatter`.

`float()` and `pd.to_numeric` become `Option<real>`: `None` is a value that
does not convert.

Behaviour of the code worth stating outright:

- The fallback score has a single boost of 0.1, given exactly when the volume
  spike exceeds 2; the price change earns no boost.
- Neither scorer guards against a zero average volume.
- The fallback score is never negative, because every term of its sum is
  non-negative; `ByVolume` proves it lies in [0, 1].
- An error is not always contained within the cycle. When `float()` raises on a
  row's price change, the exception leaves `detect_pumps`. That row and the
  rows after it are not scored. Signals from earlier rows stay in the log, and
  no notification is sent. The model reports this as `Raised`.

## Model

| member | source | states |
|---|---|---|
| `Universe.ExtractUsdt` | pump_detector.py:43-46 | The comprehension fails exactly when an entry lacks `quoteAsset`, or is USDT-quoted and lacks `symbol`. On success, its symbols are exactly those of the USDT-quoted entries, and there are at most as many as entries. |
| `Universe.ExtractUsdtAppend` | pump_detector.py:43-46 | The comprehension keeps the exchange's order: extracting from `a + b` gives the extraction of `a` followed by the extraction of `b`. It fails if either part fails. |
| `Universe.LoadedExactly` | pump_detector.py:39-51 | A fetch attempt yields no cache value exactly when the request fails or an entry is unreadable. Otherwise the value holds exactly the USDT-quoted symbols. |
| `Universe.Loaded` | pump_detector.py:39-51 | One fetch attempt: a failed request yields no list, and a loaded list has at most one symbol per exchange entry. |
| `Universe.PairsAfter` | pump_detector.py:33-51 | The pair list after one call: a set cache is returned as is; with an unset cache, a failed attempt yields `[]`. |
| `Universe.PairCache.constructor` | pump_detector.py:29 | The cache starts unset and no request has been made. |
| `Universe.PairCache.FetchUsdtPairs` | pump_detector.py:33-51 | A set cache is returned unchanged, with no request. An unset cache costs one request. Success stores the extracted list and returns it. Any failure returns `[]` and leaves the cache unset, so the next call fetches again. |
| `Market.KeepTickers` | pump_detector.py:60-62 | Keeps exactly the rows whose symbol is in the pair list and whose volume is numeric, as tickers with that volume. It never adds rows. |
| `Market.KeepTickersAppend` | pump_detector.py:60-62 | The filter preserves relative row order: filtering `a + b` gives the filtered `a` followed by the filtered `b`. |
| `Market.EmptyUniverseKeepsNothing` | pump_detector.py:60 | With an empty pair list, which is what a failed universe fetch returns, no row is kept. |
| `Market.FetchTickers` | pump_detector.py:54-67 | A failed request yields no rows. Every kept symbol is in the pair list. |
| `Market.ClosePrices` | pump_detector.py:81 | Fails exactly when some candle has no numeric field at index 4. Otherwise it gives one close per candle, in order, each equal to that candle's field 4. |
| `Market.FetchHistory` | pump_detector.py:70-85 | Gives the closes of a successful response. A failed request or an unparsable candle gives the empty series. |
| `Market.SumVolume` | pump_detector.py:146 | The sum of a non-empty list of positive volumes is positive. |
| `Market.MeanVolume` | pump_detector.py:146 | The mean volume is positive whenever the total volume is (in particular when every volume is), so the scorers' division is defined. |
| `Sentiment.Clamp01` | pump_detector.py:97 | `max(0, min(1, x))` lies in [0, 1]. It equals `x` inside that range, 0 below it and 1 above it. |
| `Sentiment.VolumeSpike` | pump_detector.py:126 | The spike times the average is the excess volume. The spike exceeds 2 exactly when the volume exceeds three times the average. |
| `Sentiment.VolumeSentiment` | pump_detector.py:127 | The volume sentiment is the volume-to-average ratio halved and clamped to [0, 1]. |
| `Sentiment.VolumeSentimentMonotone` | pump_detector.py:97 | The volume sentiment never decreases as volume grows. It is 1 at twice the average or more, and 0 at zero volume or less. |
| `Sentiment.PriceSentiment` | pump_detector.py:128 | The price sentiment lies in [0, 1]. |
| `Sentiment.ConfidenceBoost` | pump_detector.py:129 | The boost is 0.1 exactly when the volume exceeds three times the average, and 0 exactly when it does not. |
| `Sentiment.ByVolume` | pump_detector.py:122-133 | With a positive average volume, the fallback score lies in [0, 1]. |
| `Sentiment.FallbackPassNeedsSpike` | pump_detector.py:126-130 | A fallback score above 0.79 with a price change below 1% requires a volume above three times the average. |
| `Sentiment.FallbackBoundWithoutBoost` | pump_detector.py:126-130 | With a price change below 1% and a volume at most three times the average, the boost is 0 and the fallback sum, hence the score, stays below 0.703. |
| `Sentiment.StochRsiSentiment` | pump_detector.py:101 | The sub-score is 1 exactly below 20, 0 exactly above 80, and 0.5 exactly in [20, 80]. |
| `Sentiment.MacdSentiment` | pump_detector.py:104 | The sub-score is 1 exactly when MACD is above its signal line, and 0 otherwise. |
| `Sentiment.RsiSentiment` | pump_detector.py:106 | The sub-score is 1 exactly below 30, 0 exactly above 70, and 0.5 exactly in [30, 70]. |
| `Sentiment.IndicatorScore` | pump_detector.py:111-116 | The weighted sum 0.4/0.2/0.2/0.2 lies in [0, 1]. |
| `Sentiment.IndicatorPassNeedsVolume` | pump_detector.py:111-116 | An indicator score above 0.79 requires a volume above 0.95 of the average. |
| `Sentiment.MarketSentiment` | pump_detector.py:88-120 | Any score lies in [0, 1]. The score is None exactly when there are at least 14 closes and the indicator library raises. |
| `Sentiment.FallbackWithShortHistory` | pump_detector.py:91-93 | With fewer than 14 closes, the score is exactly the fallback score. |
| `Sentiment.PriceIgnoredWithHistory` | pump_detector.py:108-116 | With 14 or more closes, the price change has no effect on the score. |
| `Detector.Passes` | pump_detector.py:162 | The emission filter: a score above 0.79 and a price change strictly inside (-2, 1). The truthiness test on the score adds nothing: a passing score is never 0, and a zero score never passes. |
| `Detector.RowScore` | pump_detector.py:153-161 | A row's score is computed from the closes of its own klines response, its volume, its price change and the mean volume, and lies in [0, 1] when present. |
| `Detector.Judge` | pump_detector.py:150-172 | A row raises exactly when its price change does not convert. It emits exactly when its score passes the filter (a score, above 0.79, price change in (-2, 1)). Its signal is `BUY` and carries the row's symbol, volume, price change, score and the row's timestamp. |
| `Detector.Collect` | pump_detector.py:149-172 | The row loop as a fold from the first row: it stops at the first row that raises, and appends one signal per emitting row. It never has more signals than rows, and it raises only on a non-empty row list. |
| `Detector.Emitted` | pump_detector.py:162-172 | An independent filter read from the first row: the signal of each emitting row, in row order. It has at most one signal per row. |
| `Detector.EmittedSnoc` | pump_detector.py:162-172 | The filter read from the last row agrees with the one read from the first: the last row adds its signal, if it emits, at the end. |
| `Detector.CollectIsEmitted` | pump_detector.py:171-172 | A loop that does not raise collects exactly the signal of each emitting row, once each, in row order, and nothing else. |
| `Detector.CollectSound` | pump_detector.py:149-172 | Every signal of the loop is the signal of one of its rows. There are never more signals than rows. |
| `Detector.CollectRaisedIff` | pump_detector.py:151 | The loop raises exactly when one of its rows raises. |
| `Detector.CollectComplete` | pump_detector.py:162-172 | A loop that does not raise keeps the signal of every emitting row. |
| `Detector.CollectStops` | pump_detector.py:151 | Once a prefix of the rows has raised, the later rows change nothing. |
| `Detector.CollectPrefix` | pump_detector.py:171-172 | Signals are appended in row order: the signals of a prefix of the rows are a prefix of all the signals. |
| `Detector.ScanExact` | pump_detector.py:162-172 | Every signal of a cycle has score > 0.79, price change in (-2, 1) and action `BUY`, and comes from a row that passes the filter. A cycle that does not raise has the signal of every passing row. |
| `Detector.ScanRaisedIff` | pump_detector.py:151 | A cycle's loop raises exactly when some row's price change does not convert. |
| `Detector.BlockLines` | pump_detector.py:184-190 | The six lines of one signal's block, as the f-strings write them with the emoji dropped: symbol, price change with `%`, volume, score to two decimals, action and time. Each of the six lines ends with a newline. |
| `Detector.BlockEndsWithBlankLine` | pump_detector.py:190 | Each block (`Block`, its six lines joined) ends with a blank line, which separates it from the next block. |
| `Detector.Message` | pump_detector.py:182-190 | The notification is the header "Pump Signals Detected:" and a blank line (emoji dropped), followed by the blocks. The text always starts with that header. |
| `Detector.BlockAt` | pump_detector.py:182-191 | The message has one block per signal, in order. The block of signal i starts after the header and the blocks of the signals before it. |
| `Detector.BuildMessage` | pump_detector.py:182-191 | The text built with `+=` is the header followed by the block of every signal, in order. |
| `Detector.PumpDetector.constructor` | pump_detector.py:28-29 | The process starts with an empty log, an unset cache, no request made and no message sent. |
| `Detector.PumpDetector.SendBatchToTelegram` | pump_detector.py:178-192 | An empty batch sends nothing. A non-empty batch sends exactly one message: the rendered batch. |
| `Detector.PumpDetector.ScoreRows` | pump_detector.py:149-172 | The loop appends to the log exactly the batch it builds. The batch is what the specification loop `Collect` yields for the rows, stopping at the first row that raises. |
| `Detector.PumpDetector.DetectPumps` | pump_detector.py:136-175 | With no ticker data, the log and the sink are unchanged. Otherwise the log grows by exactly the cycle's signals, in row order, with earlier entries kept. One message is sent if and only if the loop finished with a non-empty batch. The universe cache follows `FetchUsdtPairs`. The only demand on the input is a positive mean volume over the kept rows. |
| `Telegram.Sink.SendMessage` | telegram_bot.py:12-18 | Each call records exactly one message after those already sent. |

## Left out

- HTTP requests (exchange info, ticker, klines, the Telegram POST) are not modelled. Their responses are parameters, and the sink only records messages. The Telegram status code, which the caller ignores, is not modelled.
- `talib.RSI` and `talib.MACD` are not modelled, nor the NumPy min/max rescale into the stochastic RSI. They are foreign numerics: their last values are opaque `Readings`, and an exception there is `None`.
- IEEE floating point is not modelled. Scores are exact `real`s, so there is no rounding, NaN or infinity. A NaN price change, NaN indicator values and a zero mean volume (which the source divides by without a guard) are outside the model.
- Detector.PumpDetector.DetectPumps: requires only that the kept rows have a positive total volume, i.e. a positive mean; a zero mean is excluded because the source divides by it without a guard and gets infinities or NaN, which `real` cannot represent. Zero-volume rows are otherwise allowed.
- pandas DataFrame mechanics are not modelled: column presence, dtype coercion and `iterrows`. A ticker row is a symbol, a coerced volume and the outcome of `float()` on its price change.
- The threading lock, the `while True` / `time.sleep` scheduler and `batch_processor` are not modelled: they concern concurrency and timing. So is the fact that an exception from `detect_pumps` ends the scheduler thread.
- The Flask endpoint in app.py is not modelled: it is web plumbing that returns the log.
- Configuration loading is not modelled. The thresholds the source reads from config are unused by the core, and the endpoints and keys are plumbing.
- The emoji in the notification text are left out, and the line labels are kept as plain text. `str()` of a float and `:.2f` are opaque `Formatter` functions. `datetime.now().isoformat()` is an opaque clock value per row position.
- Log output (`print`) is not modelled.
