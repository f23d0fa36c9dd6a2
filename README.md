# Kronos forecast service — request-to-forecast pipeline in Dafny

Kronos is exposed as a network service by two small Flask programs, `app.py` (the
simplified prediction service) and `api_service_example.py` (the example API
service). Both take an OHLCV (open/high/low/close/volume) time series as a JSON list
of records, check it, cut the first `lookback` records as context, derive the future
time axis from the series' cadence, call the Kronos predictor, and return one row per
predicted step; a second endpoint turns the forecast into a five-way trading signal
with a confidence value.

This project models that pipeline:

- `Payload` — the JSON body (an object of values; the series is a list of records
  mapping column names to cells) and parameter lookup with defaults (`data.get`).
- `Frame` — the DataFrame operations the services use: the columns of a frame built
  from records (the union of the record keys), the missing-column report, timestamp
  parsing of a column (a record without the key gives NaT), the OHLCV window, and
  Python's rules for positions and slice ends, including negative ones.
- `TimeAxis` — `pd.date_range` with a fixed step (`DateRange`) and the future axis of a
  request: anchor `ts[lookback-1]`, cadence `ts[1] - ts[0]`, `pred_len` instants.
- `Prediction` — the query handed to the predictor, the predictor as an opaque total
  function, and the loop that pairs predictor row i with future instant i.
- `Signals` — horizon selection (rows 11, 71 and the last, falling back to the last),
  percentage change, the classifier with strict nested thresholds as one function
  parameterised by `(strong, weak)`, and the confidence `min(|change_24h| / 5, 1)`.
- `AppService`, `ApiService` — each service's validation order, query preparation,
  `/predict`, `/health`, and its signal thresholds (±2/±0.5 and ±3/±1).
- `Wrappers`, `Errors` — Option/Result and the failure kinds with their HTTP status.

Timestamps are integer nanoseconds; prices and percentages are reals. The predictor
and the timestamp parser are parameters (`Option<Predictor>`, `Cell -> Option<Stamp>`),
not globals. Each `/predict` is a pure planning function (`PlanRequest` = `Validate`
then `Prepare`) followed by a method that calls the predictor and runs the
normalisation loop; the method's postcondition gives the whole response in terms of
the plan and the predictor's output.

Edge cases of the code that the model keeps:

- A `lookback` of 0 or below passes the length check, and `iloc[lookback-1]` then
  counts from the end of the series: for -len(df) < lookback <= 0 the anchor is taken
  from the end and the window is `df.iloc[:lookback]` with Python's slice rules; for
  lookback <= -len(df) the anchor lookup raises IndexError (500).
- The cadence is taken from the first two records of the whole series, and a series
  with fewer than two records fails with an IndexError (500), even when `lookback` is 1.
- `app.py` answers a JSON null or an empty object with 400 (`not data`);
  `api_service_example.py` raises on a null body (`'ohlcv_data' in None`), a 500.
- `app.py` guards the timestamp conversion (400); `api_service_example.py` does not,
  so an unparseable timestamp there is a 500.
- Parameters are refused where the code first uses them: in `app.py`, `pred_hours * 12`
  (line 142) raises for null or an object before the length check; `len(df) < lookback`
  raises for a `lookback` that is not a number, and compares a real one with the length;
  `df.iloc[:lookback]` raises for a real one; the anchor and position 1 are looked up
  before `date_range` refuses a count that is not an integer.
- `api_service_example.py` has no non-empty check: an empty list (or JSON null) makes
  a frame without columns, rejected with all six columns missing.
- `api_service_example.py`'s `/health` always reports `healthy`; only `app.py`'s depends
  on the predictor.
- A predictor that returns more rows than there are future instants makes the loop
  raise (500); fewer rows are returned as they are.
- A zero current price makes the signal computation raise; it is a 500.
- As written, `/predict/signals` answers 500 after every successful forecast (see
  "## Findings"); the signal computation is modelled as intended, on the forecast.

## Model

| member | source | states |
|---|---|---|
| `Frame.Columns` | app.py:114-123 | a column of the frame exists iff at least one record has that key |
| `Frame.Missing` | app.py:122-123 | the report holds exactly the required columns not present, in the required order (a subsequence of the required list) |
| `Frame.MissingMeansAbsentEverywhere` | app.py:122-124 | a required column is reported missing iff no record of the series carries it |
| `Frame.ParseColumn` | app.py:131-137 | the column parses iff every present value parses; then one instant per record, NaT where the key is absent |
| `Frame.PyIndex` | app.py:156-157 | a Python position is valid iff -n <= i < n, and selects i or n + i |
| `Frame.PySliceEnd` | app.py:152-153 | `s[:stop]` keeps `stop` elements when 0 <= stop <= n, all n when stop >= n, n + stop (at least 0) for negative stop |
| `Frame.Window` | app.py:152 | the model input has one entry per kept record, each the record restricted to open/high/low/close/volume |
| `Frame.History` | app.py:153 | the input timestamps are the first `s[:lookback]` timestamps of the series, unchanged |
| `TimeAxis.DateRange` | app.py:158-162 | `date_range` yields exactly `periods` instants, the first being `start` |
| `TimeAxis.DateRangeAt` | app.py:158-162 | instant i of a date range is start + i * freq |
| `TimeAxis.DateRangeSteps` | app.py:158-162 | consecutive instants differ by exactly the step; a positive step gives a strictly increasing axis |
| `TimeAxis.FutureAxis` | app.py:156-162 | a derived axis has exactly pred_len >= 0 instants; when the anchor or position 1 does not exist the failure is IndexError |
| `TimeAxis.FutureAxisSpec` | app.py:156-162 | the axis exists iff anchor and positions 0 and 1 exist and are times and pred_len >= 0; instant i is anchor + (i+1) * (ts[1] - ts[0]) |
| `TimeAxis.FutureAxisSteps` | app.py:157-162 | consecutive instants of a derived axis differ by the cadence ts[1] - ts[0], and the axis strictly increases when it is positive |
| `TimeAxis.FutureAxisFromWindowEnd` | api_service_example.py:107-113 | for 1 <= lookback <= length the anchor is ts[lookback-1], the last instant of the window |
| `Prediction.CollectPredictions` | app.py:179-188 | succeeds iff the predictor returned no more rows than future instants; output row i is predictor row i at future instant i, one per predictor row |
| `Prediction.NormaliseRow` | api_service_example.py:129-138 | an output row copies the five predicted values and its instant; with amounts, the predictor's amount or 0 when it has none |
| `Signals.Classify` | app.py:241-251 | whatever the thresholds, STRONG_BUY iff change > strong, and each other label lies on its side of the thresholds the top-down comparisons passed |
| `Signals.ClassifyBands` | app.py:241-251 | with 0 <= weak <= strong each label is exactly one band; a change equal to a threshold falls in the milder band |
| `Signals.ClassifyMonotone` | app.py:241-251 | a larger change never yields a more bearish label |
| `Signals.ClassifySymmetric` | api_service_example.py:199-209 | negating the change mirrors the label (BUY/SELL, STRONG_BUY/STRONG_SELL, HOLD fixed) |
| `Signals.ClassifyOnto` | api_service_example.py:199-209 | with 0 <= weak < strong all five labels occur |
| `Signals.ChangePct` | app.py:236-238 | for a positive current price the change is positive iff the prediction is above it, negative iff below, zero when equal |
| `Signals.Confidence` | app.py:261 | confidence lies in [0, 1], is 1 iff abs(change) >= 5, and is abs(change) / 5 below that |
| `Signals.HorizonIndex` | app.py:231-233 | the horizon reads row `offset` iff the forecast is longer than `offset`, otherwise the last row |
| `Signals.Generate` | app.py:228-262 | empty forecast and zero price fail (in that order); otherwise 1h/6h/24h prices from rows 11/71/last with fallback, overall signal = 24h signal, confidence in [0, 1] |
| `Signals.GenerateHorizons` | api_service_example.py:189-219 | each horizon's change and label follow from its price; a forecast of at most 72 rows prices 6h like 24h, of at most 12 rows 1h too |
| `AppService.CheckHealth` | app.py:68-75 | status is healthy iff the predictor is loaded, and `predictor_loaded` says whether it is |
| `AppService.Validate` | app.py:91-153 | failures are 400 or 500; an accepted body has a non-empty `kline_data` list with all six columns, parsed timestamps, a multipliable `pred_hours`, and an integer `lookback` no larger than the length |
| `AppService.Prepare` | app.py:139-176 | preparation succeeds iff pred_hours is an integer and the axis exists; a missing anchor or position 1 fails before a bad pred_hours; the query has pred_hours * 12 future instants, the OHLCV window and timestamps of the first `lookback` records, T = 1.0, top_p = 0.9, one sample |
| `AppService.Predict` | app.py:84-198 | no predictor gives 500 before the body is read; otherwise the plan's error, the predictor's error (500), too many predictor rows (500), or the rows paired by position with the count and pred_hours |
| `AppService.BodyRejected` | app.py:91-110 | a null or empty body, a missing `kline_data`, and a `kline_data` that is not a non-empty list are each answered with 400 and that kind |
| `AppService.MissingColumnsRejected` | app.py:121-128 | once `kline_data` is a non-empty list, the body is rejected for missing columns iff some are missing, with status 400 and exactly that list |
| `AppService.TimestampsRejected` | app.py:130-137 | with all columns present, an unparseable timestamp is answered with 400 |
| `AppService.ParametersRejected` | app.py:139-153 | a null or object `pred_hours` (500) is refused before `lookback`; a non-numeric `lookback` (500) before the length check; a real `lookback` that passes it (500) at the slice |
| `AppService.ShortSeriesRejected` | app.py:139-149 | after the earlier checks, a length below the numeric `lookback` gives 400 carrying both `lookback` and the length |
| `AppService.ValidAccepted` | app.py:91-153 | a body passing every check is accepted with its records, timestamps, integer `lookback` and `pred_hours` value |
| `AppService.PreparedQuery` | app.py:151-162 | the axis has pred_hours * 12 instants; for lookback >= 1 the window and the timestamps have `lookback` entries and instant i is ts[lookback-1] + (i+1) * (ts[1] - ts[0]) |
| `AppService.AcceptedRequest` | app.py:139-149 | an accepted body has as many timestamps as records and at least `lookback` of them; without `pred_hours` the axis has 288 instants |
| `AppService.GenerateSignal` | app.py:241-251 | STRONG_BUY iff change > 2, BUY iff 0.5 < change <= 2, HOLD iff -0.5 <= change <= 0.5, SELL iff -2 <= change < -0.5, STRONG_SELL iff change < -2 |
| `AppService.SignalReport` | app.py:228-262 | the report exists iff the forecast is non-empty and the price non-zero; overall signal is the ±2/±0.5 label of the 24h change; 24h price is the last close |
| `ApiService.CheckHealth` | api_service_example.py:45-52 | status is always healthy; `predictor_loaded` says whether the predictor is loaded |
| `ApiService.FrameRows` | api_service_example.py:73-74 | a list of records gives its records, JSON null an empty frame, anything else fails |
| `ApiService.Validate` | api_service_example.py:64-104 | failures are 400 or 500; an accepted body has `ohlcv_data` making a frame with all six columns, parsed timestamps, an integer `lookback` no larger than the length, and the other parameters read with their defaults |
| `ApiService.Prepare` | api_service_example.py:102-125 | preparation succeeds iff pred_len is an integer, the axis exists, temperature and top_p are numbers and sample_count is an integer; a missing anchor or position 1 fails before a bad pred_len; the query has pred_len future instants, the OHLCV window and timestamps of the first `lookback` records and the request's sampling parameters, which are also the echoed parameters |
| `ApiService.Predict` | api_service_example.py:54-152 | no predictor gives 500 before the body is read; otherwise the plan's error, the predictor's error, too many rows, or rows paired by position with amount, the count and the parameters passed to the predictor |
| `ApiService.BodyRejected` | api_service_example.py:64-74 | a null body is a 500, a missing `ohlcv_data` a 400, and a value pandas cannot build a frame from a 500 |
| `ApiService.MissingColumnsRejected` | api_service_example.py:73-83 | the body is rejected for missing columns iff some are missing, with 400 and exactly that list; an empty frame misses all six |
| `ApiService.MissingAllOfNone` | api_service_example.py:77-78 | when no column is present every required column is reported, in order |
| `ApiService.TimestampsRejected` | api_service_example.py:85-86 | with all columns present, an unparseable timestamp is a 500 |
| `ApiService.ParametersRejected` | api_service_example.py:89-104 | a non-numeric `lookback` is a 500 at the length check, a real one that passes it a 500 at the slice |
| `ApiService.ShortSeriesRejected` | api_service_example.py:95-100 | after the earlier checks, a length below the numeric `lookback` gives 400 with both counts, and nothing after validation runs |
| `ApiService.ValidAccepted` | api_service_example.py:64-104 | a body passing every check is accepted with its records, timestamps, integer `lookback` and the other parameters as read with their defaults |
| `ApiService.PreparedQuery` | api_service_example.py:102-113 | the axis has exactly pred_len instants (the echoed pred_len); for lookback >= 1 the window and the timestamps have `lookback` entries and instant i is ts[lookback-1] + (i+1) * (ts[1] - ts[0]) |
| `ApiService.AcceptedRequest` | api_service_example.py:88-93 | an accepted body's absent parameters default to lookback 400, pred_len 288, temperature 1.0, top_p 0.9, sample_count 1 |
| `ApiService.GenerateSignal` | api_service_example.py:199-209 | STRONG_BUY iff change > 3, BUY iff 1 < change <= 3, HOLD iff -1 <= change <= 1, SELL iff -3 <= change < -1, STRONG_SELL iff change < -3 |
| `ApiService.SignalReport` | api_service_example.py:186-220 | the report exists iff the forecast is non-empty and the price non-zero; overall signal is the ±3/±1 label of the 24h change; 24h price is the last close |
| `AppService.SignalsNeverReported` | app.py:215-217 | as written, `/predict/signals` never answers with signals: a failed forecast is passed on and a successful one becomes a 500 |
| `AppService.PredictSignals` | app.py:213-269 | as intended: a failed forecast is passed on; a successful one gives signals iff it has rows and the price is non-zero, with the ±2/±0.5 overall label of the 24h change and the last close as 24h price |
| `ApiService.SignalsNeverReported` | api_service_example.py:175-177 | as written, `/predict/signals` never answers with signals: a failed forecast is passed on and a successful one becomes a 500 |
| `ApiService.PredictSignals` | api_service_example.py:175-227 | as intended: a failed forecast is passed on; a successful one gives signals iff it has rows and the price is non-zero, with the ±3/±1 overall label of the 24h change and the last close as 24h price |
| `Payload.IntParam` | app.py:140-141 | an absent key gives the default, an integer value itself, any other value is refused |
| `Payload.RealParam` | api_service_example.py:91-92 | an absent key gives the default; an integer or a real gives its value as a number, any other value is refused |

## Left out

- HTTP plumbing: Flask routing, `jsonify`, `request.get_json`, CORS, and the text of error messages; an error is its status and a kind carrying the values the message names (the missing columns, lookback and length, the predictor's message).
- The catch-all handlers are modelled only as the 500 failures of the operations that can raise inside them.
- `init_predictor`: environment variables, device selection and weight download. The predictor is passed in as `Option<Predictor>`.
- The predictor's inference is an opaque function of its query.
- The current close that `/predict/signals` reads from the raw body (`kline_data[-1]['close']`, `ohlcv_data[-1]['close']`) is a parameter of `PredictSignals`; an empty list or a missing `close` there (500) is not modelled, and neither is the api's second predictor check before `predict()`.
- pandas parsing is abstracted. Timestamp parsing is a per-value parser given as a parameter, so pandas' column-wide format inference is not captured. ISO formatting of output instants is not modelled either.
- TimeAxis.FutureAxis: instants are unbounded integers, so pandas' int64 nanosecond range (about the years 1677 to 2262) is not modelled. A count or cadence that carries `last + diff` or an instant of `date_range` out of that range raises OverflowError or OutOfBoundsDatetime in the source (500); the model builds the axis and calls the predictor.
- A zero cadence is not special-cased: the model gives a constant axis, and pandas' handling of a zero step is not modelled.
- A real `pred_hours` or `pred_len` is refused (500) where `date_range` reads the count. pandas 2 truncates a real count with a deprecation warning instead; later versions raise.
- A `temperature` or `top_p` that is not a number, or a `sample_count` that is not an integer, is refused (500) just before the predictor call. In the source these values are first used inside `predictor.predict`, so its failure is also a 500 and only the error kind differs. A real `sample_count` such as 2.0 is handed to the predictor and echoed; what the predictor does with it is not modelled.
- Among `date_range`'s own refusals (a NaT start or step, a negative count) the model checks NaT first; both are 500.
- JSON booleans are Python integers (`True * 12 == 12`), but the model counts them with strings and other lists as `Other`, refused where a number is needed.
- A request body that is JSON but not an object (a list, a string, a number, a boolean) is not modelled; the model's body is the decoded JSON object or null. A body that cannot be decoded as JSON, or is not sent as JSON, raises inside the handler's `try` and is a 500 in both services.
- Records are maps from column names to cells, so a series list holding non-record items is not modelled. In the API service, a series value other than a list or null counts as one pandas cannot build a frame from; a dict of columns, which pandas would accept, is not modelled.
- `datetime.now()` response timestamps, logging and `print` are left out: they depend on the clock or are side effects.
- The static `/models` catalogue is left out: it is constant data.
- `client_example.py` is left out: it is an HTTP client with random sample data.
- IEEE-754 float behaviour (NaN, rounding, `float(...)` conversion) is not modelled. Prices and percentages are reals, and a record without a price column's key is simply absent from its window entry.
- Concurrency and the process-wide predictor lifecycle are not modelled. Each request is a pure function of the predictor handle and the body.

## Findings

| source | as written | input that shows it | evidently intended | confidence | as-written member | corrected member |
|---|---|---|---|---|---|---|
| app.py:215-217 | `pred_response[1]` indexes what `predict()` returns, but on success that is a bare Flask Response, which is not subscriptable: TypeError, answered with 500 | any body for which `/predict` succeeds | compare the status of the forecast and, on success, compute the ±2/±0.5 signals | high (not executed) | `AppService.SignalsAsWritten` (with `AppService.SignalsNeverReported`) | `AppService.PredictSignals` |
| api_service_example.py:175-177 | the same indexing of the bare Response returned on success | any body for which `/predict` succeeds | compare the status of the forecast and, on success, compute the ±3/±1 signals | high (not executed) | `ApiService.SignalsAsWritten` (with `ApiService.SignalsNeverReported`) | `ApiService.PredictSignals` |
