/**
 * The example API service (api_service_example.py): `/health`, `/predict` over an
 * `ohlcv_data` list of records with `lookback`, `pred_len` and the sampling
 * parameters echoed back, an `amount` in every forecast row, and the ±3 / ±1
 * trading signal.
 */
module ApiService {
  import opened Wrappers
  import opened Errors
  import opened Payload
  import opened Frame
  import opened TimeAxis
  import opened Prediction
  import Signals

  const Required: seq<string> := ["timestamps", "open", "high", "low", "close", "volume"]
  const DefaultLookback := 400
  const DefaultPredLen := 288
  const DefaultTemperature := 1.0
  const DefaultTopP := 0.9
  const DefaultSampleCount := 1

  /** `/health`: always reports healthy; only `predictor_loaded` tells whether the predictor is there. */
  function CheckHealth(predictor: Option<Predictor>): (h: Health)
    ensures h.status == Healthy
    ensures h.predictorLoaded <==> predictor.Some?
  {
    Health(Healthy, predictor.Some?)
  }

  /**
   * A validated `/predict` body. The remaining parameters are read with their
   * defaults but only used (and so only refused) later; None marks a value of a
   * JSON type the service cannot use.
   */
  datatype Request = Request(
    rows: seq<Row>,
    stamps: seq<Stamp>,
    lookback: int,
    predLen: Option<int>,
    temperature: Option<real>,
    topP: Option<real>,
    sampleCount: Option<int>)

  /** The `parameters` object of the response. */
  datatype Parameters = Parameters(lookback: int, predLen: int, temperature: real, topP: real, sampleCount: int)

  datatype Plan = Plan(query: Query, parameters: Parameters)

  /** The successful `/predict` response body. */
  datatype Forecast = Forecast(predictions: seq<ForecastRow>, predictionCount: nat, parameters: Parameters)

  /**
   * `pd.DataFrame(data['ohlcv_data'])` as far as it matters here: a list of records
   * gives its records, JSON null an empty frame, and anything else makes the
   * constructor raise.
   */
  function FrameRows(v: Value): (r: Option<seq<Row>>)
    ensures v.Rows? ==> r == Some(v.rows)
    ensures v.Null? ==> r == Some([])
    ensures r.Some? <==> v.Rows? || v.Null?
  {
    match v
    case Rows(rows) => Some(rows)
    case Null => Some([])
    case _ => None
  }

  /** The body is an object whose `ohlcv_data` makes a frame. */
  predicate HasFrame(body: Option<Body>) {
    body.Some? && "ohlcv_data" in body.value && FrameRows(body.value["ohlcv_data"]).Some?
  }

  /** The records of such a body's frame. */
  function Series(body: Option<Body>): seq<Row>
    requires HasFrame(body)
  {
    FrameRows(body.value["ohlcv_data"]).value
  }

  /** The body makes a frame with every required column and parseable timestamps. */
  predicate SeriesAccepted(body: Option<Body>, parse: Cell -> Option<Stamp>) {
    && HasFrame(body)
    && Missing(Required, Columns(Series(body))) == []
    && ParseColumn(Series(body), "timestamps", parse).Some?
  }

  /**
   * The checks of `/predict` after the predictor check, in source order: the body
   * must be an object (500 otherwise), have `ohlcv_data` (400), make a frame (500),
   * have every required column (400) and parseable timestamps (500: this
   * conversion is not guarded); `len(df) < lookback` needs a number (500) and
   * rejects a short series (400), and `df.iloc[:lookback]` needs an integer (500).
   */
  function Validate(body: Option<Body>, parse: Cell -> Option<Stamp>): (r: Result<Request, Error>)
    ensures r.Failure? ==> r.error.status == 400 || r.error.status == 500
    ensures r.Success? ==> SeriesAccepted(body, parse)
    ensures r.Success? ==>
              var data := body.value;
              && r.value.rows == Series(body)
              && ParseColumn(r.value.rows, "timestamps", parse) == Some(r.value.stamps)
              && IntParam(data, "lookback", DefaultLookback) == Some(r.value.lookback)
              && r.value.lookback <= |r.value.rows|
              && r.value.predLen == IntParam(data, "pred_len", DefaultPredLen)
              && r.value.temperature == RealParam(data, "temperature", DefaultTemperature)
              && r.value.topP == RealParam(data, "top_p", DefaultTopP)
              && r.value.sampleCount == IntParam(data, "sample_count", DefaultSampleCount)
  {
    if body.None? then Failure(ServerError(BodyNotObject))
    else
    var data := body.value;
    :- Need("ohlcv_data" in data, BadRequest(MissingSeriesField));
    var rows :- OrFail(FrameRows(data["ohlcv_data"]), ServerError(SeriesNotTabular));
    var missing := Missing(Required, Columns(rows));
    :- Need(missing == [], BadRequest(MissingColumns(missing)));
    var stamps :- OrFail(ParseColumn(rows, "timestamps", parse), ServerError(BadTimestamp));
    var need :- OrFail(RealParam(data, "lookback", DefaultLookback as real), ServerError(BadParameter("lookback")));
    :- Need(|rows| as real >= need, BadRequest(InsufficientData(need, |rows|)));
    var lookback :- OrFail(IntParam(data, "lookback", DefaultLookback), ServerError(BadParameter("lookback")));
    Success(Request(rows, stamps, lookback,
                    IntParam(data, "pred_len", DefaultPredLen),
                    RealParam(data, "temperature", DefaultTemperature),
                    RealParam(data, "top_p", DefaultTopP),
                    IntParam(data, "sample_count", DefaultSampleCount)))
  }

  /**
   * The predictor query for a validated request: the first `lookback` records cut
   * to OHLCV, their timestamps, `pred_len` future instants and the request's
   * sampling parameters, which are also what the response echoes. The anchor and
   * position 1 are looked up before `date_range` sees a count that is not an integer.
   */
  function Prepare(req: Request): (r: Result<Plan, Error>)
    ensures r.Failure? ==> r.error.status == 500
    ensures r.Success? <==>
              && req.predLen.Some? && FutureAxis(req.stamps, req.lookback, req.predLen.value).Success?
              && req.temperature.Some? && req.topP.Some? && req.sampleCount.Some?
    ensures !AxisPositions(req.stamps, req.lookback) ==> r == Failure(Error(500, PositionOutOfBounds))
    ensures AxisPositions(req.stamps, req.lookback) && req.predLen.None? ==>
              r == Failure(Error(500, BadParameter("pred_len")))
    ensures r.Success? ==>
              var q := r.value.query;
              var p := r.value.parameters;
              && req.predLen == Some(q.predLen)
              && FutureAxis(req.stamps, req.lookback, q.predLen) == Success(q.future)
              && q.window == Window(req.rows, req.lookback)
              && q.history == History(req.stamps, req.lookback)
              && req.temperature == Some(q.temperature)
              && req.topP == Some(q.topP)
              && req.sampleCount == Some(q.sampleCount)
              && p == Parameters(req.lookback, q.predLen, q.temperature, q.topP, q.sampleCount)
  {
    if !AxisPositions(req.stamps, req.lookback) then Failure(ServerError(PositionOutOfBounds))
    else
    var predLen :- OrFail(req.predLen, ServerError(BadParameter("pred_len")));
    var future :- FutureAxis(req.stamps, req.lookback, predLen).MapFailure(ServerError);
    var temperature :- OrFail(req.temperature, ServerError(BadParameter("temperature")));
    var topP :- OrFail(req.topP, ServerError(BadParameter("top_p")));
    var sampleCount :- OrFail(req.sampleCount, ServerError(BadParameter("sample_count")));
    Success(Plan(Query(Window(req.rows, req.lookback), History(req.stamps, req.lookback), future,
                       predLen, temperature, topP, sampleCount),
                 Parameters(req.lookback, predLen, temperature, topP, sampleCount)))
  }

  /** Validation, then preparation of the predictor query. */
  function PlanRequest(body: Option<Body>, parse: Cell -> Option<Stamp>): (r: Result<Plan, Error>)
    ensures r.Failure? ==> r.error.status == 400 || r.error.status == 500
  {
    var req :- Validate(body, parse);
    Prepare(req)
  }

  /**
   * `/predict`: a missing predictor is reported before the body is looked at; then
   * the plan's first failure, the predictor's error, or the predictor's rows paired
   * with the future instants by position, each with its amount (0 when absent),
   * and the parameters the predictor was called with.
   */
  method Predict(predictor: Option<Predictor>, parse: Cell -> Option<Stamp>, body: Option<Body>)
    returns (resp: Result<Forecast, Error>)
    ensures predictor.None? ==> resp == Failure(ServerError(PredictorNotInitialized))
    ensures predictor.Some? && PlanRequest(body, parse).Failure? ==> resp == Failure(PlanRequest(body, parse).error)
    ensures predictor.Some? && PlanRequest(body, parse).Success? ==>
              var plan := PlanRequest(body, parse).value;
              match predictor.value.run(plan.query)
              case Raised(m) => resp == Failure(ServerError(PredictionFailed(m)))
              case Produced(rows) =>
                if |rows| <= |plan.query.future| then
                  && resp.Success?
                  && Paired(resp.value.predictions, rows, plan.query.future, true)
                  && resp.value.predictionCount == |resp.value.predictions|
                  && resp.value.parameters == plan.parameters
                else resp == Failure(ServerError(MorePredictionsThanTimestamps))
  {
    if predictor.None? {
      return Failure(ServerError(PredictorNotInitialized));
    }
    var plan :- PlanRequest(body, parse);
    match predictor.value.run(plan.query)
    case Raised(m) =>
      return Failure(ServerError(PredictionFailed(m)));
    case Produced(rows) =>
      var collected := CollectPredictions(rows, plan.query.future, true);
      if collected.Failure? {
        return Failure(ServerError(collected.error));
      }
      return Success(Forecast(collected.value, |collected.value|, plan.parameters));
  }

  /**
   * The first checks: a body that is not an object raises at `in` (500), one
   * without `ohlcv_data` is a 400, and a value pandas cannot build a frame from is a 500.
   */
  lemma BodyRejected(body: Option<Body>, parse: Cell -> Option<Stamp>)
    ensures body.None? ==> Validate(body, parse) == Failure(Error(500, BodyNotObject))
    ensures body.Some? && "ohlcv_data" !in body.value ==>
              Validate(body, parse) == Failure(Error(400, MissingSeriesField))
    ensures body.Some? && "ohlcv_data" in body.value && !HasFrame(body) ==>
              Validate(body, parse) == Failure(Error(500, SeriesNotTabular))
  {
  }

  /**
   * Once `ohlcv_data` is present and makes a frame, the body is rejected for missing
   * columns exactly when some required column is absent from every record, and the
   * error lists exactly those, in the order timestamps, open, high, low, close,
   * volume; JSON null gives an empty frame, so then all six are missing.
   */
  lemma MissingColumnsRejected(body: Option<Body>, parse: Cell -> Option<Stamp>)
    requires HasFrame(body)
    ensures var r := Validate(body, parse);
            var missing := Missing(Required, Columns(Series(body)));
            && (r.Failure? && r.error.kind.MissingColumns? <==> missing != [])
            && (missing != [] ==> r == Failure(Error(400, MissingColumns(missing))))
            && (Series(body) == [] ==> missing == Required)
  {
    var rows := Series(body);
    var missing := Missing(Required, Columns(rows));
    var r := Validate(body, parse);
    if missing != [] {
      assert r == Failure(Error(400, MissingColumns(missing)));
    } else {
      assert r.Failure? ==> !r.error.kind.MissingColumns?;
    }
    if rows == [] {
      assert Columns(rows) == {};
      MissingAllOfNone(Required);
    }
  }

  /** When no column is present at all, every required column is missing, in order. */
  lemma {:induction false} MissingAllOfNone(required: seq<string>)
    ensures Missing(required, {}) == required
    decreases |required|
  {
    if required != [] {
      MissingAllOfNone(required[1..]);
    }
  }

  /**
   * With every column present, a timestamp the parser refuses is a 500: the
   * conversion is not guarded.
   */
  lemma TimestampsRejected(body: Option<Body>, parse: Cell -> Option<Stamp>)
    ensures HasFrame(body) && Missing(Required, Columns(Series(body))) == []
            && ParseColumn(Series(body), "timestamps", parse).None? ==>
              Validate(body, parse) == Failure(Error(500, BadTimestamp))
  {
  }

  /**
   * After the timestamps: a `lookback` that is not a number raises at the length
   * comparison, and one that is a number but not an integer raises at the slice;
   * each is a 500.
   */
  lemma ParametersRejected(body: Option<Body>, parse: Cell -> Option<Stamp>)
    ensures SeriesAccepted(body, parse) && RealParam(body.value, "lookback", DefaultLookback as real).None? ==>
              Validate(body, parse) == Failure(Error(500, BadParameter("lookback")))
    ensures SeriesAccepted(body, parse)
            && RealParam(body.value, "lookback", DefaultLookback as real).Some?
            && |Series(body)| as real >= RealParam(body.value, "lookback", DefaultLookback as real).value
            && IntParam(body.value, "lookback", DefaultLookback).None? ==>
              Validate(body, parse) == Failure(Error(500, BadParameter("lookback")))
  {
  }

  /**
   * A body that passes the earlier checks but has fewer records than `lookback`
   * (any number) is rejected with 400, the error carrying both counts, before any
   * predictor call.
   */
  lemma ShortSeriesRejected(body: Option<Body>, parse: Cell -> Option<Stamp>, need: real)
    ensures SeriesAccepted(body, parse)
            && RealParam(body.value, "lookback", DefaultLookback as real) == Some(need)
            && (|Series(body)| as real) < need
            ==> && Validate(body, parse) == Failure(Error(400, InsufficientData(need, |Series(body)|)))
                && PlanRequest(body, parse) == Failure(Validate(body, parse).error)
  {
  }

  /**
   * A body that passes every check is accepted: its request holds the records, their
   * timestamps, the integer `lookback` and the other parameters as read with their defaults.
   */
  lemma ValidAccepted(body: Option<Body>, parse: Cell -> Option<Stamp>)
    ensures SeriesAccepted(body, parse)
            && IntParam(body.value, "lookback", DefaultLookback).Some?
            && IntParam(body.value, "lookback", DefaultLookback).value <= |Series(body)| ==>
              var data := body.value;
              Validate(body, parse) == Success(Request(Series(body),
                                                       ParseColumn(Series(body), "timestamps", parse).value,
                                                       IntParam(data, "lookback", DefaultLookback).value,
                                                       IntParam(data, "pred_len", DefaultPredLen),
                                                       RealParam(data, "temperature", DefaultTemperature),
                                                       RealParam(data, "top_p", DefaultTopP),
                                                       IntParam(data, "sample_count", DefaultSampleCount)))
  {
  }

  /**
   * A prepared query for a validated request: exactly pred_len future instants,
   * and for 1 <= lookback the first `lookback` records and timestamps, with future instant i equal
   * to ts[lookback-1] + (i+1) * (ts[1] - ts[0]).
   */
  lemma PreparedQuery(req: Request)
    requires req.lookback <= |req.rows| == |req.stamps|
    requires Prepare(req).Success?
    ensures var q := Prepare(req).value.query;
            && |q.future| == q.predLen == Prepare(req).value.parameters.predLen
            && (1 <= req.lookback ==>
                  && |q.window| == req.lookback
                  && |q.history| == req.lookback
                  && req.stamps[req.lookback - 1].At? && req.stamps[0].At? && req.stamps[1].At?
                  && forall i :: 0 <= i < |q.future| ==>
                       q.future[i] == req.stamps[req.lookback - 1].ns + (i + 1) * (req.stamps[1].ns - req.stamps[0].ns))
  {
    var q := Prepare(req).value.query;
    if 1 <= req.lookback {
      FutureAxisFromWindowEnd(req.stamps, req.lookback, q.predLen);
    }
  }

  /**
   * An accepted body is planned from its validated request, and a body without the
   * optional keys is forecast with lookback 400, pred_len 288, temperature 1.0,
   * top_p 0.9 and one sample.
   */
  lemma AcceptedRequest(body: Option<Body>, parse: Cell -> Option<Stamp>)
    ensures PlanRequest(body, parse).Success? ==>
              && Validate(body, parse).Success?
              && var req := Validate(body, parse).value;
                 && req.lookback <= |req.rows| == |req.stamps|
                 && PlanRequest(body, parse) == Prepare(req)
                 && var data := body.value;
                    var p := PlanRequest(body, parse).value.parameters;
                    && ("lookback" !in data ==> p.lookback == 400)
                    && ("pred_len" !in data ==> p.predLen == 288)
                    && ("temperature" !in data ==> p.temperature == 1.0)
                    && ("top_p" !in data ==> p.topP == 0.9)
                    && ("sample_count" !in data ==> p.sampleCount == 1)
  {
    if PlanRequest(body, parse).Success? {
      var req := Validate(body, parse).value;
      assert ParseColumn(req.rows, "timestamps", parse) == Some(req.stamps);
    }
  }

  /** `generate_signal` of this deployment: thresholds ±3 (strong) and ±1, strict. */
  function GenerateSignal(change: real): (l: Signals.Label)
    ensures l == Signals.StrongBuy <==> change > 3.0
    ensures l == Signals.Buy <==> 1.0 < change <= 3.0
    ensures l == Signals.Hold <==> -1.0 <= change <= 1.0
    ensures l == Signals.Sell <==> -3.0 <= change < -1.0
    ensures l == Signals.StrongSell <==> change < -3.0
  {
    Signals.ClassifyBands(Signals.Thresholds(3.0, 1.0), change);
    Signals.Classify(Signals.Thresholds(3.0, 1.0), change)
  }

  /** The signal report of `/predict/signals`, from the forecast rows and the last observed close. */
  function SignalReport(predictions: seq<ForecastRow>, currentPrice: real): (r: Result<Signals.Report, Kind>)
    ensures r.Success? <==> |predictions| > 0 && currentPrice != 0.0
    ensures r.Success? ==>
              && r.value.overall == GenerateSignal(r.value.day.changePct)
              && r.value.day.price == predictions[|predictions| - 1].close
              && r.value.confidence == Signals.Confidence(r.value.day.changePct)
  {
    Signals.Generate(Signals.Thresholds(3.0, 1.0), predictions, currentPrice)
  }

  /**
   * `/predict/signals` as written: `predict()` returns a bare Response on success and
   * a (Response, status) pair on failure. `pred_response[1]` passes a failure on, but
   * on a bare Response it raises TypeError, which the handler answers with 500.
   */
  function SignalsAsWritten(forecast: Result<Forecast, Error>): (r: Result<Signals.Report, Error>)
    ensures forecast.Failure? ==> r == Failure(forecast.error)
  {
    match forecast
    case Failure(e) => Failure(e)
    case Success(_) => Failure(ServerError(ResponseNotSubscriptable))
  }

  /** As written, no request ever gets signals: even a successful forecast ends in a 500. */
  lemma SignalsNeverReported(forecast: Result<Forecast, Error>)
    ensures SignalsAsWritten(forecast).Failure?
    ensures forecast.Success? ==> SignalsAsWritten(forecast) == Failure(Error(500, ResponseNotSubscriptable))
  {
  }

  /**
   * `/predict/signals` as evidently intended: a failed forecast is passed on, and a
   * successful one becomes the ±3 / ±1 signal report of its rows against the
   * last observed close.
   */
  function PredictSignals(forecast: Result<Forecast, Error>, currentPrice: real): (r: Result<Signals.Report, Error>)
    ensures forecast.Failure? ==> r == Failure(forecast.error)
    ensures forecast.Success? ==> (r.Success? <==> |forecast.value.predictions| > 0 && currentPrice != 0.0)
    ensures forecast.Success? && r.Success? ==>
              && r.value.overall == GenerateSignal(r.value.day.changePct)
              && r.value.day.price == forecast.value.predictions[|forecast.value.predictions| - 1].close
              && r.value.confidence == Signals.Confidence(r.value.day.changePct)
    ensures forecast.Success? && r.Failure? ==> r.error.status == 500
  {
    match forecast
    case Failure(e) => Failure(e)
    case Success(f) => SignalReport(f.predictions, currentPrice).MapFailure(ServerError)
  }
}
