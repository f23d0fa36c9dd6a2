/**
 * The simplified forecasting service (app.py): `/health`, `/predict` over a
 * `kline_data` list of records with `lookback` and `pred_hours` (twelve
 * five-minute steps per hour), and the ±2 / ±0.5 trading signal.
 */
module AppService {
  import opened Wrappers
  import opened Errors
  import opened Payload
  import opened Frame
  import opened TimeAxis
  import opened Prediction
  import Signals

  const Required: seq<string> := ["timestamp", "open", "high", "low", "close", "volume"]
  const DefaultLookback := 400
  const DefaultPredHours := 24
  const StepsPerHour := 12

  /** `/health`: healthy exactly when the predictor is loaded. */
  function CheckHealth(predictor: Option<Predictor>): (h: Health)
    ensures h.predictorLoaded <==> predictor.Some?
    ensures h.status == Healthy <==> predictor.Some?
  {
    Health(if predictor.Some? then Healthy else Unhealthy, predictor.Some?)
  }

  /**
   * A validated `/predict` body. `pred_hours` is only used as a count by
   * `date_range`; None marks a value that is not an integer.
   */
  datatype Request = Request(rows: seq<Row>, stamps: seq<Stamp>, lookback: int, predHours: Option<int>)

  /** Everything `/predict` settles before calling the predictor. */
  datatype Plan = Plan(query: Query, predHours: int)

  /** The successful `/predict` response body. */
  datatype Forecast = Forecast(predictions: seq<ForecastRow>, predictionCount: nat, predHours: int)

  /** The body is an object whose `kline_data` is a list of records. */
  predicate HasSeries(body: Option<Body>) {
    body.Some? && "kline_data" in body.value && body.value["kline_data"].Rows?
  }

  function Series(body: Option<Body>): seq<Row>
    requires HasSeries(body)
  {
    body.value["kline_data"].rows
  }

  /** The body passes every check up to and including the timestamp conversion. */
  predicate SeriesAccepted(body: Option<Body>, parse: Cell -> Option<Stamp>) {
    && HasSeries(body) && body.value != map[] && |Series(body)| > 0
    && Missing(Required, Columns(Series(body))) == []
    && ParseColumn(Series(body), "timestamp", parse).Some?
  }

  /**
   * The checks of `/predict` after the predictor check, in source order: no JSON,
   * no `kline_data`, not a non-empty list, missing columns, bad timestamps (all
   * 400); then `pred_hours * 12`, which raises for null or an object (500); then
   * `len(df) < lookback`, which needs a number (500) and rejects a short series
   * (400); then `df.iloc[:lookback]`, which needs an integer (500).
   */
  function Validate(body: Option<Body>, parse: Cell -> Option<Stamp>): (r: Result<Request, Error>)
    ensures r.Failure? ==> r.error.status == 400 || r.error.status == 500
    ensures r.Success? ==> SeriesAccepted(body, parse)
    ensures r.Success? ==>
              && r.value.rows == Series(body)
              && ParseColumn(r.value.rows, "timestamp", parse) == Some(r.value.stamps)
              && Multipliable(body.value, "pred_hours")
              && IntParam(body.value, "lookback", DefaultLookback) == Some(r.value.lookback)
              && r.value.lookback <= |r.value.rows|
              && r.value.predHours == IntParam(body.value, "pred_hours", DefaultPredHours)
  {
    if body.None? || body.value == map[] then Failure(BadRequest(NoJsonBody))
    else
    var data := body.value;
    :- Need("kline_data" in data, BadRequest(MissingSeriesField));
    :- Need(data["kline_data"].Rows? && |data["kline_data"].rows| > 0, BadRequest(SeriesNotNonEmptyList));
    var rows := data["kline_data"].rows;
    var missing := Missing(Required, Columns(rows));
    :- Need(missing == [], BadRequest(MissingColumns(missing)));
    var stamps :- OrFail(ParseColumn(rows, "timestamp", parse), BadRequest(BadTimestamp));
    :- Need(Multipliable(data, "pred_hours"), ServerError(BadParameter("pred_hours")));
    var need :- OrFail(RealParam(data, "lookback", DefaultLookback as real), ServerError(BadParameter("lookback")));
    :- Need(|rows| as real >= need, BadRequest(InsufficientData(need, |rows|)));
    var lookback :- OrFail(IntParam(data, "lookback", DefaultLookback), ServerError(BadParameter("lookback")));
    Success(Request(rows, stamps, lookback, IntParam(data, "pred_hours", DefaultPredHours)))
  }

  /**
   * The predictor query for a validated request: the first `lookback` records cut
   * to OHLCV, their timestamps, pred_hours * 12 future instants, and the fixed
   * sampling parameters T = 1.0, top_p = 0.9, one sample. The anchor and position 1
   * are looked up before `date_range` sees a count that is not an integer.
   */
  function Prepare(req: Request): (r: Result<Plan, Error>)
    ensures r.Failure? ==> r.error.status == 500
    ensures r.Success? <==>
              req.predHours.Some? && FutureAxis(req.stamps, req.lookback, req.predHours.value * StepsPerHour).Success?
    ensures !AxisPositions(req.stamps, req.lookback) ==> r == Failure(Error(500, PositionOutOfBounds))
    ensures AxisPositions(req.stamps, req.lookback) && req.predHours.None? ==>
              r == Failure(Error(500, BadParameter("pred_hours")))
    ensures r.Success? ==>
              var q := r.value.query;
              && req.predHours == Some(r.value.predHours)
              && q.predLen == r.value.predHours * StepsPerHour
              && FutureAxis(req.stamps, req.lookback, q.predLen) == Success(q.future)
              && q.window == Window(req.rows, req.lookback)
              && q.history == History(req.stamps, req.lookback)
              && q.temperature == 1.0 && q.topP == 0.9 && q.sampleCount == 1
  {
    if !AxisPositions(req.stamps, req.lookback) then Failure(ServerError(PositionOutOfBounds))
    else
    var predHours :- OrFail(req.predHours, ServerError(BadParameter("pred_hours")));
    var predLen := predHours * StepsPerHour;
    var future :- FutureAxis(req.stamps, req.lookback, predLen).MapFailure(ServerError);
    Success(Plan(Query(Window(req.rows, req.lookback), History(req.stamps, req.lookback), future, predLen, 1.0, 0.9, 1),
                 predHours))
  }

  /** Validation, then preparation of the predictor query. */
  function PlanRequest(body: Option<Body>, parse: Cell -> Option<Stamp>): (r: Result<Plan, Error>)
    ensures r.Failure? ==> r.error.status == 400 || r.error.status == 500
  {
    var req :- Validate(body, parse);
    Prepare(req)
  }

  /**
   * `/predict`: a missing predictor is reported before the body is looked at; then
   * the plan's first failure, the predictor's error, or the predictor's rows paired
   * with the future instants by position.
   */
  method Predict(predictor: Option<Predictor>, parse: Cell -> Option<Stamp>, body: Option<Body>)
    returns (resp: Result<Forecast, Error>)
    ensures predictor.None? ==> resp == Failure(ServerError(PredictorNotInitialized))
    ensures predictor.Some? && PlanRequest(body, parse).Failure? ==> resp == Failure(PlanRequest(body, parse).error)
    ensures predictor.Some? && PlanRequest(body, parse).Success? ==>
              var plan := PlanRequest(body, parse).value;
              match predictor.value.run(plan.query)
              case Raised(m) => resp == Failure(ServerError(PredictionFailed(m)))
              case Produced(rows) =>
                if |rows| <= |plan.query.future| then
                  && resp.Success?
                  && Paired(resp.value.predictions, rows, plan.query.future, false)
                  && resp.value.predictionCount == |resp.value.predictions|
                  && resp.value.predHours == plan.predHours
                else resp == Failure(ServerError(MorePredictionsThanTimestamps))
  {
    if predictor.None? {
      return Failure(ServerError(PredictorNotInitialized));
    }
    var plan :- PlanRequest(body, parse);
    match predictor.value.run(plan.query)
    case Raised(m) =>
      return Failure(ServerError(PredictionFailed(m)));
    case Produced(rows) =>
      var collected := CollectPredictions(rows, plan.query.future, false);
      if collected.Failure? {
        return Failure(ServerError(collected.error));
      }
      return Success(Forecast(collected.value, |collected.value|, plan.predHours));
  }

  /**
   * The first three checks: no JSON (null or an empty object), no `kline_data`, and
   * a `kline_data` that is not a non-empty list are each answered with 400.
   */
  lemma BodyRejected(body: Option<Body>, parse: Cell -> Option<Stamp>)
    ensures body.None? || body.value == map[] ==> Validate(body, parse) == Failure(Error(400, NoJsonBody))
    ensures body.Some? && body.value != map[] && "kline_data" !in body.value ==>
              Validate(body, parse) == Failure(Error(400, MissingSeriesField))
    ensures body.Some? && body.value != map[] && "kline_data" in body.value
            && !(HasSeries(body) && |Series(body)| > 0) ==>
              Validate(body, parse) == Failure(Error(400, SeriesNotNonEmptyList))
  {
  }

  /**
   * Once `kline_data` is a non-empty list, the body is rejected for missing columns
   * exactly when some required column is absent from every record, and the error
   * lists exactly those columns, in the order timestamp, open, high, low, close, volume.
   */
  lemma MissingColumnsRejected(body: Option<Body>, parse: Cell -> Option<Stamp>)
    requires HasSeries(body) && body.value != map[] && |Series(body)| > 0
    ensures var r := Validate(body, parse);
            var missing := Missing(Required, Columns(Series(body)));
            && (r.Failure? && r.error.kind.MissingColumns? <==> missing != [])
            && (missing != [] ==> r == Failure(Error(400, MissingColumns(missing))))
  {
    var rows := Series(body);
    var missing := Missing(Required, Columns(rows));
    var r := Validate(body, parse);
    if missing != [] {
      assert r == Failure(Error(400, MissingColumns(missing)));
    } else {
      assert r.Failure? ==> !r.error.kind.MissingColumns?;
    }
  }

  /** With every column present, a timestamp the parser refuses is answered with 400. */
  lemma TimestampsRejected(body: Option<Body>, parse: Cell -> Option<Stamp>)
    ensures HasSeries(body) && body.value != map[] && |Series(body)| > 0
            && Missing(Required, Columns(Series(body))) == []
            && ParseColumn(Series(body), "timestamp", parse).None? ==>
              Validate(body, parse) == Failure(Error(400, BadTimestamp))
  {
  }

  /**
   * After the timestamps: a null or object `pred_hours` raises at `* 12`, a
   * `lookback` that is not a number raises at the length comparison, and one that
   * is a number but not an integer raises at the slice; each is a 500.
   */
  lemma ParametersRejected(body: Option<Body>, parse: Cell -> Option<Stamp>)
    ensures SeriesAccepted(body, parse) && !Multipliable(body.value, "pred_hours") ==>
              Validate(body, parse) == Failure(Error(500, BadParameter("pred_hours")))
    ensures SeriesAccepted(body, parse) && Multipliable(body.value, "pred_hours")
            && RealParam(body.value, "lookback", DefaultLookback as real).None? ==>
              Validate(body, parse) == Failure(Error(500, BadParameter("lookback")))
    ensures SeriesAccepted(body, parse) && Multipliable(body.value, "pred_hours")
            && RealParam(body.value, "lookback", DefaultLookback as real).Some?
            && |Series(body)| as real >= RealParam(body.value, "lookback", DefaultLookback as real).value
            && IntParam(body.value, "lookback", DefaultLookback).None? ==>
              Validate(body, parse) == Failure(Error(500, BadParameter("lookback")))
  {
  }

  /**
   * A body that passes the earlier checks but has fewer records than `lookback`
   * (any number) is rejected with 400, the error carrying both counts.
   */
  lemma ShortSeriesRejected(body: Option<Body>, parse: Cell -> Option<Stamp>, need: real)
    ensures SeriesAccepted(body, parse) && Multipliable(body.value, "pred_hours")
            && RealParam(body.value, "lookback", DefaultLookback as real) == Some(need)
            && (|Series(body)| as real) < need
            ==> Validate(body, parse) == Failure(Error(400, InsufficientData(need, |Series(body)|)))
  {
  }

  /**
   * A body that passes every check is accepted: its request holds the records,
   * their timestamps, the integer `lookback` and the `pred_hours` value.
   */
  lemma ValidAccepted(body: Option<Body>, parse: Cell -> Option<Stamp>)
    ensures SeriesAccepted(body, parse) && Multipliable(body.value, "pred_hours")
            && IntParam(body.value, "lookback", DefaultLookback).Some?
            && IntParam(body.value, "lookback", DefaultLookback).value <= |Series(body)| ==>
              Validate(body, parse) == Success(Request(Series(body),
                                                       ParseColumn(Series(body), "timestamp", parse).value,
                                                       IntParam(body.value, "lookback", DefaultLookback).value,
                                                       IntParam(body.value, "pred_hours", DefaultPredHours)))
  {
  }

  /**
   * A prepared query for a validated request: pred_hours * 12 future instants, and
   * for 1 <= lookback the first `lookback` records and timestamps, with future
   * instant i equal to ts[lookback-1] + (i+1) * (ts[1] - ts[0]).
   */
  lemma PreparedQuery(req: Request)
    requires req.lookback <= |req.rows| == |req.stamps|
    requires Prepare(req).Success?
    ensures var q := Prepare(req).value.query;
            && |q.future| == Prepare(req).value.predHours * StepsPerHour
            && (1 <= req.lookback ==>
                  && |q.window| == req.lookback
                  && |q.history| == req.lookback
                  && req.stamps[req.lookback - 1].At? && req.stamps[0].At? && req.stamps[1].At?
                  && forall i :: 0 <= i < |q.future| ==>
                       q.future[i] == req.stamps[req.lookback - 1].ns + (i + 1) * (req.stamps[1].ns - req.stamps[0].ns))
  {
    var q := Prepare(req).value.query;
    if 1 <= req.lookback {
      FutureAxisFromWindowEnd(req.stamps, req.lookback, q.predLen);
    }
  }

  /**
   * An accepted body is planned from its validated request (whose timestamps match
   * its records one to one), and without `pred_hours` the horizon is 24 * 12 = 288 steps.
   */
  lemma AcceptedRequest(body: Option<Body>, parse: Cell -> Option<Stamp>)
    ensures PlanRequest(body, parse).Success? ==>
              && Validate(body, parse).Success?
              && var req := Validate(body, parse).value;
                 && req.lookback <= |req.rows| == |req.stamps|
                 && PlanRequest(body, parse) == Prepare(req)
                 && ("pred_hours" !in body.value ==> |PlanRequest(body, parse).value.query.future| == 288)
  {
    if PlanRequest(body, parse).Success? {
      var req := Validate(body, parse).value;
      assert ParseColumn(req.rows, "timestamp", parse) == Some(req.stamps);
      PreparedQuery(req);
    }
  }

  /** `generate_signal` of this deployment: thresholds ±2 (strong) and ±0.5, strict. */
  function GenerateSignal(change: real): (l: Signals.Label)
    ensures l == Signals.StrongBuy <==> change > 2.0
    ensures l == Signals.Buy <==> 0.5 < change <= 2.0
    ensures l == Signals.Hold <==> -0.5 <= change <= 0.5
    ensures l == Signals.Sell <==> -2.0 <= change < -0.5
    ensures l == Signals.StrongSell <==> change < -2.0
  {
    Signals.ClassifyBands(Signals.Thresholds(2.0, 0.5), change);
    Signals.Classify(Signals.Thresholds(2.0, 0.5), change)
  }

  /** The signal report of `/predict/signals`, from the forecast rows and the last observed close. */
  function SignalReport(predictions: seq<ForecastRow>, currentPrice: real): (r: Result<Signals.Report, Kind>)
    ensures r.Success? <==> |predictions| > 0 && currentPrice != 0.0
    ensures r.Success? ==>
              && r.value.overall == GenerateSignal(r.value.day.changePct)
              && r.value.day.price == predictions[|predictions| - 1].close
              && r.value.confidence == Signals.Confidence(r.value.day.changePct)
  {
    Signals.Generate(Signals.Thresholds(2.0, 0.5), predictions, currentPrice)
  }

  /**
   * `/predict/signals` as written: `predict()` returns a bare Response on success and
   * a (Response, status) pair on failure. `pred_response[1]` passes a failure on, but
   * on a bare Response it raises TypeError, which the handler answers with 500.
   */
  function SignalsAsWritten(forecast: Result<Forecast, Error>): (r: Result<Signals.Report, Error>)
    ensures forecast.Failure? ==> r == Failure(forecast.error)
  {
    match forecast
    case Failure(e) => Failure(e)
    case Success(_) => Failure(ServerError(ResponseNotSubscriptable))
  }

  /** As written, no request ever gets signals: even a successful forecast ends in a 500. */
  lemma SignalsNeverReported(forecast: Result<Forecast, Error>)
    ensures SignalsAsWritten(forecast).Failure?
    ensures forecast.Success? ==> SignalsAsWritten(forecast) == Failure(Error(500, ResponseNotSubscriptable))
  {
  }

  /**
   * `/predict/signals` as evidently intended: a failed forecast is passed on, and a
   * successful one becomes the ±2 / ±0.5 signal report of its rows against the
   * last observed close.
   */
  function PredictSignals(forecast: Result<Forecast, Error>, currentPrice: real): (r: Result<Signals.Report, Error>)
    ensures forecast.Failure? ==> r == Failure(forecast.error)
    ensures forecast.Success? ==> (r.Success? <==> |forecast.value.predictions| > 0 && currentPrice != 0.0)
    ensures forecast.Success? && r.Success? ==>
              && r.value.overall == GenerateSignal(r.value.day.changePct)
              && r.value.day.price == forecast.value.predictions[|forecast.value.predictions| - 1].close
              && r.value.confidence == Signals.Confidence(r.value.day.changePct)
    ensures forecast.Success? && r.Failure? ==> r.error.status == 500
  {
    match forecast
    case Failure(e) => Failure(e)
    case Success(f) => SignalReport(f.predictions, currentPrice).MapFailure(ServerError)
  }
}
