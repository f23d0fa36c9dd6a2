/**
 * The call to the external predictor and the normalisation of what it returns.
 * The predictor itself (tokenizer, sampling, model weights) is opaque: a total
 * function from the query it is given to either rows of predicted values or a
 * raised error.
 */
module Prediction {
  import opened Wrappers
  import opened Errors
  import opened Payload

  /** What `predictor.predict(df, x_timestamp, y_timestamp, pred_len, T, top_p, sample_count)` receives. */
  datatype Query = Query(
    window: seq<Row>,
    history: seq<Stamp>,
    future: seq<int>,
    predLen: int,
    temperature: real,
    topP: real,
    sampleCount: int)

  /** One row of the predictor's frame; `amount` is a column the predictor may or may not produce. */
  datatype PredRow = PredRow(open: real, high: real, low: real, close: real, volume: real, amount: Option<real>)

  datatype PredictorOutput = Produced(rows: seq<PredRow>) | Raised(message: string)

  /** A loaded predictor. The services hold it as `Option<Predictor>`: None is "not initialised". */
  datatype Predictor = Predictor(run: Query -> PredictorOutput)

  /** What `/health` reports: a status and whether the predictor is loaded. */
  datatype HealthStatus = Healthy | Unhealthy
  datatype Health = Health(status: HealthStatus, predictorLoaded: bool)

  /** One row of the response; `amount` is None where the service does not emit that key. */
  datatype ForecastRow = ForecastRow(
    timestamp: int,
    open: real, high: real, low: real, close: real, volume: real,
    amount: Option<real>)

  /**
   * The response row for predictor row `row` at future instant `t`; with
   * `withAmount` the amount is the predictor's or 0 when it has none.
   */
  function NormaliseRow(row: PredRow, t: int, withAmount: bool): (f: ForecastRow)
    ensures f.timestamp == t && f.open == row.open && f.high == row.high && f.low == row.low
    ensures f.close == row.close && f.volume == row.volume
    ensures f.amount.Some? <==> withAmount
    ensures withAmount && row.amount.Some? ==> f.amount.value == row.amount.value
    ensures withAmount && row.amount.None? ==> f.amount.value == 0.0
  {
    ForecastRow(t, row.open, row.high, row.low, row.close, row.volume,
                if withAmount then Some(row.amount.GetOr(0.0)) else None)
  }

  /** `out` pairs predictor row i with future instant i, for every row the predictor returned. */
  ghost predicate Paired(out: seq<ForecastRow>, rows: seq<PredRow>, future: seq<int>, withAmount: bool)
    requires |rows| <= |future|
  {
    |out| == |rows| && forall i :: 0 <= i < |rows| ==> out[i] == NormaliseRow(rows[i], future[i], withAmount)
  }

  /**
   * The loop `for i, (_, row) in enumerate(pred_df.iterrows()): predictions.append(...)`.
   * Indexing `future_timestamps[i]` raises once the predictor returns more rows than
   * there are future instants, and the partial list is discarded.
   */
  method CollectPredictions(rows: seq<PredRow>, future: seq<int>, withAmount: bool)
    returns (r: Result<seq<ForecastRow>, Kind>)
    ensures r.Success? <==> |rows| <= |future|
    ensures r.Success? ==> Paired(r.value, rows, future, withAmount)
    ensures r.Failure? ==> r.error == MorePredictionsThanTimestamps
  {
    var predictions: seq<ForecastRow> := [];
    var i := 0;
    while i < |rows|
      invariant 0 <= i <= |rows|
      invariant i <= |future|
      invariant |predictions| == i
      invariant forall j :: 0 <= j < i ==> predictions[j] == NormaliseRow(rows[j], future[j], withAmount)
    {
      if i >= |future| {
        return Failure(MorePredictionsThanTimestamps);
      }
      predictions := predictions + [NormaliseRow(rows[i], future[i], withAmount)];
      i := i + 1;
    }
    return Success(predictions);
  }
}
