/**
 * What a request can fail with, and the HTTP status each service reports for it.
 * Both services answer `{success: false, error: ...}`; the model keeps the status
 * and the kind of failure (with the values the message mentions).
 */
module Errors {

  datatype Kind =
    | PredictorNotInitialized
    | NoJsonBody                         // app.py: `not data` (a JSON null or {})
    | BodyNotObject                      // api: `'ohlcv_data' in None` raises TypeError
    | MissingSeriesField
    | SeriesNotNonEmptyList              // app.py: kline_data is not a list or is empty
    | SeriesNotTabular                   // api: pandas cannot build a frame from the value
    | MissingColumns(columns: seq<string>)
    | BadTimestamp
    // `len(df) < lookback`; the lookback may be any number
    | InsufficientData(need: real, got: int)
    | BadParameter(name: string)         // a parameter of a type the operation using it refuses
    | PositionOutOfBounds                // `.iloc[k]` outside the series
    | NotATimeInAxis                     // `date_range` given NaT as start or step
    | NegativeHorizon                    // `date_range` given a negative number of periods
    | PredictionFailed(message: string)  // the predictor raised
    | MorePredictionsThanTimestamps      // `future_timestamps[i]` out of range
    | EmptyForecast                      // `predictions[-1]` on an empty list
    | ZeroCurrentPrice                   // division by the current price
    | ResponseNotSubscriptable           // `pred_response[1]` on a bare Flask Response

  datatype Error = Error(status: int, kind: Kind)

  function BadRequest(k: Kind): Error {
    Error(400, k)
  }

  function ServerError(k: Kind): Error {
    Error(500, k)
  }
}
