/**
 * The trading signal computed from a forecast and the last observed close: the
 * predicted close at three horizons (1h, 6h and 24h of five-minute steps), its
 * percentage change from the current price, a five-way label from nested strict
 * thresholds, and a linear confidence proxy.
 */
module Signals {
  import opened Wrappers
  import opened Errors
  import opened Prediction

  datatype Label = StrongBuy | Buy | Hold | Sell | StrongSell

  /** The two thresholds of a deployment, in percent: `strong` for STRONG_*, `weak` for BUY/SELL. */
  datatype Thresholds = Thresholds(strong: real, weak: real)

  /** Nested thresholds: 0 <= weak <= strong (both deployments' constants satisfy this). */
  predicate Nested(t: Thresholds) {
    0.0 <= t.weak <= t.strong
  }

  /**
   * `generate_signal(change)`: the comparisons are strict and evaluated top-down,
   * so whatever the thresholds each label lies on its side of them.
   */
  function Classify(t: Thresholds, change: real): (l: Label)
    ensures l == StrongBuy <==> change > t.strong
    ensures l == Buy ==> t.weak < change <= t.strong
    ensures l == Hold ==> -t.weak <= change <= t.weak
    ensures l == Sell ==> change < -t.weak && change <= t.weak
    ensures l == StrongSell ==> change < -t.strong && change <= t.weak
  {
    if change > t.strong then StrongBuy
    else if change > t.weak then Buy
    else if change < -t.strong then StrongSell
    else if change < -t.weak then Sell
    else Hold
  }

  /** Position of a label on the sell-to-buy scale. */
  function Rank(l: Label): (n: nat)
    ensures n <= 4
  {
    match l
    case StrongSell => 0
    case Sell => 1
    case Hold => 2
    case Buy => 3
    case StrongBuy => 4
  }

  /** The label with buy and sell exchanged. */
  function Mirror(l: Label): (m: Label)
    ensures Rank(m) == 4 - Rank(l)
  {
    match l
    case StrongSell => StrongBuy
    case Sell => Buy
    case Hold => Hold
    case Buy => Sell
    case StrongBuy => StrongSell
  }

  /** With nested thresholds each label is exactly one band of changes; a change on a threshold falls in the milder band. */
  lemma ClassifyBands(t: Thresholds, change: real)
    requires Nested(t)
    ensures Classify(t, change) == StrongBuy <==> change > t.strong
    ensures Classify(t, change) == Buy <==> t.weak < change <= t.strong
    ensures Classify(t, change) == Hold <==> -t.weak <= change <= t.weak
    ensures Classify(t, change) == Sell <==> -t.strong <= change < -t.weak
    ensures Classify(t, change) == StrongSell <==> change < -t.strong
  {
  }

  /** A larger change never gives a more bearish label. */
  lemma ClassifyMonotone(t: Thresholds, c1: real, c2: real)
    requires Nested(t)
    requires c1 <= c2
    ensures Rank(Classify(t, c1)) <= Rank(Classify(t, c2))
  {
    ClassifyBands(t, c1);
    ClassifyBands(t, c2);
  }

  /** Negating the change mirrors the label (BUY <-> SELL, STRONG_BUY <-> STRONG_SELL). */
  lemma ClassifySymmetric(t: Thresholds, change: real)
    requires Nested(t)
    ensures Classify(t, -change) == Mirror(Classify(t, change))
  {
    ClassifyBands(t, change);
    ClassifyBands(t, -change);
  }

  /** With weak < strong every one of the five labels is produced by some change. */
  lemma ClassifyOnto(t: Thresholds, l: Label)
    requires 0.0 <= t.weak < t.strong
    ensures exists c :: Classify(t, c) == l
  {
    var c := match l
      case StrongBuy => t.strong + 1.0
      case Buy => t.strong
      case Hold => 0.0
      case Sell => -t.strong
      case StrongSell => -t.strong - 1.0;
    ClassifyBands(t, c);
  }

  /** `(p - c) / c * 100`: the predicted change in percent. */
  function ChangePct(predicted: real, current: real): (r: real)
    requires current != 0.0
    ensures current > 0.0 ==> (r > 0.0 <==> predicted > current) && (r < 0.0 <==> predicted < current)
    ensures predicted == current ==> r == 0.0
  {
    (predicted - current) / current * 100.0
  }

  function Abs(x: real): real {
    if x < 0.0 then -x else x
  }

  /** `min(abs(change_24h) / 5.0, 1.0)`. */
  function Confidence(change: real): (r: real)
    ensures 0.0 <= r <= 1.0
    ensures r == 1.0 <==> Abs(change) >= 5.0
    ensures Abs(change) < 5.0 ==> r * 5.0 == Abs(change)
  {
    if Abs(change) / 5.0 < 1.0 then Abs(change) / 5.0 else 1.0
  }

  /** The row a horizon reads: position `offset` when the forecast is longer than that, otherwise the last row. */
  function HorizonIndex(n: nat, offset: nat): (k: nat)
    requires n > 0
    ensures k < n
    ensures k == offset <==> offset < n
    ensures offset >= n ==> k == n - 1
  {
    if n > offset then offset else n - 1
  }

  datatype Horizon = Horizon(price: real, changePct: real, signal: Label)

  datatype Report = Report(
    currentPrice: real,
    hour: Horizon,
    sixHours: Horizon,
    day: Horizon,
    overall: Label,
    confidence: real)

  function MakeHorizon(t: Thresholds, price: real, current: real): Horizon
    requires current != 0.0
  {
    var ch := ChangePct(price, current);
    Horizon(price, ch, Classify(t, ch))
  }

  /**
   * The signal report for a forecast and the current price. Reading `predictions[-1]`
   * raises on an empty forecast before any division; the division raises on a zero price.
   */
  function Generate(t: Thresholds, predictions: seq<ForecastRow>, current: real): (r: Result<Report, Kind>)
    ensures |predictions| == 0 ==> r == Failure(EmptyForecast)
    ensures |predictions| > 0 && current == 0.0 ==> r == Failure(ZeroCurrentPrice)
    ensures r.Success? <==> |predictions| > 0 && current != 0.0
    ensures r.Success? ==>
              && r.value.currentPrice == current
              && r.value.hour.price == predictions[HorizonIndex(|predictions|, 11)].close
              && r.value.sixHours.price == predictions[HorizonIndex(|predictions|, 71)].close
              && r.value.day.price == predictions[|predictions| - 1].close
              && r.value.overall == r.value.day.signal
              && 0.0 <= r.value.confidence <= 1.0
  {
    if |predictions| == 0 then Failure(EmptyForecast)
    else
      var n := |predictions|;
      var p1 := predictions[HorizonIndex(n, 11)].close;
      var p6 := predictions[HorizonIndex(n, 71)].close;
      var p24 := predictions[n - 1].close;
      if current == 0.0 then Failure(ZeroCurrentPrice)
      else
        var day := MakeHorizon(t, p24, current);
        Success(Report(current, MakeHorizon(t, p1, current), MakeHorizon(t, p6, current), day,
                       Classify(t, day.changePct), Confidence(day.changePct)))
  }

  /**
   * Each horizon's change and label follow from its price, and a forecast of at most
   * 72 rows reads the last row for both the 6h and the 24h horizon (at most 12 rows: for 1h too).
   */
  lemma GenerateHorizons(t: Thresholds, predictions: seq<ForecastRow>, current: real)
    requires |predictions| > 0 && current != 0.0
    ensures var rep := Generate(t, predictions, current).value;
            && (forall h :: h in [rep.hour, rep.sixHours, rep.day] ==>
                  h.changePct == ChangePct(h.price, current) && h.signal == Classify(t, h.changePct))
            && rep.confidence == Confidence(rep.day.changePct)
            && (|predictions| <= 72 ==> rep.sixHours.price == rep.day.price)
            && (|predictions| <= 12 ==> rep.hour.price == rep.day.price)
  {
  }
}
