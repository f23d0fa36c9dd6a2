/**
 * The future time axis: `pd.date_range(start=last + diff, periods=pred_len, freq=diff)`
 * where `last` is the timestamp at position lookback-1 and `diff` is the gap between
 * the first two timestamps of the whole series. Instants are integer nanoseconds.
 */
module TimeAxis {
  import opened Wrappers
  import opened Errors
  import opened Payload
  import opened Frame

  /** `pd.date_range(start, periods, freq)` for a fixed step: each instant is the previous one plus `freq`. */
  function DateRange(start: int, periods: nat, freq: int): (r: seq<int>)
    ensures |r| == periods
    ensures periods > 0 ==> r[0] == start
    decreases periods
  {
    if periods == 0 then [] else [start] + DateRange(start + freq, periods - 1, freq)
  }

  /** The i-th instant of a date range is `start + i * freq`. */
  lemma {:induction false} DateRangeAt(start: int, periods: nat, freq: int, i: nat)
    requires i < periods
    ensures DateRange(start, periods, freq)[i] == start + i * freq
    decreases periods
  {
    if i > 0 {
      DateRangeAt(start + freq, periods - 1, freq, i - 1);
      assert DateRange(start, periods, freq)[i] == DateRange(start + freq, periods - 1, freq)[i - 1];
      assert (start + freq) + (i - 1) * freq == start + i * freq;
    }
  }

  /** Consecutive instants differ by exactly `freq`, so a positive step gives a strictly increasing axis. */
  lemma DateRangeSteps(start: int, periods: nat, freq: int)
    ensures forall i :: 0 <= i < periods - 1 ==>
              DateRange(start, periods, freq)[i + 1] - DateRange(start, periods, freq)[i] == freq
    ensures freq > 0 ==> forall i, j :: 0 <= i < j < periods ==>
              DateRange(start, periods, freq)[i] < DateRange(start, periods, freq)[j]
  {
    var r := DateRange(start, periods, freq);
    forall i | 0 <= i < periods - 1
      ensures r[i + 1] - r[i] == freq
    {
      DateRangeAt(start, periods, freq, i);
      DateRangeAt(start, periods, freq, i + 1);
    }
    if freq > 0 {
      forall i, j | 0 <= i < j < periods
        ensures r[i] < r[j]
      {
        DateRangeAt(start, periods, freq, i);
        DateRangeAt(start, periods, freq, j);
        LaterIsLarger(i, j, freq);
      }
    }
  }

  /** With a positive step, a later position lies further along. */
  lemma LaterIsLarger(i: int, j: int, freq: int)
    requires i < j && freq > 0
    ensures i * freq < j * freq
  {
    assert j * freq - i * freq == (j - i) * freq;
  }

  /** Position of the anchor `timestamps.iloc[lookback - 1]`, if it exists. */
  function AnchorIndex(stamps: seq<Stamp>, lookback: int): Option<nat> {
    PyIndex(|stamps|, lookback - 1)
  }

  /**
   * The positions the axis reads exist: `timestamps.iloc[lookback - 1]` and
   * `timestamps.iloc[1]` (and so `iloc[0]`); otherwise the lookup raises IndexError.
   */
  predicate AxisPositions(stamps: seq<Stamp>, lookback: int) {
    AnchorIndex(stamps, lookback).Some? && |stamps| >= 2
  }

  /**
   * The future axis of a request, with pandas' failures: the anchor position or
   * position 1 out of range (IndexError), NaT as start or step, a negative count.
   */
  function FutureAxis(stamps: seq<Stamp>, lookback: int, predLen: int): (r: Result<seq<int>, Kind>)
    ensures r.Success? ==> predLen >= 0 && |r.value| == predLen
    ensures !AxisPositions(stamps, lookback) ==> r == Failure(PositionOutOfBounds)
  {
    if !AxisPositions(stamps, lookback) then Failure(PositionOutOfBounds)
    else
    var a := AnchorIndex(stamps, lookback).value;
    :- Need(stamps[a].At? && stamps[0].At? && stamps[1].At?, NotATimeInAxis);
    :- Need(predLen >= 0, NegativeHorizon);
    var cadence := stamps[1].ns - stamps[0].ns;
    Success(DateRange(stamps[a].ns + cadence, predLen, cadence))
  }

  /**
   * The axis succeeds exactly when the anchor and the first two instants exist and
   * are times and the count is not negative; then it holds pred_len instants
   * anchor + (i+1) * cadence, cadence = ts[1] - ts[0].
   */
  lemma FutureAxisSpec(stamps: seq<Stamp>, lookback: int, predLen: int)
    ensures var ok := AnchorIndex(stamps, lookback).Some? && |stamps| >= 2
                      && stamps[AnchorIndex(stamps, lookback).value].At?
                      && stamps[0].At? && stamps[1].At? && predLen >= 0;
            FutureAxis(stamps, lookback, predLen).Success? <==> ok
    ensures FutureAxis(stamps, lookback, predLen).Success? ==>
              var anchor := stamps[AnchorIndex(stamps, lookback).value].ns;
              var cadence := stamps[1].ns - stamps[0].ns;
              forall i :: 0 <= i < predLen ==>
                FutureAxis(stamps, lookback, predLen).value[i] == anchor + (i + 1) * cadence
  {
    var r := FutureAxis(stamps, lookback, predLen);
    if r.Success? {
      var anchor := stamps[AnchorIndex(stamps, lookback).value].ns;
      var cadence := stamps[1].ns - stamps[0].ns;
      assert r.value == DateRange(anchor + cadence, predLen, cadence);
      forall i | 0 <= i < predLen
        ensures r.value[i] == anchor + (i + 1) * cadence
      {
        DateRangeAt(anchor + cadence, predLen, cadence, i);
        assert (anchor + cadence) + i * cadence == anchor + (i + 1) * cadence;
      }
    }
  }

  /**
   * Consecutive instants of a derived axis differ by the cadence ts[1] - ts[0], so
   * a positive cadence gives a strictly increasing axis.
   */
  lemma FutureAxisSteps(stamps: seq<Stamp>, lookback: int, predLen: int)
    requires FutureAxis(stamps, lookback, predLen).Success?
    ensures var axis := FutureAxis(stamps, lookback, predLen).value;
            var cadence := stamps[1].ns - stamps[0].ns;
            && (forall i :: 0 <= i < predLen - 1 ==> axis[i + 1] - axis[i] == cadence)
            && (cadence > 0 ==> forall i, j :: 0 <= i < j < predLen ==> axis[i] < axis[j])
  {
    var anchor := stamps[AnchorIndex(stamps, lookback).value].ns;
    var cadence := stamps[1].ns - stamps[0].ns;
    assert FutureAxis(stamps, lookback, predLen).value == DateRange(anchor + cadence, predLen, cadence);
    DateRangeSteps(anchor + cadence, predLen, cadence);
  }

  /**
   * For an ordinary request (1 <= lookback <= length) the anchor is the last
   * timestamp of the window, ts[lookback - 1].
   */
  lemma FutureAxisFromWindowEnd(stamps: seq<Stamp>, lookback: int, predLen: int)
    requires 1 <= lookback <= |stamps|
    requires FutureAxis(stamps, lookback, predLen).Success?
    ensures stamps[lookback - 1].At? && stamps[0].At? && stamps[1].At?
    ensures forall i :: 0 <= i < predLen ==>
              FutureAxis(stamps, lookback, predLen).value[i]
                == stamps[lookback - 1].ns + (i + 1) * (stamps[1].ns - stamps[0].ns)
  {
    assert AnchorIndex(stamps, lookback) == Some(lookback - 1);
    FutureAxisSpec(stamps, lookback, predLen);
  }
}
