/**
 * The few pandas DataFrame operations the services rely on: the columns of a frame
 * built from a list of records, the missing-column report, timestamp parsing of one
 * column, and positional indexing and slicing with Python's rules for negative
 * positions.
 */
module Frame {
  import opened Wrappers
  import opened Payload

  /** The five price/volume columns handed to the predictor. */
  const OhlcvColumns: set<string> := {"open", "high", "low", "close", "volume"}

  /**
   * The columns of `pd.DataFrame(rows)`: a column exists as soon as one record has
   * that key (records lacking it get NaN there).
   */
  function Columns(rows: seq<Row>): (cols: set<string>)
    ensures forall c :: c in cols <==> exists i :: 0 <= i < |rows| && c in rows[i]
  {
    if rows == [] then {}
    else
      var init := rows[..|rows| - 1];
      var cs := Columns(init) + rows[|rows| - 1].Keys;
      assert forall i :: 0 <= i < |rows| - 1 ==> rows[i] == init[i];
      cs
  }

  /** `a` is `b` with some elements dropped, the rest kept in order. */
  ghost predicate IsSubsequence<T>(a: seq<T>, b: seq<T>)
    decreases |b|
  {
    a == [] || (b != [] && if a[0] == b[0] then IsSubsequence(a[1..], b[1..]) else IsSubsequence(a, b[1..]))
  }

  /**
   * `[col for col in required if col not in present]`: exactly the required columns
   * that are absent, in the order `required` lists them.
   */
  function Missing(required: seq<string>, present: set<string>): (m: seq<string>)
    ensures forall c :: c in m <==> c in required && c !in present
    ensures IsSubsequence(m, required)
    ensures |m| <= |required|
  {
    if required == [] then []
    else if required[0] in present then Missing(required[1..], present)
    else [required[0]] + Missing(required[1..], present)
  }

  /**
   * `pd.to_datetime(df[key])`, from a parser of single values: fails when some
   * present value fails to parse; a record without the key gives NaT.
   */
  function ParseColumn(rows: seq<Row>, key: string, parse: Cell -> Option<Stamp>): (r: Option<seq<Stamp>>)
    ensures r.Some? <==> forall i :: 0 <= i < |rows| && key in rows[i] ==> parse(rows[i][key]).Some?
    ensures r.Some? ==> |r.value| == |rows|
    ensures r.Some? ==> forall i :: 0 <= i < |rows| ==>
              r.value[i] == (if key in rows[i] then parse(rows[i][key]).value else NaT)
  {
    if rows == [] then Some([])
    else
      var head := if key in rows[0] then parse(rows[0][key]) else Some(NaT);
      var tail := ParseColumn(rows[1..], key, parse);
      assert forall i :: 1 <= i < |rows| ==> rows[i] == rows[1..][i - 1];
      if head.None? || tail.None? then None else Some([head.value] + tail.value)
  }

  /** The element `s[i]` / `s.iloc[i]` selects in a sequence of length n; None raises IndexError. */
  function PyIndex(n: nat, i: int): (r: Option<nat>)
    ensures r.Some? <==> -(n as int) <= i < n
    ensures r.Some? ==> r.value < n && (r.value == i || r.value == n + i)
  {
    if 0 <= i < n then Some(i)
    else if -(n as int) <= i < 0 then Some(n + i)
    else None
  }

  /** How many leading elements `s[:stop]` keeps of a sequence of length n. */
  function PySliceEnd(n: nat, stop: int): (k: nat)
    ensures k <= n
    ensures stop >= n ==> k == n
    ensures 0 <= stop <= n ==> k == stop
    ensures stop < 0 ==> k == if n + stop > 0 then n + stop else 0
  {
    if stop >= n then n
    else if stop >= 0 then stop
    else if n + stop > 0 then n + stop
    else 0
  }

  /** A record cut down to the price/volume columns (`df[['open', ..., 'volume']]`). */
  function Ohlcv(row: Row): (bar: Row)
    ensures bar.Keys == row.Keys * OhlcvColumns
    ensures forall k :: k in bar ==> bar[k] == row[k]
  {
    map k | k in row && k in OhlcvColumns :: row[k]
  }

  /** `df.iloc[:lookback][['open', 'high', 'low', 'close', 'volume']]`. */
  function Window(rows: seq<Row>, lookback: int): (w: seq<Row>)
    ensures |w| == PySliceEnd(|rows|, lookback)
    ensures forall i :: 0 <= i < |w| ==> w[i] == Ohlcv(rows[i])
  {
    seq(PySliceEnd(|rows|, lookback), i requires 0 <= i < PySliceEnd(|rows|, lookback) => Ohlcv(rows[i]))
  }

  /** `df.iloc[:lookback]['timestamps']`. */
  function History(stamps: seq<Stamp>, lookback: int): (h: seq<Stamp>)
    ensures |h| == PySliceEnd(|stamps|, lookback)
    ensures forall i :: 0 <= i < |h| ==> h[i] == stamps[i]
  {
    stamps[..PySliceEnd(|stamps|, lookback)]
  }

  /**
   * A required column is reported missing exactly when no record has it: one record
   * carrying a key is enough for the frame to have that column.
   */
  lemma MissingMeansAbsentEverywhere(required: seq<string>, rows: seq<Row>)
    ensures forall c :: c in Missing(required, Columns(rows)) <==>
              c in required && forall i :: 0 <= i < |rows| ==> c !in rows[i]
  {
    forall c
      ensures c in Missing(required, Columns(rows)) <==> c in required && forall i :: 0 <= i < |rows| ==> c !in rows[i]
    {
      assert c in Columns(rows) <==> exists i :: 0 <= i < |rows| && c in rows[i];
    }
  }
}
