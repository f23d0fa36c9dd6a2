/**
 * The JSON request body as the services see it: an object whose values are the
 * series (a list of records), numbers, null or anything else. Parameters are read
 * the way Python's `dict.get(key, default)` reads them.
 */
module Payload {
  import opened Wrappers

  /** One value of a record of the series. */
  datatype Cell = Null | Number(x: real) | Text(s: string)

  /** One record of the series: column name to value. */
  type Row = map<string, Cell>

  /**
   * A top-level value of the request object: null, an integer, a real, a list of
   * records, an object, or anything else (a string, a boolean, another list).
   */
  datatype Value = Null | Int(i: int) | Real(r: real) | Rows(rows: seq<Row>) | Object | Other

  type Body = map<string, Value>

  /** A parsed instant in nanoseconds, or pandas' "not a time". */
  datatype Stamp = At(ns: int) | NaT

  /**
   * An integer parameter with its default; None when the key holds a value that
   * is not an integer.
   */
  function IntParam(data: Body, key: string, default: int): (r: Option<int>)
    ensures key !in data ==> r == Some(default)
    ensures key in data ==> (r.Some? <==> data[key].Int?)
    ensures key in data && data[key].Int? ==> r == Some(data[key].i)
  {
    if key !in data then Some(default)
    else match data[key]
      case Int(i) => Some(i)
      case _ => None
  }

  /** A numeric parameter with its default; an integer is read as a number too. */
  function RealParam(data: Body, key: string, default: real): (r: Option<real>)
    ensures key !in data ==> r == Some(default)
    ensures key in data ==> (r.Some? <==> data[key].Int? || data[key].Real?)
    ensures key in data && data[key].Int? ==> r == Some(data[key].i as real)
    ensures key in data && data[key].Real? ==> r == Some(data[key].r)
  {
    if key !in data then Some(default)
    else match data[key]
      case Int(i) => Some(i as real)
      case Real(x) => Some(x)
      case _ => None
  }

  /**
   * Python's `value * n` for an integer n raises for None and for a dict; numbers,
   * strings and lists can be multiplied (the product is only refused later).
   */
  predicate Multipliable(data: Body, key: string) {
    key !in data || !(data[key].Null? || data[key].Object?)
  }
}
