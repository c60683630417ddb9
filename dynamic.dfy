/** Samples read from the UPS and rows of the `ups_dynamic_data` table. */
module Dynamic {
  import opened Wrappers

  /** A reading after conversion: a number when the text parses as a float,
    * the text itself otherwise. */
  datatype Value = Num(x: real) | Str(s: string)

  /** A persisted row: its `timestamp_tz` and its non-null columns. */
  datatype Row = Row(ts: int, cols: map<string, Value>)

  /** A numeric column of a row, `None` when it is null. */
  function RealCol(row: Row, col: string): Option<real>
  {
    if col in row.cols && row.cols[col].Num? then Some(row.cols[col].x) else None
  }

  /** The `ups_dynamic_data` table. */
  class Table {
    var rows: seq<Row>

    constructor (rows: seq<Row>)
      ensures this.rows == rows
    {
      this.rows := rows;
    }
  }

  /** The non-null values of `col` in rows with `lo <= ts < hi`, in table order. */
  function Window(rows: seq<Row>, col: string, lo: int, hi: int): (r: seq<real>)
    ensures |r| <= |rows|
  {
    if |rows| == 0 then []
    else
      var rest := Window(rows[1..], col, lo, hi);
      if lo <= rows[0].ts < hi && RealCol(rows[0], col).Some? then [RealCol(rows[0], col).value] + rest
      else rest
  }

  function Sum(xs: seq<real>): real
  {
    if |xs| == 0 then 0.0 else xs[0] + Sum(xs[1..])
  }

  /** `sum(xs) / len(xs)` */
  function Mean(xs: seq<real>): real
    requires |xs| > 0
  {
    Sum(xs) / |xs| as real
  }

  lemma {:induction false} SumBounds(xs: seq<real>, lo: real, hi: real)
    requires forall i :: 0 <= i < |xs| ==> lo <= xs[i] <= hi
    ensures |xs| as real * lo <= Sum(xs) <= |xs| as real * hi
  {
    if |xs| > 0 {
      SumBounds(xs[1..], lo, hi);
    }
  }

  /** An average lies between the smallest and the largest value averaged. */
  lemma MeanBounds(xs: seq<real>, lo: real, hi: real)
    requires |xs| > 0
    requires forall i :: 0 <= i < |xs| ==> lo <= xs[i] <= hi
    ensures lo <= Mean(xs) <= hi
  {
    SumBounds(xs, lo, hi);
    var n := |xs| as real;
    assert n * lo <= Sum(xs) <= n * hi;
    assert Mean(xs) * n == Sum(xs);
  }
}
