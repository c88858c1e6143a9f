/**
 * A pandas data frame as the leaderboard uses it: a set of column labels and a sequence of
 * rows. `pd.DataFrame(records)` takes every key any record has as a column and fills the
 * cells a record does not have with NaN.
 */
module Frames {
  import opened Python

  datatype Frame = Frame(columns: set<string>, rows: seq<Row>)

  /** `df.empty`: no rows, or no columns. */
  predicate Empty(df: Frame): (r: bool)
    ensures r <==> |df.rows| * |df.columns| == 0
  {
    |df.rows| == 0 || df.columns == {}
  }

  /** Every row has exactly the frame's columns. */
  predicate Rectangular(df: Frame) {
    forall i :: 0 <= i < |df.rows| ==> df.rows[i].Keys == df.columns
  }

  /** The cell of `row` in `column`; a row without that key reads as NaN, as pandas stores it. */
  function Cell(row: Row, column: string): (v: Value)
    ensures column in row ==> v == row[column]
    ensures column !in row ==> v == Num(NaN)
  {
    if column in row then row[column] else Num(NaN)
  }

  /** `row.to_dict()`: one entry per column of the frame. */
  function ToDict(row: Row, columns: set<string>): (d: Row)
    ensures d.Keys == columns
    ensures forall c :: c in columns ==> d[c] == Cell(row, c)
  {
    map c | c in columns :: Cell(row, c)
  }

  /** A row that holds every column, and nothing else, is its own `to_dict()`. */
  lemma ToDictWhole(row: Row, columns: set<string>)
    requires row.Keys == columns
    ensures ToDict(row, columns) == row
  {
  }

  /** `df[column]`, as the sequence of its cells in row order. */
  function ColumnValues(df: Frame, column: string): (vs: seq<Value>)
    ensures |vs| == |df.rows|
    ensures forall i :: 0 <= i < |df.rows| ==> vs[i] == Cell(df.rows[i], column)
  {
    seq(|df.rows|, i requires 0 <= i < |df.rows| => Cell(df.rows[i], column))
  }

  /** The keys that occur in any of the records. */
  function KeysOf(records: seq<Row>): (ks: set<string>)
    ensures forall i, k :: 0 <= i < |records| && k in records[i] ==> k in ks
    ensures forall k :: k in ks ==> exists i :: 0 <= i < |records| && k in records[i]
  {
    if records == [] then {}
    else
      var ks := KeysOf(records[..|records| - 1]) + records[|records| - 1].Keys;
      assert forall i :: 0 <= i < |records| - 1 ==> records[..|records| - 1][i] == records[i];
      ks
  }

  /** `pd.DataFrame(records)` for a list of dicts. */
  function FrameOf(records: seq<Row>): (df: Frame)
    ensures Rectangular(df)
    ensures forall k :: k in df.columns <==> exists i :: 0 <= i < |records| && k in records[i]
    ensures |df.rows| == |records|
    ensures forall i, k :: 0 <= i < |records| && k in records[i] ==> df.rows[i][k] == records[i][k]
    ensures forall i, k :: 0 <= i < |records| && k in df.columns && k !in records[i] ==> df.rows[i][k] == Num(NaN)
  {
    var columns := KeysOf(records);
    Frame(columns, seq(|records|, i requires 0 <= i < |records| => ToDict(records[i], columns)))
  }

  /** In a frame built from records, a record without a key another record has holds NaN there. */
  lemma {:induction false} MissingKeyIsNaN(records: seq<Row>, i: nat, j: nat, key: string)
    requires i < |records| && j < |records|
    requires key in records[j] && key !in records[i]
    ensures key in FrameOf(records).columns
    ensures Cell(FrameOf(records).rows[i], key) == Num(NaN)
  {
    var df := FrameOf(records);
    assert key in KeysOf(records);
    assert df.rows[i][key] == Num(NaN);
  }
}
