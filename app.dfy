/**
 * The leaderboard app's two data-frame transforms: `filter_data`, which narrows the frame
 * by the dropdown and search-box choices, and `format_dataframe`, which formats every row
 * for display.
 */
module App {
  import opened Python
  import opened Frames
  import opened Formatters

  // ---------------------------------------------------------------------------------------
  // filter_data

  /** The search text and the six dropdown choices `filter_data` takes. */
  datatype Filters = Filters(
    model: string, task: string, platform: string, device: string,
    mode: string, dtype: string, status: string)

  /** A dropdown choice constrains the rows unless it is empty or "All". */
  predicate Active(choice: string) {
    choice != "" && choice != "All"
  }

  /** One boolean mask of `filter_data`. */
  datatype Test = NameContains(pattern: string) | Equals(column: string, wanted: string) {
    /** The column the mask reads. */
    function Column(): string {
      match this
      case NameContains(_) => "modelId"
      case Equals(column, _) => column
    }
  }

  /**
   * `str.contains(pattern, case=False, na=False)` on one cell: the pattern occurs in the text
   * ignoring ASCII case; a cell that is not a string counts as False.
   */
  predicate NameMatches(v: Value, pattern: string): (r: bool)
    ensures r ==> v.Str? && |pattern| <= |v.s|
    ensures v.Str? && pattern == "" ==> r
    ensures v.Str? && Lower(pattern) == Lower(v.s) ==> r
  {
    v.Str? && HasInfix(Lower(v.s), Lower(pattern))
  }

  /** The search ignores the case of the text typed in. */
  lemma NameMatchesIgnoresCase(v: Value, pattern: string)
    ensures NameMatches(v, Lower(pattern)) <==> NameMatches(v, pattern)
  {
    LowerIdempotent(pattern);
  }

  /** The mask's value on one row; `==` against a string is False for NaN and every non-string. */
  predicate Passes(row: Row, t: Test) {
    match t
    case NameContains(pattern) => NameMatches(Cell(row, "modelId"), pattern)
    case Equals(column, wanted) => Cell(row, column) == Str(wanted)
  }

  /** `rows[mask]`: the rows the mask keeps, in their order, every copy of a passing row. */
  function Narrow(rows: seq<Row>, t: Test): (r: seq<Row>)
    ensures |r| <= |rows|
    ensures forall row :: row in r <==> row in rows && Passes(row, t)
    ensures forall row :: multiset(r)[row] == if Passes(row, t) then multiset(rows)[row] else 0
  {
    if rows == [] then []
    else
      var rest := Narrow(rows[1..], t);
      assert forall row :: row in rows <==> row == rows[0] || row in rows[1..];
      assert rows == [rows[0]] + rows[1..];
      assert multiset(rows) == multiset([rows[0]]) + multiset(rows[1..]);
      if Passes(rows[0], t) then [rows[0]] + rest else rest
  }

  predicate PassesAll(row: Row, tests: seq<Test>) {
    forall i :: 0 <= i < |tests| ==> Passes(row, tests[i])
  }

  /** The rows that pass every mask, in their order. */
  function Select(rows: seq<Row>, tests: seq<Test>): (r: seq<Row>)
    ensures |r| <= |rows|
    ensures forall i :: 0 <= i < |r| ==> PassesAll(r[i], tests)
  {
    if rows == [] then []
    else if PassesAll(rows[0], tests) then [rows[0]] + Select(rows[1..], tests)
    else Select(rows[1..], tests)
  }

  /** The mask of one choice: present exactly when the choice is in effect. */
  function Choice(active: bool, t: Test): seq<Test> {
    if active then [t] else []
  }

  /** The masks `filter_data` applies for the given choices, in the order it applies them. */
  function ActiveTests(q: Filters): seq<Test> {
    Choice(q.model != "", NameContains(q.model))
    + Choice(Active(q.task), Equals("task", q.task))
    + Choice(Active(q.platform), Equals("platform", q.platform))
    + Choice(Active(q.device), Equals("device", q.device))
    + RunTests(q)
  }

  /** The masks on the run's configuration, which `filter_data` applies last. */
  function RunTests(q: Filters): seq<Test> {
    Choice(Active(q.mode), Equals("mode", q.mode))
    + Choice(Active(q.dtype), Equals("dtype", q.dtype))
    + Choice(Active(q.status), Equals("status", q.status))
  }

  /** The column of the first choice in effect, in the order the masks run, that the frame lacks. */
  function FirstMissing(columns: set<string>, q: Filters): Option<string> {
    if q.model != "" && "modelId" !in columns then Some("modelId")
    else if Active(q.task) && "task" !in columns then Some("task")
    else if Active(q.platform) && "platform" !in columns then Some("platform")
    else if Active(q.device) && "device" !in columns then Some("device")
    else RunMissing(columns, q)
  }

  function RunMissing(columns: set<string>, q: Filters): Option<string> {
    if Active(q.mode) && "mode" !in columns then Some("mode")
    else if Active(q.dtype) && "dtype" !in columns then Some("dtype")
    else if Active(q.status) && "status" !in columns then Some("status")
    else None
  }

  /**
   * What `filter_data` returns: an empty frame unchanged; otherwise KeyError for the first
   * mask in effect whose column is missing, or the rows that pass every mask in effect.
   */
  function Filtered(df: Frame, q: Filters): (r: Result<Frame>)
    ensures Empty(df) ==> r == Ok(df)
    ensures r.Ok? ==> r.value.columns == df.columns && |r.value.rows| <= |df.rows|
    ensures r.Err? ==> r.error.KeyError? && r.error.key !in df.columns
  {
    if Empty(df) then Ok(df)
    else
      match FirstMissing(df.columns, q)
      case Some(column) => Err(KeyError(column))
      case None => Ok(Frame(df.columns, Select(df.rows, ActiveTests(q))))
  }

  /** `filtered[mask]` on a frame: reading a missing column raises KeyError. */
  function Mask(df: Frame, t: Test): (r: Result<Frame>)
    ensures r.Err? <==> t.Column() !in df.columns
    ensures r.Err? ==> r.error == KeyError(t.Column())
    ensures r.Ok? ==> r.value.columns == df.columns && r.value.rows == Narrow(df.rows, t)
  {
    if t.Column() !in df.columns then Err(KeyError(t.Column())) else Ok(Frame(df.columns, Narrow(df.rows, t)))
  }

  /** Masking the selection once more is selecting with one more mask. */
  lemma {:induction false} NarrowSelect(rows: seq<Row>, tests: seq<Test>, t: Test)
    ensures Narrow(Select(rows, tests), t) == Select(rows, tests + [t])
  {
    if rows != [] {
      NarrowSelect(rows[1..], tests, t);
      assert PassesAll(rows[0], tests + [t]) <==> PassesAll(rows[0], tests) && Passes(rows[0], t) by {
        assert forall i :: 0 <= i < |tests| ==> (tests + [t])[i] == tests[i];
        assert (tests + [t])[|tests|] == t;
      }
      var s := Select(rows[1..], tests);
      if PassesAll(rows[0], tests) {
        assert ([rows[0]] + s)[1..] == s;
      }
    }
  }

  /**
   * One step of `filter_data`: when the choice is in effect, keep the rows that pass its mask.
   * The frame so far is the input narrowed by the masks in `tests`.
   */
  method Step(df: Frame, filtered: Frame, ghost tests: seq<Test>, active: bool, t: Test) returns (r: Result<Frame>)
    requires filtered == Frame(df.columns, Select(df.rows, tests))
    ensures r.Err? <==> active && t.Column() !in df.columns
    ensures r.Err? ==> r.error == KeyError(t.Column())
    ensures r.Ok? ==> r.value == Frame(df.columns, Select(df.rows, tests + Choice(active, t)))
  {
    if active {
      NarrowSelect(df.rows, tests, t);
      r := Mask(filtered, t);
    } else {
      assert tests + [] == tests;
      r := Ok(filtered);
    }
  }

  /** `filter_data`: works on a copy, applying the masks in effect one after another. */
  method FilterData(df: Frame, q: Filters) returns (r: Result<Frame>)
    ensures r == Filtered(df, q)
  {
    if Empty(df) {
      return Ok(df);
    }
    var filtered := df;
    SelectNothing(df.rows);
    ghost var tests: seq<Test> := [];
    filtered :- Step(df, filtered, tests, q.model != "", NameContains(q.model));
    assert [] + Choice(q.model != "", NameContains(q.model)) == Choice(q.model != "", NameContains(q.model));
    tests := Choice(q.model != "", NameContains(q.model));
    filtered :- Step(df, filtered, tests, Active(q.task), Equals("task", q.task));
    tests := tests + Choice(Active(q.task), Equals("task", q.task));
    filtered :- Step(df, filtered, tests, Active(q.platform), Equals("platform", q.platform));
    tests := tests + Choice(Active(q.platform), Equals("platform", q.platform));
    filtered :- Step(df, filtered, tests, Active(q.device), Equals("device", q.device));
    tests := tests + Choice(Active(q.device), Equals("device", q.device));
    filtered :- FilterRun(df, q, filtered, tests);
    return Ok(filtered);
  }

  /** The mode, dtype and status steps of `filter_data`, after the masks in `done`. */
  method FilterRun(df: Frame, q: Filters, filtered0: Frame, ghost done: seq<Test>) returns (r: Result<Frame>)
    requires filtered0 == Frame(df.columns, Select(df.rows, done))
    ensures r.Err? <==> RunMissing(df.columns, q).Some?
    ensures r.Err? ==> r.error == KeyError(RunMissing(df.columns, q).value)
    ensures r.Ok? ==> r.value == Frame(df.columns, Select(df.rows, done + RunTests(q)))
  {
    var filtered := filtered0;
    filtered :- Step(df, filtered, done, Active(q.mode), Equals("mode", q.mode));
    ghost var tests := done + Choice(Active(q.mode), Equals("mode", q.mode));
    filtered :- Step(df, filtered, tests, Active(q.dtype), Equals("dtype", q.dtype));
    tests := tests + Choice(Active(q.dtype), Equals("dtype", q.dtype));
    filtered :- Step(df, filtered, tests, Active(q.status), Equals("status", q.status));
    tests := tests + Choice(Active(q.status), Equals("status", q.status));
    AppendAssociative(done, Choice(Active(q.mode), Equals("mode", q.mode)),
      Choice(Active(q.dtype), Equals("dtype", q.dtype)), Choice(Active(q.status), Equals("status", q.status)));
    return Ok(filtered);
  }

  lemma AppendAssociative(a: seq<Test>, b: seq<Test>, c: seq<Test>, d: seq<Test>)
    ensures a + b + c + d == a + (b + c + d)
  {
  }

  // Properties of the filtered frame

  /** `xs` is `ys` with some elements left out, the rest in their order. */
  predicate SubsequenceOf(xs: seq<Row>, ys: seq<Row>)
    decreases |ys|
  {
    xs == [] || (ys != [] && ((xs[0] == ys[0] && SubsequenceOf(xs[1..], ys[1..])) || SubsequenceOf(xs, ys[1..])))
  }

  lemma {:induction false} SelectSubsequence(rows: seq<Row>, tests: seq<Test>)
    ensures SubsequenceOf(Select(rows, tests), rows)
  {
    if rows != [] {
      SelectSubsequence(rows[1..], tests);
      var rest := Select(rows[1..], tests);
      if PassesAll(rows[0], tests) {
        assert ([rows[0]] + rest)[1..] == rest;
      }
    }
  }

  lemma {:induction false} SelectMembers(rows: seq<Row>, tests: seq<Test>, row: Row)
    ensures row in Select(rows, tests) <==> row in rows && PassesAll(row, tests)
  {
    if rows != [] {
      SelectMembers(rows[1..], tests, row);
      assert row in rows <==> row == rows[0] || row in rows[1..];
    }
  }

  /** The selection keeps every copy of a row that passes every mask, and no copy of any other. */
  lemma {:induction false} SelectCount(rows: seq<Row>, tests: seq<Test>, row: Row)
    ensures multiset(Select(rows, tests))[row] == if PassesAll(row, tests) then multiset(rows)[row] else 0
  {
    if rows != [] {
      SelectCount(rows[1..], tests, row);
      assert rows == [rows[0]] + rows[1..];
      assert multiset(rows) == multiset([rows[0]]) + multiset(rows[1..]);
    }
  }

  lemma {:induction false} SelectNothing(rows: seq<Row>)
    ensures Select(rows, []) == rows
  {
    if rows != [] {
      SelectNothing(rows[1..]);
    }
  }

  /** Which masks are applied matters, not their order or repetition. */
  lemma {:induction false} SelectOrderIndependent(rows: seq<Row>, tests: seq<Test>, others: seq<Test>)
    requires forall t :: t in tests <==> t in others
    ensures Select(rows, tests) == Select(rows, others)
  {
    if rows != [] {
      SelectOrderIndependent(rows[1..], tests, others);
      assert PassesAll(rows[0], tests) <==> PassesAll(rows[0], others) by {
        if PassesAll(rows[0], tests) {
          forall j | 0 <= j < |others| ensures Passes(rows[0], others[j]) {
            assert others[j] in others;
            var i :| 0 <= i < |tests| && tests[i] == others[j];
          }
        }
        if PassesAll(rows[0], others) {
          forall i | 0 <= i < |tests| ensures Passes(rows[0], tests[i]) {
            assert tests[i] in tests;
            var j :| 0 <= j < |others| && others[j] == tests[i];
          }
        }
      }
    }
  }

  /** Two masks applied one after the other give the same rows in either order. */
  lemma NarrowCommutes(rows: seq<Row>, s: Test, t: Test)
    ensures Narrow(Narrow(rows, s), t) == Narrow(Narrow(rows, t), s)
  {
    SelectNothing(rows);
    NarrowSelect(rows, [], s);
    NarrowSelect(rows, [s], t);
    NarrowSelect(rows, [], t);
    NarrowSelect(rows, [t], s);
    SelectOrderIndependent(rows, [] + [s] + [t], [] + [t] + [s]);
  }

  /** The row conditions of `filter_data` written out choice by choice. */
  predicate Wanted(row: Row, q: Filters): (r: bool)
    ensures r && q.model != "" ==> "modelId" in row && row["modelId"].Str?
    ensures r && Active(q.task) ==> "task" in row && row["task"] == Str(q.task)
    ensures r && Active(q.status) ==> "status" in row && row["status"] == Str(q.status)
    ensures (q.model == "" && !Active(q.task) && !Active(q.platform) && !Active(q.device)
             && !Active(q.mode) && !Active(q.dtype) && !Active(q.status)) ==> r
  {
    && (q.model != "" ==> NameMatches(Cell(row, "modelId"), q.model))
    && (Active(q.task) ==> Cell(row, "task") == Str(q.task))
    && (Active(q.platform) ==> Cell(row, "platform") == Str(q.platform))
    && (Active(q.device) ==> Cell(row, "device") == Str(q.device))
    && (Active(q.mode) ==> Cell(row, "mode") == Str(q.mode))
    && (Active(q.dtype) ==> Cell(row, "dtype") == Str(q.dtype))
    && (Active(q.status) ==> Cell(row, "status") == Str(q.status))
  }

  /** Every mask `filter_data` applies is the mask of a choice in effect, and vice versa. */
  lemma ActiveTestsMembers(q: Filters, t: Test)
    ensures t in ActiveTests(q) <==>
      (t == NameContains(q.model) && q.model != "") ||
      (t == Equals("task", q.task) && Active(q.task)) ||
      (t == Equals("platform", q.platform) && Active(q.platform)) ||
      (t == Equals("device", q.device) && Active(q.device)) ||
      (t == Equals("mode", q.mode) && Active(q.mode)) ||
      (t == Equals("dtype", q.dtype) && Active(q.dtype)) ||
      (t == Equals("status", q.status) && Active(q.status))
  {
  }

  lemma PassesActiveTests(row: Row, q: Filters)
    ensures PassesAll(row, ActiveTests(q)) <==> Wanted(row, q)
  {
    var tests := ActiveTests(q);
    if Wanted(row, q) {
      forall i | 0 <= i < |tests| ensures Passes(row, tests[i]) {
        ActiveTestsMembers(q, tests[i]);
      }
    }
    if PassesAll(row, tests) {
      forall t | t in tests ensures Passes(row, t) {
        var i :| 0 <= i < |tests| && tests[i] == t;
      }
      ActiveTestsMembers(q, NameContains(q.model));
      ActiveTestsMembers(q, Equals("task", q.task));
      ActiveTestsMembers(q, Equals("platform", q.platform));
      ActiveTestsMembers(q, Equals("device", q.device));
      ActiveTestsMembers(q, Equals("mode", q.mode));
      ActiveTestsMembers(q, Equals("dtype", q.dtype));
      ActiveTestsMembers(q, Equals("status", q.status));
    }
  }

  /**
   * The successful result has the input's columns, keeps a subsequence of the input rows in
   * their order, and keeps a row exactly when it meets every active choice.
   */
  lemma FilteredRows(df: Frame, q: Filters, row: Row)
    requires Filtered(df, q).Ok?
    ensures Filtered(df, q).value.columns == df.columns
    ensures SubsequenceOf(Filtered(df, q).value.rows, df.rows)
    ensures !Empty(df) ==> (row in Filtered(df, q).value.rows <==> row in df.rows && Wanted(row, q))
    ensures !Empty(df) ==>
      multiset(Filtered(df, q).value.rows)[row] == if Wanted(row, q) then multiset(df.rows)[row] else 0
  {
    if Empty(df) {
      SelectNothing(df.rows);
      SelectSubsequence(df.rows, []);
    } else {
      SelectSubsequence(df.rows, ActiveTests(q));
      SelectMembers(df.rows, ActiveTests(q), row);
      SelectCount(df.rows, ActiveTests(q), row);
      PassesActiveTests(row, q);
    }
  }

  /** With every choice inactive the frame comes back unchanged. */
  lemma NoChoiceKeepsAll(df: Frame, q: Filters)
    requires q.model == "" && !Active(q.task) && !Active(q.platform) && !Active(q.device)
    requires !Active(q.mode) && !Active(q.dtype) && !Active(q.status)
    ensures Filtered(df, q) == Ok(df)
  {
    assert ActiveTests(q) == [];
    SelectNothing(df.rows);
  }

  /**
   * `filter_data` raises exactly when some mask in effect reads a column the frame lacks, and
   * the KeyError names the column of such a mask.
   */
  lemma FilteredRaises(df: Frame, q: Filters)
    ensures Filtered(df, q).Err? <==>
      !Empty(df) && exists t :: t in ActiveTests(q) && t.Column() !in df.columns
    ensures Filtered(df, q).Err? ==>
      exists t :: t in ActiveTests(q) && t.Column() !in df.columns && Filtered(df, q).error == KeyError(t.Column())
  {
    FirstMissingNamesMask(df.columns, q);
    forall t | t in ActiveTests(q) && t.Column() !in df.columns ensures FirstMissing(df.columns, q).Some? {
      FirstMissingComplete(df.columns, q, t);
    }
  }

  /** A column `FirstMissing` reports is read by a mask in effect and is not in the frame. */
  lemma FirstMissingNamesMask(columns: set<string>, q: Filters)
    ensures FirstMissing(columns, q).Some? ==>
      exists t :: t in ActiveTests(q) && t.Column() !in columns && FirstMissing(columns, q).value == t.Column()
  {
    var m := FirstMissing(columns, q);
    if m == Some("modelId") {
      ActiveTestsMembers(q, NameContains(q.model));
    } else if m == Some("task") {
      ActiveTestsMembers(q, Equals("task", q.task));
    } else if m == Some("platform") {
      ActiveTestsMembers(q, Equals("platform", q.platform));
    } else if m == Some("device") {
      ActiveTestsMembers(q, Equals("device", q.device));
    } else if m == Some("mode") {
      ActiveTestsMembers(q, Equals("mode", q.mode));
    } else if m == Some("dtype") {
      ActiveTestsMembers(q, Equals("dtype", q.dtype));
    } else if m == Some("status") {
      ActiveTestsMembers(q, Equals("status", q.status));
    }
  }

  /** Every mask in effect whose column the frame lacks makes `FirstMissing` report one. */
  lemma FirstMissingComplete(columns: set<string>, q: Filters, t: Test)
    requires t in ActiveTests(q) && t.Column() !in columns
    ensures FirstMissing(columns, q).Some?
  {
    ActiveTestsMembers(q, t);
  }

  // ---------------------------------------------------------------------------------------
  // format_dataframe

  /** The rows of a row-wise `apply`, or the error of the first row that raised. */
  function Collect(results: seq<Result<Row>>): (r: Result<seq<Row>>)
    ensures r.Ok? <==> forall i :: 0 <= i < |results| ==> results[i].Ok?
    ensures r.Ok? ==> |r.value| == |results|
  {
    if results == [] then Ok([])
    else
      var head :- results[0];
      var tail :- Collect(results[1..]);
      Ok([head] + tail)
  }

  /** On success there is one row per result, in order. */
  lemma {:induction false} CollectOk(results: seq<Result<Row>>)
    requires Collect(results).Ok?
    ensures |Collect(results).value| == |results|
    ensures forall i :: 0 <= i < |results| ==> results[i] == Ok(Collect(results).value[i])
  {
    if results != [] {
      CollectOk(results[1..]);
      assert forall i :: 0 < i < |results| ==> results[1..][i - 1] == results[i];
    }
  }

  /** A failure carries the error of the first result that is one. */
  lemma {:induction false} CollectErr(results: seq<Result<Row>>)
    requires Collect(results).Err?
    ensures exists i :: 0 <= i < |results| && results[i] == Err(Collect(results).error) &&
                        forall j :: 0 <= j < i ==> results[j].Ok?
  {
    if results[0].Ok? {
      CollectErr(results[1..]);
      var i :| 0 <= i < |results[1..]| && results[1..][i] == Err(Collect(results[1..]).error) &&
        forall j :: 0 <= j < i ==> results[1..][j].Ok?;
      assert forall j :: 0 < j <= i + 1 ==> results[1..][j - 1] == results[j];
      assert results[i + 1] == Err(Collect(results).error);
    } else {
      assert results[0] == Err(Collect(results).error);
    }
  }

  /** `apply_formatting(row.to_dict())` on each row of the frame, in row order. */
  function FormatEach(rows: seq<Row>, columns: set<string>, rd: Renderer): (results: seq<Result<Row>>)
    ensures |results| == |rows|
    ensures forall i :: 0 <= i < |rows| ==> results[i] == Formatted(ToDict(rows[i], columns), rd, AsWritten)
  {
    seq(|rows|, i requires 0 <= i < |rows| => Formatted(ToDict(rows[i], columns), rd, AsWritten))
  }

  /**
   * `format_dataframe`: an empty frame unchanged; otherwise every row formatted, the frame
   * keeping its columns and every row holding all of them; or the error of the first row
   * whose formatting raises.
   */
  function FormatDataframe(df: Frame, rd: Renderer): (r: Result<Frame>)
    ensures Empty(df) ==> r == Ok(df)
    ensures !Empty(df) && r.Ok? ==>
      r.value.columns == df.columns && |r.value.rows| == |df.rows| && Rectangular(r.value)
      && forall i :: 0 <= i < |df.rows| ==> Formatted(ToDict(df.rows[i], df.columns), rd, AsWritten) == Ok(r.value.rows[i])
    ensures !Empty(df) && r.Err? ==>
      exists i :: 0 <= i < |df.rows| && Formatted(ToDict(df.rows[i], df.columns), rd, AsWritten) == Err(r.error) &&
        forall j :: 0 <= j < i ==> Formatted(ToDict(df.rows[j], df.columns), rd, AsWritten).Ok?
  {
    if Empty(df) then Ok(df)
    else
      var results := FormatEach(df.rows, df.columns, rd);
      var formatted := Collect(results);
      if formatted.Err? then
        CollectErr(results);
        Err(formatted.error)
      else
        CollectOk(results);
        var rows := formatted.value;
        assert forall i :: 0 <= i < |rows| ==> rows[i].Keys == df.columns by {
          forall i | 0 <= i < |rows| ensures rows[i].Keys == df.columns {
            FormattedShape(ToDict(df.rows[i], df.columns), rd, AsWritten);
          }
        }
        Ok(Frame(df.columns, rows))
  }

  /** Two records, the second without `load_ms_p50`. */
  const TwoRecords: seq<Row> := [map["load_ms_p50" := Num(Finite(50.0))], map[]]

  /** Their frame: one column, and NaN in the second row. */
  const TwoRowFrame: Frame :=
    Frame({"load_ms_p50"}, [map["load_ms_p50" := Num(Finite(50.0))], map["load_ms_p50" := Num(NaN)]])

  /** `pd.DataFrame` of the two records is that frame. */
  lemma TwoRecordsFrame()
    ensures FrameOf(TwoRecords) == TwoRowFrame
  {
    var records := TwoRecords;
    assert records[..1][..0] == [];
    assert KeysOf(records[..1]) == {"load_ms_p50"};
    assert KeysOf(records) == {"load_ms_p50"};
    assert ToDict(records[0], {"load_ms_p50"}) == map["load_ms_p50" := Num(Finite(50.0))];
    assert ToDict(records[1], {"load_ms_p50"}) == map["load_ms_p50" := Num(NaN)];
  }

  /** A row with the one key `load_ms_p50` is formatted to that key's formatted value. */
  lemma LoadOnlyFormatted(v: Value, rd: Renderer, fix: Variant)
    requires FormatCell("load_ms_p50", v, rd, fix).Ok?
    ensures Formatted(map["load_ms_p50" := v], rd, fix) == Ok(map["load_ms_p50" := FormatCell("load_ms_p50", v, rd, fix).value])
  {
    var row := map["load_ms_p50" := v];
    assert forall k :: k in row ==> k == "load_ms_p50";
    FormattedWhenNoneFails(row, rd, fix);
    var m := map k | k in row :: FormatCell(k, row[k], rd, fix).value;
    assert m == map["load_ms_p50" := FormatCell("load_ms_p50", v, rd, fix).value];
  }

  /** The second record's row: the slowest tier as written, "-" corrected. */
  lemma NaNLoadFormatted(rd: Renderer)
    ensures Formatted(map["load_ms_p50" := Num(NaN)], rd, AsWritten) ==
      Ok(map["load_ms_p50" := Str("🐌 " + rd.fixed1(NaN) + "ms")])
    ensures Formatted(map["load_ms_p50" := Num(NaN)], rd, Corrected) == Ok(map["load_ms_p50" := Str("-")])
  {
    FormatCellByKey(Num(NaN), rd, AsWritten);
    FormatCellByKey(Num(NaN), rd, Corrected);
    LoadOnlyFormatted(Num(NaN), rd, AsWritten);
    LoadOnlyFormatted(Num(NaN), rd, Corrected);
  }

  /** The first record's row is formatted without raising. */
  lemma FiniteLoadFormatted(rd: Renderer)
    ensures Formatted(map["load_ms_p50" := Num(Finite(50.0))], rd, AsWritten).Ok?
  {
    FormatCellByKey(Num(Finite(50.0)), rd, AsWritten);
    LoadOnlyFormatted(Num(Finite(50.0)), rd, AsWritten);
  }

  /** A two-row frame whose rows both format without raising is formatted row by row. */
  lemma FormatTwoRows(df: Frame, rd: Renderer)
    requires |df.rows| == 2 && df.columns != {} && Rectangular(df)
    requires Formatted(df.rows[0], rd, AsWritten).Ok? && Formatted(df.rows[1], rd, AsWritten).Ok?
    ensures FormatDataframe(df, rd).Ok?
    ensures FormatDataframe(df, rd).value.rows[1] == Formatted(df.rows[1], rd, AsWritten).value
  {
    ToDictWhole(df.rows[0], df.columns);
    ToDictWhole(df.rows[1], df.columns);
    forall i | 0 <= i < |df.rows| ensures Formatted(ToDict(df.rows[i], df.columns), rd, AsWritten).Ok? {
      assert i == 0 || i == 1;
    }
  }

  /**
   * `format_dataframe` on the frame of the two records shows the second row's NaN cell as
   * the slowest tier; the corrected formatting of that row shows "-".
   */
  lemma AbsentMetricShownAsSlowest(rd: Renderer)
    ensures FormatDataframe(TwoRowFrame, rd).Ok?
    ensures FormatDataframe(TwoRowFrame, rd).value.rows[1] == map["load_ms_p50" := Str("🐌 " + rd.fixed1(NaN) + "ms")]
    ensures Formatted(TwoRowFrame.rows[1], rd, Corrected) == Ok(map["load_ms_p50" := Str("-")])
  {
    var df := TwoRowFrame;
    assert df.rows[0] == map["load_ms_p50" := Num(Finite(50.0))];
    assert df.rows[1] == map["load_ms_p50" := Num(NaN)];
    assert Rectangular(df);
    NaNLoadFormatted(rd);
    FiniteLoadFormatted(rd);
    FormatTwoRows(df, rd);
  }
}
