/**
 * The part of the data loader that does not touch the network or the filesystem:
 * `flatten_result`, which turns one benchmark record as read from JSON into a flat row,
 * and `get_unique_values`, which lists the choices of a dropdown.
 */
module DataLoader {
  import opened Python
  import opened Frames
  import opened Sorting

  // ---------------------------------------------------------------------------------------
  // flatten_result

  const Zero: Value := Num(Finite(0.0))

  /** The base keys other than `timestamp`, each with the default `flatten_result` uses when the record lacks it. */
  const BaseDefaults: map<string, Value> := map[
    "id" := Str(""), "platform" := Str(""), "modelId" := Str(""), "task" := Str(""),
    "mode" := Str(""), "repeats" := Zero, "batchSize" := Zero, "device" := Str(""),
    "browser" := Str(""), "dtype" := Str(""), "headed" := Bool(false), "status" := Str(""),
    "runtime" := Str("")]

  /**
   * `timestamp_ms / 1000` through `datetime.fromtimestamp`: a falsy timestamp gives None;
   * dividing a non-number raises TypeError; NaN makes `fromtimestamp` raise ValueError,
   * which is caught and gives None.
   */
  function TimestampOf(timestampMs: Value): (r: Result<Value>)
    ensures r.Err? <==> Truthy(timestampMs) && AsNumber(timestampMs).None?
    ensures r.Err? ==> r.error == TypeError
    ensures r == Ok(Null) <==> !Truthy(timestampMs) || AsNumber(timestampMs) == Some(NaN)
    ensures r.Ok? && r.value != Null ==>
      r.value.Instant? && AsNumber(timestampMs) == Some(Finite(r.value.seconds * 1000.0))
  {
    if !Truthy(timestampMs) then Ok(Null)
    else match AsNumber(timestampMs)
      case None => Err(TypeError)
      case Some(NaN) => Ok(Null)
      case Some(Finite(ms)) => Ok(Instant(ms / 1000.0))
  }

  /** The `flat` dict before the conditional keys: the base keys and the converted timestamp. */
  function BaseFields(result: Row, timestamp: Value): (flat: Row)
    ensures flat.Keys == BaseDefaults.Keys + {"timestamp"}
    ensures forall k :: k in BaseDefaults ==> flat[k] == Get(result, k, BaseDefaults[k])
    ensures flat["timestamp"] == timestamp
  {
    (map k | k in BaseDefaults :: Get(result, k, BaseDefaults[k]))["timestamp" := timestamp]
  }

  /**
   * The pair of keys one metric contributes: none unless `name in metrics` and
   * `"p50" in metrics[name]`; then p50 and p90 are both read, and a missing p90 raises.
   */
  function Percentiles(metrics: Value, name: string, p50Key: string, p90Key: string): (r: Result<Row>)
    ensures r.Ok? && !HasPercentiles(metrics, name) ==> r.value == map[]
    ensures r.Ok? && HasPercentiles(metrics, name) ==>
      var metric := metrics.fields[name];
      metric.Obj? && "p50" in metric.fields && "p90" in metric.fields
      && r.value == map[p50Key := metric.fields["p50"], p90Key := metric.fields["p90"]]
    ensures metrics.Obj? && name !in metrics.fields ==> r == Ok(map[])
    ensures metrics.Obj? && name in metrics.fields && metrics.fields[name].Obj? ==>
      var metric := metrics.fields[name].fields;
      ("p50" in metric && "p90" !in metric <==> r.Err?) && (r.Err? ==> r.error == KeyError("p90"))
    ensures r.Err? ==> r.error == TypeError || r.error == KeyError("p90")
  {
    var has :- Contains(metrics, name);
    if !has then Ok(map[])
    else
      var metric :- Subscript(metrics, name);
      var hasP50 :- Contains(metric, "p50");
      if !hasP50 then Ok(map[])
      else
        var p50 :- Subscript(metric, "p50");
        var p90 :- Subscript(metric, "p90");
        Ok(map[p50Key := p50, p90Key := p90])
  }

  function MetricFields(result: Row): (r: Result<Row>)
    ensures "metrics" !in result ==> r == Ok(map[])
    ensures r.Ok? ==> r.value.Keys <= PercentileKeys
    ensures r.Err? ==> r.error == TypeError || r.error == KeyError("p90")
  {
    if "metrics" !in result then Ok(map[])
    else
      var metrics := result["metrics"];
      var load :- Percentiles(metrics, "load_ms", "load_ms_p50", "load_ms_p90");
      var first :- Percentiles(metrics, "first_infer_ms", "first_infer_ms_p50", "first_infer_ms_p90");
      var subsequent :- Percentiles(metrics, "subsequent_infer_ms", "subsequent_infer_ms_p50", "subsequent_infer_ms_p90");
      Ok(load + first + subsequent)
  }

  function EnvironmentFields(result: Row): (r: Result<Row>)
    ensures r.Err? <==> ("environment" in result &&
                         (!result["environment"].Obj? ||
                          ("memory" in result["environment"].fields && !result["environment"].fields["memory"].Obj?)))
    ensures r.Err? ==> r.error == AttributeError
    ensures r.Ok? ==> r.value.Keys <= EnvironmentKeys
  {
    if "environment" !in result then Ok(map[])
    else
      var env := result["environment"];
      var cores :- GetAttr(env, "cpuCores", Zero);
      if "memory" in env.fields then
        var memory :- GetAttr(env.fields["memory"], "deviceMemory", Zero);
        Ok(map["cpuCores" := cores, "memory_gb" := memory])
      else
        Ok(map["cpuCores" := cores])
  }

  /** `(completedAt - startedAt) / 1000`: subtracting anything but numbers raises TypeError. */
  function DurationFields(result: Row): (r: Result<Row>)
    ensures r.Err? <==> ("completedAt" in result && "startedAt" in result &&
                         (AsNumber(result["completedAt"]).None? || AsNumber(result["startedAt"]).None?))
    ensures r.Err? ==> r.error == TypeError
    ensures r.Ok? ==> (r.value.Keys <= {"duration_s"} &&
                       ("duration_s" in r.value <==> "completedAt" in result && "startedAt" in result))
    ensures r.Ok? && "duration_s" in r.value ==>
      var completed, started := AsNumber(result["completedAt"]), AsNumber(result["startedAt"]);
      completed.Some? && started.Some? && r.value["duration_s"] == Num(DiffOver(completed.value, started.value, 1000.0))
  {
    if "completedAt" in result && "startedAt" in result then
      match (AsNumber(result["completedAt"]), AsNumber(result["startedAt"]))
      case (Some(completed), Some(started)) => Ok(map["duration_s" := Num(DiffOver(completed, started, 1000.0))])
      case _ => Err(TypeError)
    else Ok(map[])
  }

  /** What `flatten_result` returns or raises, in the order the source evaluates the parts. */
  function Flattened(result: Row): (r: Result<Row>)
    ensures r.Ok? ==> BaseKeys <= r.value.Keys
    ensures r.Err? ==> r.error == TypeError || r.error == KeyError("p90") || r.error == AttributeError
  {
    var timestamp :- TimestampOf(Get(result, "timestamp", Zero));
    var metrics :- MetricFields(result);
    var env :- EnvironmentFields(result);
    var duration :- DurationFields(result);
    Ok(BaseFields(result, timestamp) + metrics + env + duration)
  }

  // Properties of the flattened row

  /** `metrics[name]` is a dict holding "p50": the condition under which one metric contributes its pair. */
  predicate HasPercentiles(metrics: Value, name: string) {
    metrics.Obj? && name in metrics.fields && Contains(metrics.fields[name], "p50") == Ok(true)
  }

  /** The metric names `flatten_result` looks for and the keys each contributes. */
  const MetricKeys: set<(string, string, string)> := {
    ("load_ms", "load_ms_p50", "load_ms_p90"),
    ("first_infer_ms", "first_infer_ms_p50", "first_infer_ms_p90"),
    ("subsequent_infer_ms", "subsequent_infer_ms_p50", "subsequent_infer_ms_p90")}

  const BaseKeys: set<string> := BaseDefaults.Keys + {"timestamp"}
  const PercentileKeys: set<string> := {
    "load_ms_p50", "load_ms_p90", "first_infer_ms_p50", "first_infer_ms_p90",
    "subsequent_infer_ms_p50", "subsequent_infer_ms_p90"}
  const EnvironmentKeys: set<string> := {"cpuCores", "memory_gb"}

  /** Every key `flatten_result` can produce. */
  const FlatKeys: set<string> := BaseKeys + PercentileKeys + EnvironmentKeys + {"duration_s"}

  /** The four groups of keys do not overlap. */
  lemma KeyGroups()
    ensures BaseKeys !! PercentileKeys && BaseKeys !! EnvironmentKeys && "duration_s" !in BaseKeys
    ensures PercentileKeys !! EnvironmentKeys && "duration_s" !in PercentileKeys + EnvironmentKeys
    ensures forall name, p50Key, p90Key :: (name, p50Key, p90Key) in MetricKeys ==>
      p50Key in PercentileKeys && p90Key in PercentileKeys && p50Key != p90Key
  {
    BaseApartFromPercentiles();
    BaseApartFromEnvironment();
  }

  lemma BaseApartFromPercentiles()
    ensures BaseKeys !! PercentileKeys
  {
    forall k | k in PercentileKeys ensures k !in BaseKeys {
      assert k[|k| - 4..|k| - 2] == "_p";
    }
  }

  lemma BaseApartFromEnvironment()
    ensures BaseKeys !! EnvironmentKeys
  {
  }

  /** A successful call returns the base dict updated with the three conditional parts. */
  lemma FlattenedParts(result: Row)
    requires Flattened(result).Ok?
    ensures TimestampOf(Get(result, "timestamp", Zero)).Ok?
    ensures MetricFields(result).Ok? && EnvironmentFields(result).Ok? && DurationFields(result).Ok?
    ensures Flattened(result).value ==
      BaseFields(result, TimestampOf(Get(result, "timestamp", Zero)).value)
      + MetricFields(result).value + EnvironmentFields(result).value + DurationFields(result).value
  {
  }

  lemma MetricFieldsShape(result: Row, name: string, p50Key: string, p90Key: string)
    requires MetricFields(result).Ok? && (name, p50Key, p90Key) in MetricKeys
    ensures MetricFields(result).value.Keys <= PercentileKeys
    ensures var fields := MetricFields(result).value;
      && (p50Key in fields <==> "metrics" in result && HasPercentiles(result["metrics"], name))
      && (p90Key in fields <==> p50Key in fields)
      && (p50Key in fields ==>
            fields[p50Key] == result["metrics"].fields[name].fields["p50"]
            && fields[p90Key] == result["metrics"].fields[name].fields["p90"])
  {
    if "metrics" in result {
      var metrics := result["metrics"];
      var load := Percentiles(metrics, "load_ms", "load_ms_p50", "load_ms_p90").value;
      var first := Percentiles(metrics, "first_infer_ms", "first_infer_ms_p50", "first_infer_ms_p90").value;
      var subsequent := Percentiles(metrics, "subsequent_infer_ms", "subsequent_infer_ms_p50", "subsequent_infer_ms_p90").value;
      if name == "load_ms" {
        assert p50Key !in first + subsequent && p90Key !in first + subsequent;
      } else if name == "first_infer_ms" {
        assert p50Key !in load + subsequent && p90Key !in subsequent;
      } else {
        assert p50Key in subsequent <==> p90Key in subsequent;
      }
    }
  }

  lemma EnvironmentFieldsShape(result: Row)
    requires EnvironmentFields(result).Ok?
    ensures var fields := EnvironmentFields(result).value;
      && fields.Keys <= EnvironmentKeys
      && ("cpuCores" in fields <==> "environment" in result)
      && ("memory_gb" in fields <==> "environment" in result && "memory" in result["environment"].fields)
      && ("cpuCores" in fields ==> fields["cpuCores"] == Get(result["environment"].fields, "cpuCores", Zero))
      && ("memory_gb" in fields ==>
            var memory := result["environment"].fields["memory"];
            memory.Obj? && fields["memory_gb"] == Get(memory.fields, "deviceMemory", Zero))
  {
  }

  /** The base keys come out of every successful call, with the record's value or the default. */
  lemma FlattenedBase(result: Row)
    requires Flattened(result).Ok?
    ensures var flat := Flattened(result).value;
      && BaseKeys <= flat.Keys
      && (forall k :: k in BaseDefaults ==> flat[k] == Get(result, k, BaseDefaults[k]))
      && flat["timestamp"] == TimestampOf(Get(result, "timestamp", Zero)).value
  {
    FlattenedParts(result);
    MetricFieldsShape(result, "load_ms", "load_ms_p50", "load_ms_p90");
    EnvironmentFieldsShape(result);
    KeyGroups();
    var base := BaseFields(result, TimestampOf(Get(result, "timestamp", Zero)).value);
    var added := MetricFields(result).value.Keys + EnvironmentFields(result).value.Keys + DurationFields(result).value.Keys;
    assert added !! BaseKeys;
    forall k | k in BaseKeys ensures Flattened(result).value[k] == base[k] {
      assert k !in added;
    }
  }

  /** A metric's pair appears exactly when the record has `metrics[name]["p50"]`, and then holds p50 and p90. */
  lemma FlattenedMetric(result: Row, name: string, p50Key: string, p90Key: string)
    requires Flattened(result).Ok? && (name, p50Key, p90Key) in MetricKeys
    ensures var flat := Flattened(result).value;
      && (p50Key in flat <==> "metrics" in result && HasPercentiles(result["metrics"], name))
      && (p90Key in flat <==> p50Key in flat)
      && (p50Key in flat ==>
            flat[p50Key] == result["metrics"].fields[name].fields["p50"]
            && flat[p90Key] == result["metrics"].fields[name].fields["p90"])
  {
    FlattenedParts(result);
    MetricFieldsShape(result, name, p50Key, p90Key);
    EnvironmentFieldsShape(result);
    KeyGroups();
  }

  /**
   * `cpuCores` appears exactly when the record has `environment` (default 0); `memory_gb`
   * exactly when the environment also has `memory` (default 0).
   */
  lemma FlattenedEnvironment(result: Row)
    requires Flattened(result).Ok?
    ensures var flat := Flattened(result).value;
      && ("cpuCores" in flat <==> "environment" in result)
      && ("memory_gb" in flat <==> "environment" in result && "memory" in result["environment"].fields)
      && ("cpuCores" in flat ==> flat["cpuCores"] == Get(result["environment"].fields, "cpuCores", Zero))
      && ("memory_gb" in flat ==>
            var memory := result["environment"].fields["memory"];
            memory.Obj? && flat["memory_gb"] == Get(memory.fields, "deviceMemory", Zero))
  {
    FlattenedParts(result);
    MetricFieldsShape(result, "load_ms", "load_ms_p50", "load_ms_p90");
    EnvironmentFieldsShape(result);
    KeyGroups();
  }

  /** `duration_s` appears exactly when both timestamps are there, as their difference in seconds. */
  lemma FlattenedDuration(result: Row)
    requires Flattened(result).Ok?
    ensures var flat := Flattened(result).value;
      && ("duration_s" in flat <==> "completedAt" in result && "startedAt" in result)
      && ("duration_s" in flat ==>
            var completed, started := AsNumber(result["completedAt"]), AsNumber(result["startedAt"]);
            completed.Some? && started.Some? && flat["duration_s"] == Num(DiffOver(completed.value, started.value, 1000.0)))
  {
    FlattenedParts(result);
    MetricFieldsShape(result, "load_ms", "load_ms_p50", "load_ms_p90");
    EnvironmentFieldsShape(result);
    KeyGroups();
  }

  /** No key beyond the base keys and the conditional ones is ever produced. */
  lemma FlattenedKeys(result: Row)
    requires Flattened(result).Ok?
    ensures Flattened(result).value.Keys <= FlatKeys
  {
    FlattenedParts(result);
    MetricFieldsShape(result, "load_ms", "load_ms_p50", "load_ms_p90");
    EnvironmentFieldsShape(result);
    KeyGroups();
  }

  /** Dividing a truthy non-numeric timestamp raises before anything else is read. */
  lemma TimestampTypeError(result: Row)
    requires var ts := Get(result, "timestamp", Zero); Truthy(ts) && AsNumber(ts).None?
    ensures Flattened(result) == Err(TypeError)
  {
  }

  /** A metric with "p50" but no "p90" raises KeyError, even though p50 was already copied. */
  lemma MissingP90Raises(result: Row)
    requires "metrics" in result && result["metrics"].Obj? && "load_ms" in result["metrics"].fields
    requires var load := result["metrics"].fields["load_ms"];
      load.Obj? && "p50" in load.fields && "p90" !in load.fields
    requires TimestampOf(Get(result, "timestamp", Zero)).Ok?
    ensures Flattened(result) == Err(KeyError("p90"))
  {
  }

  /** A record with nothing but base keys and a numeric or missing timestamp flattens to exactly the base keys. */
  lemma PlainRecordFlattens(result: Row)
    requires "metrics" !in result && "environment" !in result && "completedAt" !in result
    requires "timestamp" in result ==> AsNumber(result["timestamp"]).Some?
    ensures Flattened(result).Ok?
    ensures Flattened(result).value.Keys == BaseDefaults.Keys + {"timestamp"}
  {
    assert Get(result, "timestamp", Zero).Num? || Get(result, "timestamp", Zero).Bool?;
    assert BaseFields(result, TimestampOf(Get(result, "timestamp", Zero)).value) + map[] + map[] + map[]
      == BaseFields(result, TimestampOf(Get(result, "timestamp", Zero)).value);
  }

  /** One `if name in metrics and "p50" in metrics[name]` block of `flatten_result`. */
  method AddPercentiles(flat: Row, metrics: Value, name: string, p50Key: string, p90Key: string)
    returns (r: Result<Row>)
    ensures r == (var entries :- Percentiles(metrics, name, p50Key, p90Key); Ok(flat + entries))
  {
    assert flat + map[] == flat;
    var has :- Contains(metrics, name);
    if !has {
      return Ok(flat);
    }
    var metric :- Subscript(metrics, name);
    var hasP50 :- Contains(metric, "p50");
    if !hasP50 {
      return Ok(flat);
    }
    var p50 :- Subscript(metric, "p50");
    var updated := flat[p50Key := p50];
    var p90 :- Subscript(metric, "p90");
    updated := updated[p90Key := p90];
    assert updated == flat + map[p50Key := p50, p90Key := p90];
    return Ok(updated);
  }

  lemma UnionAssociative(a: Row, b: Row, c: Row)
    ensures a + b + c == a + (b + c)
  {
    assert (a + b + c).Keys == (a + (b + c)).Keys;
  }

  /** The `# Convert timestamp from milliseconds to datetime` block of `flatten_result`. */
  method ConvertTimestamp(timestampMs: Value) returns (r: Result<Value>)
    ensures r == TimestampOf(timestampMs)
  {
    var timestampDt := Null;
    if Truthy(timestampMs) {
      var ms := AsNumber(timestampMs);
      if ms.None? {
        return Err(TypeError);
      }
      if ms.value.Finite? {
        timestampDt := Instant(ms.value.x / 1000.0);
      }
    }
    return Ok(timestampDt);
  }

  /** The `# Extract metrics` block of `flatten_result`. */
  method AddMetrics(flat: Row, result: Row) returns (r: Result<Row>)
    ensures r == (var metrics :- MetricFields(result); Ok(flat + metrics))
  {
    if "metrics" !in result {
      assert flat + map[] == flat;
      return Ok(flat);
    }
    var metrics := result["metrics"];
    var load :- AddPercentiles(flat, metrics, "load_ms", "load_ms_p50", "load_ms_p90");
    var first :- AddPercentiles(load, metrics, "first_infer_ms", "first_infer_ms_p50", "first_infer_ms_p90");
    var subsequent :- AddPercentiles(first, metrics, "subsequent_infer_ms", "subsequent_infer_ms_p50", "subsequent_infer_ms_p90");
    ghost var parts := MetricFields(result).value;
    ghost var p1 := Percentiles(metrics, "load_ms", "load_ms_p50", "load_ms_p90").value;
    ghost var p2 := Percentiles(metrics, "first_infer_ms", "first_infer_ms_p50", "first_infer_ms_p90").value;
    ghost var p3 := Percentiles(metrics, "subsequent_infer_ms", "subsequent_infer_ms_p50", "subsequent_infer_ms_p90").value;
    UnionAssociative(flat, p1, p2);
    UnionAssociative(flat, p1 + p2, p3);
    return Ok(subsequent);
  }

  /** The `# Extract environment info` block of `flatten_result`. */
  method AddEnvironment(flat: Row, result: Row) returns (r: Result<Row>)
    ensures r == (var env :- EnvironmentFields(result); Ok(flat + env))
  {
    if "environment" !in result {
      assert flat + map[] == flat;
      return Ok(flat);
    }
    var env := result["environment"];
    var cores :- GetAttr(env, "cpuCores", Zero);
    var updated := flat["cpuCores" := cores];
    if "memory" in env.fields {
      var memoryGb :- GetAttr(env.fields["memory"], "deviceMemory", Zero);
      updated := updated["memory_gb" := memoryGb];
      assert updated == flat + map["cpuCores" := cores, "memory_gb" := memoryGb];
    } else {
      assert updated == flat + map["cpuCores" := cores];
    }
    return Ok(updated);
  }

  /** The `# Calculate duration` block of `flatten_result`. */
  method AddDuration(flat: Row, result: Row) returns (r: Result<Row>)
    ensures r == (var duration :- DurationFields(result); Ok(flat + duration))
  {
    if "completedAt" in result && "startedAt" in result {
      var completed := AsNumber(result["completedAt"]);
      var started := AsNumber(result["startedAt"]);
      if completed.None? || started.None? {
        return Err(TypeError);
      }
      var duration := Num(DiffOver(completed.value, started.value, 1000.0));
      assert flat["duration_s" := duration] == flat + map["duration_s" := duration];
      return Ok(flat["duration_s" := duration]);
    }
    assert flat + map[] == flat;
    return Ok(flat);
  }

  /**
   * `flatten_result`: converts the timestamp, builds the base dict, then adds the metric,
   * environment and duration keys; the first operation that raises ends it.
   */
  method FlattenResult(result: Row) returns (r: Result<Row>)
    ensures r == Flattened(result)
  {
    var timestampDt :- ConvertTimestamp(Get(result, "timestamp", Zero));
    var flat := BaseFields(result, timestampDt);
    flat :- AddMetrics(flat, result);
    flat :- AddEnvironment(flat, result);
    flat :- AddDuration(flat, result);
    return Ok(flat);
  }

  // ---------------------------------------------------------------------------------------
  // get_unique_values

  /** What `dropna` drops: None and NaN. */
  predicate Missing(v: Value) {
    v == Null || v == Num(NaN)
  }

  /** `series.dropna()`. */
  function DropMissing(vs: seq<Value>): (r: seq<Value>)
    ensures forall v :: v in r <==> v in vs && !Missing(v)
  {
    if vs == [] then []
    else
      var rest := DropMissing(vs[1..]);
      assert forall v :: v in vs <==> v == vs[0] || v in vs[1..];
      if Missing(vs[0]) then rest else [vs[0]] + rest
  }

  predicate NoDuplicates(vs: seq<Value>) {
    forall i, j :: 0 <= i < j < |vs| ==> vs[i] != vs[j]
  }

  /** `.unique()`: each value once, in the order of first appearance. */
  function Unique(vs: seq<Value>): (r: seq<Value>)
    ensures forall v :: v in r <==> v in vs
    ensures NoDuplicates(r)
  {
    if vs == [] then []
    else
      var front := vs[..|vs| - 1];
      var last := vs[|vs| - 1];
      var rest := Unique(front);
      assert vs == front + [last];
      if last in rest then rest else rest + [last]
  }

  /** A sequence without duplicates is as long as the set of its elements is large. */
  lemma {:induction false} NoDuplicatesCard(vs: seq<Value>)
    requires NoDuplicates(vs)
    ensures |set v | v in vs| == |vs|
  {
    if vs != [] {
      var rest := vs[1..];
      assert NoDuplicates(rest) by {
        forall i, j | 0 <= i < j < |rest| ensures rest[i] != rest[j] {
          assert rest[i] == vs[i + 1] && rest[j] == vs[j + 1];
        }
      }
      NoDuplicatesCard(rest);
      assert vs[0] !in rest;
      assert (set v | v in vs) == (set v | v in rest) + {vs[0]};
    }
  }

  /** `[str(v) for v in values]`. */
  function Shown(vs: seq<Value>, show: Value -> string): (r: seq<string>)
    ensures |r| == |vs|
    ensures forall i :: 0 <= i < |vs| ==> r[i] == show(vs[i])
  {
    seq(|vs|, i requires 0 <= i < |vs| => show(vs[i]))
  }

  /** The distinct values of a column that are not missing. */
  function Choices(df: Frame, column: string): seq<Value> {
    Unique(DropMissing(ColumnValues(df, column)))
  }

  /**
   * `get_unique_values`: "All", then the distinct non-missing values of the column as text,
   * sorted; just "All" for an empty frame or a column the frame lacks.
   */
  function GetUniqueValues(df: Frame, column: string, show: Value -> string): (r: seq<string>)
    ensures |r| >= 1 && r[0] == "All"
    ensures Empty(df) || column !in df.columns ==> r == ["All"]
    ensures !Empty(df) && column in df.columns ==>
      Sorted(r[1..]) && multiset(r[1..]) == multiset(Shown(Choices(df, column), show))
  {
    if Empty(df) || column !in df.columns then ["All"]
    else
      var r := ["All"] + Sort(Shown(Choices(df, column), show));
      assert r[1..] == Sort(Shown(Choices(df, column), show));
      r
  }

  /** A string is offered exactly when some row has a non-missing value in the column that renders as it. */
  lemma UniqueValuesOffered(df: Frame, column: string, show: Value -> string, s: string)
    requires !Empty(df) && column in df.columns
    ensures s in GetUniqueValues(df, column, show)[1..] <==>
      exists i :: 0 <= i < |df.rows| && !Missing(Cell(df.rows[i], column)) && show(Cell(df.rows[i], column)) == s
  {
    var r := GetUniqueValues(df, column, show)[1..];
    var choices := Choices(df, column);
    var shown := Shown(choices, show);
    var column' := ColumnValues(df, column);
    assert s in r <==> s in multiset(shown);
    if s in shown {
      var j :| 0 <= j < |shown| && shown[j] == s;
      assert choices[j] in column';
      var i :| 0 <= i < |column'| && column'[i] == choices[j];
    }
    if exists i :: 0 <= i < |df.rows| && !Missing(Cell(df.rows[i], column)) && show(Cell(df.rows[i], column)) == s {
      var i :| 0 <= i < |df.rows| && !Missing(Cell(df.rows[i], column)) && show(Cell(df.rows[i], column)) == s;
      assert column'[i] in column';
      var j :| 0 <= j < |choices| && choices[j] == column'[i];
      assert shown[j] == s;
    }
  }

  /** One entry per distinct non-missing value: the list is one longer than the set of those values. */
  lemma UniqueValuesCount(df: Frame, column: string, show: Value -> string)
    requires !Empty(df) && column in df.columns
    ensures |GetUniqueValues(df, column, show)| ==
      1 + |set i | 0 <= i < |df.rows| && !Missing(Cell(df.rows[i], column)) :: Cell(df.rows[i], column)|
  {
    var choices := Choices(df, column);
    var column' := ColumnValues(df, column);
    NoDuplicatesCard(choices);
    assert (set v | v in choices) ==
      (set i | 0 <= i < |df.rows| && !Missing(Cell(df.rows[i], column)) :: Cell(df.rows[i], column)) by {
      forall v | v in choices
        ensures v in set i | 0 <= i < |df.rows| && !Missing(Cell(df.rows[i], column)) :: Cell(df.rows[i], column)
      {
        var i :| 0 <= i < |column'| && column'[i] == v;
      }
    }
    assert |multiset(GetUniqueValues(df, column, show)[1..])| == |choices|;
  }

  /** The sorted list is the only sorted arrangement of the rendered values, so the result is fully determined. */
  lemma UniqueValuesDetermined(df: Frame, column: string, show: Value -> string, other: seq<string>)
    requires !Empty(df) && column in df.columns
    requires Sorted(other) && multiset(other) == multiset(Shown(Choices(df, column), show))
    ensures GetUniqueValues(df, column, show) == ["All"] + other
  {
    var r := GetUniqueValues(df, column, show);
    SortedUnique(r[1..], other);
    assert r == [r[0]] + r[1..];
  }
}
