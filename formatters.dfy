/**
 * The leaderboard's display formatters: categorical values get an emoji prefix from a
 * lookup table, numeric values get one of a few tiers by threshold chains, and
 * `apply_formatting` rewrites the recognised keys of one result row.
 */
module Formatters {
  import opened Python

  /**
   * How numbers and datetimes become text. Python's own rendering (`f"{v:.1f}"`, `str(v)`,
   * `strftime("%Y-%m-%d %H:%M:%S")`) depends on the library and the local timezone, so the
   * model takes it as a parameter.
   */
  datatype Renderer = Renderer(
    fixed1: Number -> string,  // f"{value:.1f}"
    show: Value -> string,     // str(value)
    clock: real -> string)     // the datetime at that many seconds since the epoch, as strftime text

  // ---------------------------------------------------------------------------------------
  // Categorical values: emoji lookup tables with passthrough for unknown values

  const PlatformEmoji: map<string, string> := map["node" := "🟢", "web" := "🌐"]
  const DeviceEmoji: map<string, string> :=
    map["wasm" := "📦", "webgpu" := "⚡", "cpu" := "🖥️", "cuda" := "🎮"]
  const BrowserEmoji: map<string, string> :=
    map["chromium" := "🔵", "chrome" := "🔵", "firefox" := "🦊", "webkit" := "🧭", "safari" := "🧭"]
  const StatusEmoji: map<string, string> :=
    map["completed" := "✅", "failed" := "❌", "running" := "🔄", "pending" := "⏳"]
  const ModeEmoji: map<string, string> := map["warm" := "🔥", "cold" := "❄️"]

  /**
   * `emoji = table.get(key, ""); f"{emoji} {value}" if emoji else value`: the label keeps the
   * value's own spelling at its end, after the emoji and a space when the table has one.
   */
  function Labelled(table: map<string, string>, key: string, value: string): (r: string)
    ensures |r| >= |value| && r[|r| - |value|..] == value
    ensures r == value <==> key !in table || table[key] == ""
    ensures key in table && table[key] != "" ==> r[..|r| - |value|] == table[key] + " "
  {
    if key in table && table[key] != "" then table[key] + " " + value else value
  }

  function FormatPlatform(platform: string): (r: string)
    ensures platform == "node" ==> r == "🟢 node"
    ensures platform == "web" ==> r == "🌐 web"
    ensures platform !in {"node", "web"} ==> r == platform
  {
    Labelled(PlatformEmoji, platform, platform)
  }

  function FormatDevice(device: string): (r: string)
    ensures device == "wasm" ==> r == "📦 wasm"
    ensures device == "webgpu" ==> r == "⚡ webgpu"
    ensures device == "cpu" ==> r == "🖥️ cpu"
    ensures device == "cuda" ==> r == "🎮 cuda"
    ensures device !in {"wasm", "webgpu", "cpu", "cuda"} ==> r == device
  {
    assert DeviceEmoji["webgpu"] == "⚡";
    Labelled(DeviceEmoji, device, device)
  }

  /** The lookup ignores ASCII case but the label keeps the browser's own spelling. */
  function FormatBrowser(browser: string): (r: string)
    ensures browser == "" ==> r == ""
    ensures Lower(browser) in {"chromium", "chrome"} ==> r == "🔵 " + browser
    ensures Lower(browser) == "firefox" ==> r == "🦊 " + browser
    ensures Lower(browser) in {"webkit", "safari"} ==> r == "🧭 " + browser
    ensures Lower(browser) !in BrowserEmoji ==> r == browser
  {
    if browser == "" then "" else Labelled(BrowserEmoji, Lower(browser), browser)
  }

  /** Two spellings of the same browser name get the same emoji. */
  lemma BrowserCaseInsensitive(a: string, b: string)
    requires Lower(a) == Lower(b)
    ensures var ra, rb := FormatBrowser(a), FormatBrowser(b);
      |ra| >= |a| && |rb| >= |b| && ra[..|ra| - |a|] == rb[..|rb| - |b|]
  {
  }

  function FormatStatus(status: string): (r: string)
    ensures status == "completed" ==> r == "✅ completed"
    ensures status == "failed" ==> r == "❌ failed"
    ensures status == "running" ==> r == "🔄 running"
    ensures status == "pending" ==> r == "⏳ pending"
    ensures status !in {"completed", "failed", "running", "pending"} ==> r == status
  {
    Labelled(StatusEmoji, status, status)
  }

  function FormatMode(mode: string): (r: string)
    ensures mode == "warm" ==> r == "🔥 warm"
    ensures mode == "cold" ==> r == "❄️ cold"
    ensures mode !in {"warm", "cold"} ==> r == mode
  {
    Labelled(ModeEmoji, mode, mode)
  }

  function FormatHeaded(headed: bool): (r: string)
    ensures r == "👁️ Yes" <==> headed
    ensures r == "No" <==> !headed
  {
    if headed then "👁️ Yes" else "No"
  }

  // ---------------------------------------------------------------------------------------
  // Latencies and durations: five speed tiers

  datatype Speed = VeryFast | Fast | Good | Slow | VerySlow {
    function Rank(): nat {
      match this
      case VeryFast => 0
      case Fast => 1
      case Good => 2
      case Slow => 3
      case VerySlow => 4
    }

    function Emoji(): string {
      match this
      case VeryFast => "🚀"
      case Fast => "⚡"
      case Good => "✅"
      case Slow => "⚠️"
      case VerySlow => "🐌"
    }
  }

  /** The upper bounds (exclusive) of the four fastest tiers. */
  datatype Cutoffs = Cutoffs(veryFast: real, fast: real, good: real, slow: real) {
    predicate Ascending() { veryFast <= fast <= good <= slow }
  }

  const LoadCutoffs := Cutoffs(100.0, 500.0, 2000.0, 5000.0)
  const InferenceCutoffs := Cutoffs(5.0, 20.0, 50.0, 100.0)
  const DurationCutoffs := Cutoffs(5.0, 15.0, 60.0, 300.0)

  /** The `if value < a: ... elif value < b: ...` chain; NaN fails every test and lands in the slowest tier. */
  function SpeedOf(v: Number, c: Cutoffs): (t: Speed)
    requires c.Ascending()
    ensures v.NaN? ==> t == VerySlow
    ensures v.Finite? ==> (t == VeryFast <==> v.x < c.veryFast)
    ensures v.Finite? ==> (t == Fast <==> c.veryFast <= v.x < c.fast)
    ensures v.Finite? ==> (t == Good <==> c.fast <= v.x < c.good)
    ensures v.Finite? ==> (t == Slow <==> c.good <= v.x < c.slow)
    ensures v.Finite? ==> (t == VerySlow <==> c.slow <= v.x)
  {
    if Below(v, c.veryFast) then VeryFast
    else if Below(v, c.fast) then Fast
    else if Below(v, c.good) then Good
    else if Below(v, c.slow) then Slow
    else VerySlow
  }

  /** A larger value never gets a faster tier. */
  lemma SpeedMonotone(a: real, b: real, c: Cutoffs)
    requires c.Ascending() && a <= b
    ensures SpeedOf(Finite(a), c).Rank() <= SpeedOf(Finite(b), c).Rank()
  {
  }

  /** `metric_type == "load"` selects the load thresholds; every other type is an inference metric. */
  function MetricCutoffs(metricType: string): (c: Cutoffs)
    ensures c.Ascending()
    ensures metricType == "load" ==> c == Cutoffs(100.0, 500.0, 2000.0, 5000.0)
    ensures metricType != "load" ==> c == Cutoffs(5.0, 20.0, 50.0, 100.0)
  {
    if metricType == "load" then LoadCutoffs else InferenceCutoffs
  }

  /** `value is None or value == 0`, the test the source writes for "no reading". */
  predicate NoReadingAsWritten(value: Option<Number>): (r: bool)
    ensures value == Some(NaN) ==> !r
    ensures value.Some? && value.value.Finite? ==> (r <==> value.value.x == 0.0)
  {
    value == None || value == Some(Finite(0.0))
  }

  /** No reading: also the NaN that pandas leaves in a cell the record did not have. */
  predicate NoReading(value: Option<Number>) {
    NoReadingAsWritten(value) || value == Some(NaN)
  }

  /** `format_metric_ms` as written: a NaN cell falls through to the slowest tier. */
  function FormatMetricMsAsWritten(value: Option<Number>, metricType: string, rd: Renderer): (r: string)
    ensures r == "-" <==> NoReadingAsWritten(value)
    ensures value == Some(NaN) ==> r == "🐌 " + rd.fixed1(NaN) + "ms"
    ensures !NoReadingAsWritten(value) ==>
      r == SpeedOf(value.value, MetricCutoffs(metricType)).Emoji() + " " + rd.fixed1(value.value) + "ms"
  {
    if NoReadingAsWritten(value) then "-"
    else SpeedOf(value.value, MetricCutoffs(metricType)).Emoji() + " " + rd.fixed1(value.value) + "ms"
  }

  /** `format_metric_ms` with a missing cell shown as "-" like None. */
  function FormatMetricMs(value: Option<Number>, metricType: string, rd: Renderer): (r: string)
    ensures r == "-" <==> NoReading(value)
    ensures !NoReading(value) ==> r == FormatMetricMsAsWritten(value, metricType, rd)
  {
    if value == Some(NaN) then "-" else FormatMetricMsAsWritten(value, metricType, rd)
  }

  /** `format_duration` as written. */
  function FormatDurationAsWritten(durationS: Option<Number>, rd: Renderer): (r: string)
    ensures r == "-" <==> NoReadingAsWritten(durationS)
    ensures durationS == Some(NaN) ==> r == "🐌 " + rd.fixed1(NaN) + "s"
    ensures !NoReadingAsWritten(durationS) ==>
      r == SpeedOf(durationS.value, Cutoffs(5.0, 15.0, 60.0, 300.0)).Emoji() + " " + rd.fixed1(durationS.value) + "s"
  {
    if NoReadingAsWritten(durationS) then "-"
    else SpeedOf(durationS.value, DurationCutoffs).Emoji() + " " + rd.fixed1(durationS.value) + "s"
  }

  function FormatDuration(durationS: Option<Number>, rd: Renderer): (r: string)
    ensures r == "-" <==> NoReading(durationS)
    ensures !NoReading(durationS) ==> r == FormatDurationAsWritten(durationS, rd)
  {
    if durationS == Some(NaN) then "-" else FormatDurationAsWritten(durationS, rd)
  }

  // ---------------------------------------------------------------------------------------
  // Memory and CPU cores: four capacity tiers

  datatype Capacity = High | Adequate | Medium | Low {
    function Rank(): nat {
      match this
      case Low => 0
      case Medium => 1
      case Adequate => 2
      case High => 3
    }

    function Emoji(): string {
      match this
      case High => "💪"
      case Adequate => "✅"
      case Medium => "⚠️"
      case Low => "📉"
    }
  }

  /** The lower bounds (inclusive) of the three upper tiers. */
  datatype Steps = Steps(high: real, adequate: real, medium: real) {
    predicate Descending() { high >= adequate >= medium }
  }

  const MemorySteps := Steps(32.0, 16.0, 8.0)
  const CoreSteps := Steps(16.0, 8.0, 4.0)

  /** The `if value >= a: ... elif value >= b: ...` chain; NaN lands in the lowest tier. */
  function CapacityOf(v: Number, s: Steps): (t: Capacity)
    requires s.Descending()
    ensures v.NaN? ==> t == Low
    ensures v.Finite? ==> (t == High <==> s.high <= v.x)
    ensures v.Finite? ==> (t == Adequate <==> s.adequate <= v.x < s.high)
    ensures v.Finite? ==> (t == Medium <==> s.medium <= v.x < s.adequate)
    ensures v.Finite? ==> (t == Low <==> v.x < s.medium)
  {
    if AtLeast(v, s.high) then High
    else if AtLeast(v, s.adequate) then Adequate
    else if AtLeast(v, s.medium) then Medium
    else Low
  }

  /** More memory or more cores never gets a lower tier. */
  lemma CapacityMonotone(a: real, b: real, s: Steps)
    requires s.Descending() && a <= b
    ensures CapacityOf(Finite(a), s).Rank() <= CapacityOf(Finite(b), s).Rank()
  {
  }

  /** `format_memory` as written: a NaN cell falls through to the lowest tier. */
  function FormatMemoryAsWritten(memoryGb: Option<Number>, rd: Renderer): (r: string)
    ensures r == "-" <==> NoReadingAsWritten(memoryGb)
    ensures memoryGb == Some(NaN) ==> r == "📉 " + rd.show(Num(NaN)) + "GB"
    ensures !NoReadingAsWritten(memoryGb) ==>
      r == CapacityOf(memoryGb.value, Steps(32.0, 16.0, 8.0)).Emoji() + " " + rd.show(Num(memoryGb.value)) + "GB"
  {
    if NoReadingAsWritten(memoryGb) then "-"
    else CapacityOf(memoryGb.value, MemorySteps).Emoji() + " " + rd.show(Num(memoryGb.value)) + "GB"
  }

  function FormatMemory(memoryGb: Option<Number>, rd: Renderer): (r: string)
    ensures r == "-" <==> NoReading(memoryGb)
    ensures !NoReading(memoryGb) ==> r == FormatMemoryAsWritten(memoryGb, rd)
  {
    if memoryGb == Some(NaN) then "-" else FormatMemoryAsWritten(memoryGb, rd)
  }

  /** `format_cpu_cores` as written: a NaN cell falls through to the lowest tier. */
  function FormatCpuCoresAsWritten(cores: Option<Number>, rd: Renderer): (r: string)
    ensures r == "-" <==> NoReadingAsWritten(cores)
    ensures cores == Some(NaN) ==> r == "📉 " + rd.show(Num(NaN)) + " cores"
    ensures !NoReadingAsWritten(cores) ==>
      r == CapacityOf(cores.value, Steps(16.0, 8.0, 4.0)).Emoji() + " " + rd.show(Num(cores.value)) + " cores"
  {
    if NoReadingAsWritten(cores) then "-"
    else CapacityOf(cores.value, CoreSteps).Emoji() + " " + rd.show(Num(cores.value)) + " cores"
  }

  function FormatCpuCores(cores: Option<Number>, rd: Renderer): (r: string)
    ensures r == "-" <==> NoReading(cores)
    ensures !NoReading(cores) ==> r == FormatCpuCoresAsWritten(cores, rd)
  {
    if cores == Some(NaN) then "-" else FormatCpuCoresAsWritten(cores, rd)
  }

  /**
   * A row without metrics, environment or timing gets NaN in those cells once it is in a
   * data frame; the formatters as written show such a cell as the slowest or lowest tier.
   */
  lemma MissingCellShownAsWorstTier(rd: Renderer)
    ensures FormatMetricMsAsWritten(Some(NaN), "load", rd) == "🐌 " + rd.fixed1(NaN) + "ms"
    ensures FormatDurationAsWritten(Some(NaN), rd) == "🐌 " + rd.fixed1(NaN) + "s"
    ensures FormatMemoryAsWritten(Some(NaN), rd) == "📉 " + rd.show(Num(NaN)) + "GB"
    ensures FormatCpuCoresAsWritten(Some(NaN), rd) == "📉 " + rd.show(Num(NaN)) + " cores"
    ensures FormatMetricMs(Some(NaN), "load", rd) == "-" && FormatDuration(Some(NaN), rd) == "-"
    ensures FormatMemory(Some(NaN), rd) == "-" && FormatCpuCores(Some(NaN), rd) == "-"
  {
  }

  /** `format_timestamp`: None gives "-", a datetime its strftime text, anything else `str(value)`. */
  function FormatTimestamp(timestamp: Value, rd: Renderer): (r: string)
    ensures timestamp == Null ==> r == "-"
    ensures timestamp.Instant? ==> r == rd.clock(timestamp.seconds)
    ensures !timestamp.Null? && !timestamp.Instant? ==> r == rd.show(timestamp)
  {
    match timestamp
    case Null => "-"
    case Instant(seconds) => rd.clock(seconds)
    case _ => rd.show(timestamp)
  }

  // ---------------------------------------------------------------------------------------
  // The formatters applied to whatever value a row holds

  /**
   * A table formatter on any cell: strings are looked up, other hashable values miss the
   * table and come back unchanged, and lists and dicts are unhashable (TypeError).
   */
  function LookupCell(v: Value, format: string -> string): (r: Result<Value>)
    ensures v.Str? ==> r == Ok(Str(format(v.s)))
    ensures (v.Arr? || v.Obj?) ==> r == Err(TypeError)
    ensures !(v.Str? || v.Arr? || v.Obj?) ==> r == Ok(v)
  {
    match v
    case Str(s) => Ok(Str(format(s)))
    case Arr(_) => Err(TypeError)
    case Obj(_) => Err(TypeError)
    case _ => Ok(v)
  }

  /** `format_browser` on any cell: a falsy value gives "", a truthy non-string has no `lower` method. */
  function BrowserCell(v: Value): (r: Result<Value>)
    ensures !Truthy(v) ==> r == Ok(Str(""))
    ensures v.Str? ==> r == Ok(Str(FormatBrowser(v.s)))
    ensures Truthy(v) && !v.Str? ==> r == Err(AttributeError)
  {
    if !Truthy(v) then Ok(Str(""))
    else if v.Str? then Ok(Str(FormatBrowser(v.s)))
    else Err(AttributeError)
  }

  /**
   * The argument a numeric formatter sees: None, or a number; any other value passes the
   * `value == 0` test and then fails the first `<` or `>=` comparison (TypeError).
   */
  function NumberCell(v: Value): (r: Result<Option<Number>>)
    ensures v == Null ==> r == Ok(None)
    ensures r.Ok? && r.value.Some? <==> (v.Bool? || v.Num?)
    ensures r.Ok? && r.value.Some? ==> Some(r.value.value) == AsNumber(v)
    ensures r.Err? <==> !(v.Null? || v.Bool? || v.Num?)
    ensures r.Err? ==> r.error == TypeError
  {
    if v.Null? then Ok(None)
    else match AsNumber(v)
      case Some(n) => Ok(Some(n))
      case None => Err(TypeError)
  }

  /** The keys `apply_formatting` rewrites, in the order it visits them. */
  const FieldOrder: seq<string> := [
    "platform", "device", "browser", "status", "mode", "headed",
    "load_ms_p50", "load_ms_p90", "first_infer_ms_p50", "first_infer_ms_p90",
    "subsequent_infer_ms_p50", "subsequent_infer_ms_p90",
    "memory_gb", "cpuCores", "duration_s", "timestamp"]

  lemma FieldOrderDistinct()
    ensures forall a, b :: 0 <= a < b < |FieldOrder| ==> FieldOrder[a] != FieldOrder[b]
  {
  }

  /** The position of a listed key in `FieldOrder`. */
  function IndexOf(key: string): (i: nat)
    requires key in FieldOrder
    ensures i < |FieldOrder| && FieldOrder[i] == key
  {
    FieldOrderDistinct();
    var i :| 0 <= i < |FieldOrder| && FieldOrder[i] == key; i
  }

  lemma IndexOfAt(i: nat)
    requires i < |FieldOrder|
    ensures IndexOf(FieldOrder[i]) == i
  {
    FieldOrderDistinct();
  }

  /** `format_headed` on any cell: Python tests the value's truthiness, so it never raises. */
  function HeadedCell(v: Value): (r: Result<Value>)
    ensures r == Ok(Str("👁️ Yes")) <==> Truthy(v)
    ensures r == Ok(Str("No")) <==> !Truthy(v)
  {
    Ok(Str(FormatHeaded(Truthy(v))))
  }

  /**
   * The formatting of the numeric cells: the code as written, which shows a NaN cell as the
   * slowest or lowest tier, or corrected so that NaN is shown as "-" like None.
   */
  datatype Variant = AsWritten | Corrected

  /** The keys `apply_formatting` formats as numbers. */
  const NumericFields: set<string> := {
    "load_ms_p50", "load_ms_p90", "first_infer_ms_p50", "first_infer_ms_p90",
    "subsequent_infer_ms_p50", "subsequent_infer_ms_p90", "memory_gb", "cpuCores", "duration_s"}

  /**
   * `format_metric_ms` on any cell: None and the falsy numbers give "-", a truthy number its
   * tier and `.1f` text, and anything else raises TypeError at the first comparison.
   */
  function MetricCell(v: Value, metricType: string, rd: Renderer, fix: Variant): (r: Result<Value>)
    ensures r.Err? <==> !(v.Null? || v.Bool? || v.Num?)
    ensures r.Err? ==> r.error == TypeError
    ensures v.Null? || ((v.Bool? || v.Num?) && !Truthy(v)) ==> r == Ok(Str("-"))
    ensures v == Num(NaN) ==> r == Ok(Str(if fix == Corrected then "-" else "🐌 " + rd.fixed1(NaN) + "ms"))
    ensures Truthy(v) && AsNumber(v).Some? && AsNumber(v).value.Finite? ==>
      var n := AsNumber(v).value;
      r == Ok(Str(SpeedOf(n, MetricCutoffs(metricType)).Emoji() + " " + rd.fixed1(n) + "ms"))
  {
    var n :- NumberCell(v);
    Ok(Str(if fix == Corrected then FormatMetricMs(n, metricType, rd) else FormatMetricMsAsWritten(n, metricType, rd)))
  }

  /** `format_memory` on any cell. */
  function MemoryCell(v: Value, rd: Renderer, fix: Variant): (r: Result<Value>)
    ensures r.Err? <==> !(v.Null? || v.Bool? || v.Num?)
    ensures r.Err? ==> r.error == TypeError
    ensures v.Null? || ((v.Bool? || v.Num?) && !Truthy(v)) ==> r == Ok(Str("-"))
    ensures v == Num(NaN) ==> r == Ok(Str(if fix == Corrected then "-" else "📉 " + rd.show(Num(NaN)) + "GB"))
    ensures Truthy(v) && AsNumber(v).Some? && AsNumber(v).value.Finite? ==>
      var n := AsNumber(v).value;
      r == Ok(Str(CapacityOf(n, Steps(32.0, 16.0, 8.0)).Emoji() + " " + rd.show(Num(n)) + "GB"))
  {
    var n :- NumberCell(v);
    Ok(Str(if fix == Corrected then FormatMemory(n, rd) else FormatMemoryAsWritten(n, rd)))
  }

  /** `format_cpu_cores` on any cell. */
  function CoresCell(v: Value, rd: Renderer, fix: Variant): (r: Result<Value>)
    ensures r.Err? <==> !(v.Null? || v.Bool? || v.Num?)
    ensures r.Err? ==> r.error == TypeError
    ensures v.Null? || ((v.Bool? || v.Num?) && !Truthy(v)) ==> r == Ok(Str("-"))
    ensures v == Num(NaN) ==> r == Ok(Str(if fix == Corrected then "-" else "📉 " + rd.show(Num(NaN)) + " cores"))
    ensures Truthy(v) && AsNumber(v).Some? && AsNumber(v).value.Finite? ==>
      var n := AsNumber(v).value;
      r == Ok(Str(CapacityOf(n, Steps(16.0, 8.0, 4.0)).Emoji() + " " + rd.show(Num(n)) + " cores"))
  {
    var n :- NumberCell(v);
    Ok(Str(if fix == Corrected then FormatCpuCores(n, rd) else FormatCpuCoresAsWritten(n, rd)))
  }

  /** `format_duration` on any cell. */
  function DurationCell(v: Value, rd: Renderer, fix: Variant): (r: Result<Value>)
    ensures r.Err? <==> !(v.Null? || v.Bool? || v.Num?)
    ensures r.Err? ==> r.error == TypeError
    ensures v.Null? || ((v.Bool? || v.Num?) && !Truthy(v)) ==> r == Ok(Str("-"))
    ensures v == Num(NaN) ==> r == Ok(Str(if fix == Corrected then "-" else "🐌 " + rd.fixed1(NaN) + "s"))
    ensures Truthy(v) && AsNumber(v).Some? && AsNumber(v).value.Finite? ==>
      var n := AsNumber(v).value;
      r == Ok(Str(SpeedOf(n, Cutoffs(5.0, 15.0, 60.0, 300.0)).Emoji() + " " + rd.fixed1(n) + "s"))
  {
    var n :- NumberCell(v);
    Ok(Str(if fix == Corrected then FormatDuration(n, rd) else FormatDurationAsWritten(n, rd)))
  }

  /** `format_timestamp` on any cell; it never raises. */
  function TimestampCell(v: Value, rd: Renderer): (r: Result<Value>)
    ensures r.Ok? && r.value.Str?
    ensures v.Null? ==> r == Ok(Str("-"))
    ensures v.Instant? ==> r == Ok(Str(rd.clock(v.seconds)))
  {
    Ok(Str(FormatTimestamp(v, rd)))
  }

  /**
   * The formatter `apply_formatting` applies to the listed key at position `i`. Only browser
   * can raise AttributeError, only the categorical and numeric keys TypeError, and no
   * formatter raises KeyError; a formatter's output is text, or the value itself when a
   * table lookup misses.
   */
  function FieldFormatter(i: nat, v: Value, rd: Renderer, fix: Variant): (r: Result<Value>)
    requires i < |FieldOrder|
    ensures i == 5 || i == 15 ==> r.Ok?
    ensures r.Err? ==> r.error == TypeError || (i == 2 && r.error == AttributeError)
    ensures r.Ok? ==> r.value.Str? || r.value == v
    ensures 6 <= i < 15 ==> (r.Err? <==> !(v.Null? || v.Bool? || v.Num?))
  {
    match i
    case 0 => LookupCell(v, FormatPlatform)
    case 1 => LookupCell(v, FormatDevice)
    case 2 => BrowserCell(v)
    case 3 => LookupCell(v, FormatStatus)
    case 4 => LookupCell(v, FormatMode)
    case 5 => HeadedCell(v)
    case 6 => MetricCell(v, "load", rd, fix)
    case 7 => MetricCell(v, "load", rd, fix)
    case 8 => MetricCell(v, "inference", rd, fix)
    case 9 => MetricCell(v, "inference", rd, fix)
    case 10 => MetricCell(v, "inference", rd, fix)
    case 11 => MetricCell(v, "inference", rd, fix)
    case 12 => MemoryCell(v, rd, fix)
    case 13 => CoresCell(v, rd, fix)
    case 14 => DurationCell(v, rd, fix)
    case 15 => TimestampCell(v, rd)
  }

  /** What `apply_formatting` makes of the value under `key`; keys it does not list keep their value. */
  function FormatCell(key: string, v: Value, rd: Renderer, fix: Variant): (r: Result<Value>)
    ensures key !in FieldOrder ==> r == Ok(v)
  {
    if key in FieldOrder then FieldFormatter(IndexOf(key), v, rd, fix) else Ok(v)
  }

  /** A listed key is formatted by the formatter at its position. */
  lemma FormatCellAt(i: nat, v: Value, rd: Renderer, fix: Variant)
    requires i < |FieldOrder|
    ensures FormatCell(FieldOrder[i], v, rd, fix) == FieldFormatter(i, v, rd, fix)
  {
    IndexOfAt(i);
  }

  /** The formatter `apply_formatting` applies to each key it lists: the source's table, by key. */
  lemma FormatCellByKey(v: Value, rd: Renderer, fix: Variant)
    ensures FormatCell("platform", v, rd, fix) == LookupCell(v, FormatPlatform)
    ensures FormatCell("device", v, rd, fix) == LookupCell(v, FormatDevice)
    ensures FormatCell("browser", v, rd, fix) == BrowserCell(v)
    ensures FormatCell("status", v, rd, fix) == LookupCell(v, FormatStatus)
    ensures FormatCell("mode", v, rd, fix) == LookupCell(v, FormatMode)
    ensures FormatCell("headed", v, rd, fix) == HeadedCell(v)
    ensures FormatCell("load_ms_p50", v, rd, fix) == MetricCell(v, "load", rd, fix)
    ensures FormatCell("load_ms_p90", v, rd, fix) == MetricCell(v, "load", rd, fix)
    ensures FormatCell("first_infer_ms_p50", v, rd, fix) == MetricCell(v, "inference", rd, fix)
    ensures FormatCell("first_infer_ms_p90", v, rd, fix) == MetricCell(v, "inference", rd, fix)
    ensures FormatCell("subsequent_infer_ms_p50", v, rd, fix) == MetricCell(v, "inference", rd, fix)
    ensures FormatCell("subsequent_infer_ms_p90", v, rd, fix) == MetricCell(v, "inference", rd, fix)
    ensures FormatCell("memory_gb", v, rd, fix) == MemoryCell(v, rd, fix)
    ensures FormatCell("cpuCores", v, rd, fix) == CoresCell(v, rd, fix)
    ensures FormatCell("duration_s", v, rd, fix) == DurationCell(v, rd, fix)
    ensures FormatCell("timestamp", v, rd, fix) == TimestampCell(v, rd)
  {
    FieldOrderKeys();
    FormatCellAt(0, v, rd, fix); FormatCellAt(1, v, rd, fix); FormatCellAt(2, v, rd, fix);
    FormatCellAt(3, v, rd, fix); FormatCellAt(4, v, rd, fix); FormatCellAt(5, v, rd, fix);
    FormatCellAt(6, v, rd, fix); FormatCellAt(7, v, rd, fix); FormatCellAt(8, v, rd, fix);
    FormatCellAt(9, v, rd, fix); FormatCellAt(10, v, rd, fix); FormatCellAt(11, v, rd, fix);
    FormatCellAt(12, v, rd, fix); FormatCellAt(13, v, rd, fix); FormatCellAt(14, v, rd, fix);
    FormatCellAt(15, v, rd, fix);
  }

  /** Formatting the value under `key` of `row` raises. */
  predicate Fails(row: Row, key: string, rd: Renderer, fix: Variant) {
    key in row && FormatCell(key, row[key], rd, fix).Err?
  }

  /** The error raised at the first listed key whose formatting raises. */
  function FirstError(row: Row, keys: seq<string>, rd: Renderer, fix: Variant): PyError {
    if keys == [] then TypeError
    else if Fails(row, keys[0], rd, fix) then FormatCell(keys[0], row[keys[0]], rd, fix).error
    else FirstError(row, keys[1..], rd, fix)
  }

  /** The key at position `i` of `keys` is the first one that raises. */
  predicate FirstFailureAt(row: Row, keys: seq<string>, i: int, rd: Renderer, fix: Variant) {
    0 <= i < |keys| && Fails(row, keys[i], rd, fix) && forall j :: 0 <= j < i ==> !Fails(row, keys[j], rd, fix)
  }

  lemma {:induction false} FirstErrorIsAt(row: Row, keys: seq<string>, i: int, rd: Renderer, fix: Variant)
    requires FirstFailureAt(row, keys, i, rd, fix)
    ensures FirstError(row, keys, rd, fix) == FormatCell(keys[i], row[keys[i]], rd, fix).error
    decreases i
  {
    if i > 0 {
      assert !Fails(row, keys[0], rd, fix);
      assert forall j :: 0 <= j < i - 1 ==> keys[1..][j] == keys[j + 1];
      FirstErrorIsAt(row, keys[1..], i - 1, rd, fix);
    }
  }

  /** When some key of `keys` raises, there is a first one. */
  lemma {:induction false} FirstFailureExists(row: Row, keys: seq<string>, j: int, rd: Renderer, fix: Variant)
    requires 0 <= j < |keys| && Fails(row, keys[j], rd, fix)
    ensures exists i :: FirstFailureAt(row, keys, i, rd, fix)
    decreases j
  {
    if !Fails(row, keys[0], rd, fix) {
      FirstFailureExists(row, keys[1..], j - 1, rd, fix);
      var i :| FirstFailureAt(row, keys[1..], i, rd, fix);
      assert forall k :: 0 < k <= i + 1 ==> keys[1..][k - 1] == keys[k];
      assert FirstFailureAt(row, keys, i + 1, rd, fix);
    } else {
      assert FirstFailureAt(row, keys, 0, rd, fix);
    }
  }

  /**
   * The row `apply_formatting` returns: every key of the input, each listed key replaced by
   * its formatter's result; or the error of the first listed key whose formatter raises.
   */
  function Formatted(row: Row, rd: Renderer, fix: Variant): (r: Result<Row>)
    ensures r.Ok? ==> r.value.Keys == row.Keys
    ensures r.Err? ==>
      exists i :: FirstFailureAt(row, FieldOrder, i, rd, fix) && r.error == FormatCell(FieldOrder[i], row[FieldOrder[i]], rd, fix).error
  {
    if forall k :: k in row ==> !Fails(row, k, rd, fix) then
      Ok(map k | k in row :: FormatCell(k, row[k], rd, fix).value)
    else
      var k :| k in row && Fails(row, k, rd, fix);
      FirstFailureExists(row, FieldOrder, IndexOf(k), rd, fix);
      var i :| FirstFailureAt(row, FieldOrder, i, rd, fix);
      FirstErrorIsAt(row, FieldOrder, i, rd, fix);
      Err(FirstError(row, FieldOrder, rd, fix))
  }

  /** What `apply_formatting` as written makes of each key of the row. */
  ghost function Targets(row: Row, rd: Renderer): map<string, Result<Value>> {
    map k | k in row :: FormatCell(k, row[k], rd, AsWritten)
  }

  /**
   * The state of the copy after `apply_formatting` has visited the first `i` listed keys:
   * those present were formatted without raising and hold their `target`, the rest are
   * untouched.
   */
  ghost predicate ProgressOf(row: Row, formatted: Row, i: int, target: map<string, Result<Value>>) {
    && 0 <= i <= |FieldOrder|
    && formatted.Keys == row.Keys
    && target.Keys == row.Keys
    && (forall j :: 0 <= j < i && FieldOrder[j] in row ==> target[FieldOrder[j]] == Ok(formatted[FieldOrder[j]]))
    && (forall k :: k in row && (k !in FieldOrder || IndexOf(k) >= i) ==> formatted[k] == row[k])
  }

  ghost predicate Progress(row: Row, formatted: Row, i: int, rd: Renderer) {
    ProgressOf(row, formatted, i, Targets(row, rd))
  }

  /** The listed key at position `i` is still untouched in the copy. */
  lemma Untouched(row: Row, formatted: Row, i: nat, rd: Renderer)
    requires Progress(row, formatted, i, rd) && i < |FieldOrder|
    ensures FieldOrder[i] in formatted <==> FieldOrder[i] in row
    ensures FieldOrder[i] in row ==> formatted[FieldOrder[i]] == row[FieldOrder[i]]
  {
    IndexOfAt(i);
  }

  lemma SkipAbsent(row: Row, formatted: Row, i: nat, rd: Renderer)
    requires Progress(row, formatted, i, rd) && i < |FieldOrder| && FieldOrder[i] !in row
    ensures Progress(row, formatted, i + 1, rd)
  {
    IndexOfAt(i);
  }

  /** None of the first `i` listed keys raised. */
  lemma NoneFailedBefore(row: Row, formatted: Row, i: nat, rd: Renderer)
    requires Progress(row, formatted, i, rd)
    ensures forall j :: 0 <= j < i ==> !Fails(row, FieldOrder[j], rd, AsWritten)
  {
  }

  lemma RaiseAt(row: Row, formatted: Row, i: nat, rd: Renderer)
    requires Progress(row, formatted, i, rd) && i < |FieldOrder| && FieldOrder[i] in row
    requires FieldFormatter(i, row[FieldOrder[i]], rd, AsWritten).Err?
    ensures Formatted(row, rd, AsWritten) == Err(FieldFormatter(i, row[FieldOrder[i]], rd, AsWritten).error)
  {
    NoneFailedBefore(row, formatted, i, rd);
    FormatCellAt(i, row[FieldOrder[i]], rd, AsWritten);
    assert FirstFailureAt(row, FieldOrder, i, rd, AsWritten);
    FirstErrorIsAt(row, FieldOrder, i, rd, AsWritten);
  }

  /** Storing the target of the listed key at position `i` visits it. */
  lemma StoreAt(row: Row, formatted: Row, i: nat, target: map<string, Result<Value>>, c: Value)
    requires ProgressOf(row, formatted, i, target) && i < |FieldOrder| && FieldOrder[i] in row
    requires target[FieldOrder[i]] == Ok(c)
    ensures ProgressOf(row, formatted[FieldOrder[i] := c], i + 1, target)
  {
    IndexOfAt(i);
    forall j | 0 <= j < i ensures FieldOrder[j] != FieldOrder[i] {
      IndexOfAt(j);
    }
  }

  lemma FormatAt(row: Row, formatted: Row, i: nat, rd: Renderer)
    requires Progress(row, formatted, i, rd) && i < |FieldOrder| && FieldOrder[i] in row
    requires FieldFormatter(i, row[FieldOrder[i]], rd, AsWritten).Ok?
    ensures Progress(row, formatted[FieldOrder[i] := FieldFormatter(i, row[FieldOrder[i]], rd, AsWritten).value], i + 1, rd)
  {
    FormatCellAt(i, row[FieldOrder[i]], rd, AsWritten);
    StoreAt(row, formatted, i, Targets(row, rd), FieldFormatter(i, row[FieldOrder[i]], rd, AsWritten).value);
  }

  /** Every visited key holds its target. */
  lemma AllVisited(row: Row, formatted: Row, target: map<string, Result<Value>>)
    requires ProgressOf(row, formatted, |FieldOrder|, target)
    ensures forall k :: k in row && k in FieldOrder ==> target[k] == Ok(formatted[k])
  {
    forall k | k in row && k in FieldOrder ensures target[k] == Ok(formatted[k]) {
      var j := IndexOf(k);
      assert target[FieldOrder[j]] == Ok(formatted[FieldOrder[j]]);
    }
  }

  /** A row none of whose keys raises is formatted key by key. */
  lemma FormattedWhenNoneFails(row: Row, rd: Renderer, fix: Variant)
    requires forall k :: k in row ==> FormatCell(k, row[k], rd, fix).Ok?
    ensures Formatted(row, rd, fix) == Ok(map k | k in row :: FormatCell(k, row[k], rd, fix).value)
  {
  }

  /** Once every listed key is visited, the copy is what `apply_formatting` returns. */
  lemma Finish(row: Row, formatted: Row, rd: Renderer)
    requires Progress(row, formatted, |FieldOrder|, rd)
    ensures Formatted(row, rd, AsWritten) == Ok(formatted)
  {
    AllVisited(row, formatted, Targets(row, rd));
    forall k | k in row ensures FormatCell(k, row[k], rd, AsWritten) == Ok(formatted[k]) {
      assert Targets(row, rd)[k] == FormatCell(k, row[k], rd, AsWritten);
    }
    FormattedWhenNoneFails(row, rd, AsWritten);
    var m := map k | k in row :: FormatCell(k, row[k], rd, AsWritten).value;
    assert m == formatted;
  }

  /** The output has exactly the input's keys; unlisted keys keep their values; listed keys hold formatter output. */
  lemma FormattedShape(row: Row, rd: Renderer, fix: Variant)
    requires Formatted(row, rd, fix).Ok?
    ensures Formatted(row, rd, fix).value.Keys == row.Keys
    ensures forall k :: k in row && k !in FieldOrder ==> Formatted(row, rd, fix).value[k] == row[k]
    ensures forall k :: k in row ==> Ok(Formatted(row, rd, fix).value[k]) == FormatCell(k, row[k], rd, fix)
  {
  }

  /** The numeric keys are the listed keys at positions 6 to 14. */
  lemma NumericPositions()
    ensures forall i :: 0 <= i < |FieldOrder| ==> (FieldOrder[i] in NumericFields <==> 6 <= i < 15)
    ensures forall k :: k in NumericFields ==> k in FieldOrder
  {
    FieldOrderKeys();
  }

  /** The two editions of the formatter at position `i` differ exactly on a NaN numeric cell. */
  lemma CorrectionAt(i: nat, v: Value, rd: Renderer)
    requires i < |FieldOrder|
    ensures FieldFormatter(i, v, rd, Corrected).Err? <==> FieldFormatter(i, v, rd, AsWritten).Err?
    ensures FieldFormatter(i, v, rd, Corrected).Err? ==>
      FieldFormatter(i, v, rd, Corrected).error == FieldFormatter(i, v, rd, AsWritten).error
    ensures FieldFormatter(i, v, rd, Corrected) != FieldFormatter(i, v, rd, AsWritten) <==>
      6 <= i < 15 && v == Num(NaN)
  {
    if 6 <= i < 15 && v == Num(NaN) {
      assert |"🐌 " + rd.fixed1(NaN) + "ms"| > 1;
      assert |"🐌 " + rd.fixed1(NaN) + "s"| > 1;
      assert |"📉 " + rd.show(Num(NaN)) + "GB"| > 1;
      assert |"📉 " + rd.show(Num(NaN)) + " cores"| > 1;
    } else if v.Num? && v.n.Finite? && v.n.x != 0.0 {
      assert AsNumber(v).value.Finite? && Truthy(v);
    }
  }

  /**
   * The correction changes one cell only: a NaN under a numeric key, which the code as
   * written shows as the worst tier and the corrected formatting as "-". Whether a cell
   * raises, and which error, does not depend on it.
   */
  lemma CorrectionAtCell(key: string, v: Value, rd: Renderer)
    ensures FormatCell(key, v, rd, Corrected).Err? <==> FormatCell(key, v, rd, AsWritten).Err?
    ensures FormatCell(key, v, rd, Corrected).Err? ==>
      FormatCell(key, v, rd, Corrected).error == FormatCell(key, v, rd, AsWritten).error
    ensures FormatCell(key, v, rd, Corrected) != FormatCell(key, v, rd, AsWritten) <==>
      key in NumericFields && v == Num(NaN)
  {
    NumericPositions();
    if key in FieldOrder {
      CorrectionAt(IndexOf(key), v, rd);
    }
  }

  /** Both editions raise at the same first key; `FirstError` agrees on every suffix of keys. */
  lemma {:induction false} FirstErrorAgrees(row: Row, keys: seq<string>, rd: Renderer)
    ensures FirstError(row, keys, rd, Corrected) == FirstError(row, keys, rd, AsWritten)
  {
    if keys != [] {
      if keys[0] in row {
        CorrectionAtCell(keys[0], row[keys[0]], rd);
      }
      FirstErrorAgrees(row, keys[1..], rd);
    }
  }

  /**
   * `apply_formatting` as written and corrected raise on the same rows with the same error,
   * and their outputs differ exactly at the numeric keys whose cell is NaN.
   */
  lemma CorrectionAtRow(row: Row, rd: Renderer)
    ensures Formatted(row, rd, Corrected).Ok? <==> Formatted(row, rd, AsWritten).Ok?
    ensures Formatted(row, rd, Corrected).Err? ==> Formatted(row, rd, Corrected) == Formatted(row, rd, AsWritten)
    ensures Formatted(row, rd, Corrected).Ok? ==> forall k :: k in row ==>
      (Formatted(row, rd, Corrected).value[k] != Formatted(row, rd, AsWritten).value[k] <==>
        k in NumericFields && row[k] == Num(NaN))
  {
    forall k | k in row ensures Fails(row, k, rd, Corrected) == Fails(row, k, rd, AsWritten) {
      CorrectionAtCell(k, row[k], rd);
    }
    FirstErrorAgrees(row, FieldOrder, rd);
    if Formatted(row, rd, Corrected).Ok? {
      FormattedShape(row, rd, Corrected);
      FormattedShape(row, rd, AsWritten);
      forall k | k in row
        ensures Formatted(row, rd, Corrected).value[k] != Formatted(row, rd, AsWritten).value[k] <==>
          k in NumericFields && row[k] == Num(NaN)
      {
        CorrectionAtCell(k, row[k], rd);
      }
    }
  }

  /** The listed keys by position. */
  lemma FieldOrderKeys()
    ensures FieldOrder[0] == "platform"
    ensures FieldOrder[1] == "device"
    ensures FieldOrder[2] == "browser"
    ensures FieldOrder[3] == "status"
    ensures FieldOrder[4] == "mode"
    ensures FieldOrder[5] == "headed"
    ensures FieldOrder[6] == "load_ms_p50"
    ensures FieldOrder[7] == "load_ms_p90"
    ensures FieldOrder[8] == "first_infer_ms_p50"
    ensures FieldOrder[9] == "first_infer_ms_p90"
    ensures FieldOrder[10] == "subsequent_infer_ms_p50"
    ensures FieldOrder[11] == "subsequent_infer_ms_p90"
    ensures FieldOrder[12] == "memory_gb"
    ensures FieldOrder[13] == "cpuCores"
    ensures FieldOrder[14] == "duration_s"
    ensures FieldOrder[15] == "timestamp"
  {
  }

  /**
   * `apply_formatting`: copies the row and overwrites each listed key that is present, in
   * the source's order; the first formatter that raises ends it. The input is a value and is
   * not changed.
   */
  method ApplyFormatting(dfDict: Row, rd: Renderer) returns (r: Result<Row>)
    ensures r == Formatted(dfDict, rd, AsWritten)
  {
    var formatted := dfDict;
    assert Progress(dfDict, formatted, 0, rd);
    var step := FormatCategoricalFields(dfDict, formatted, rd);
    if step.Err? { return Err(step.error); }
    step := FormatMetricFields(dfDict, step.value, rd);
    if step.Err? { return Err(step.error); }
    step := FormatEnvironmentFields(dfDict, step.value, rd);
    if step.Err? { return Err(step.error); }
    step := FormatTimestampField(dfDict, step.value, rd);
    formatted := step.value;
    Finish(dfDict, formatted, rd);
    r := Ok(formatted);
  }

  /** The categorical fields of `apply_formatting` (listed keys 0 to 5). */
  method FormatCategoricalFields(dfDict: Row, formatted0: Row, rd: Renderer) returns (r: Result<Row>)
    requires Progress(dfDict, formatted0, 0, rd)
    ensures r.Err? ==> Formatted(dfDict, rd, AsWritten) == Err(r.error)
    ensures r.Ok? ==> Progress(dfDict, r.value, 6, rd)
  {
    r := FormatTargetFields(dfDict, formatted0, rd);
    if r.Err? { return; }
    r := FormatRunFields(dfDict, r.value, rd);
  }

  /** Where the benchmark ran: platform, device and browser (listed keys 0 to 2). */
  method FormatTargetFields(dfDict: Row, formatted0: Row, rd: Renderer) returns (r: Result<Row>)
    requires Progress(dfDict, formatted0, 0, rd)
    ensures r.Err? ==> Formatted(dfDict, rd, AsWritten) == Err(r.error)
    ensures r.Ok? ==> Progress(dfDict, r.value, 3, rd)
  {
    var formatted := formatted0;
    FieldOrderKeys();
    Untouched(dfDict, formatted, 0, rd);
    if "platform" in formatted {
      var c := LookupCell(formatted["platform"], FormatPlatform);
      if c.Err? {
        RaiseAt(dfDict, formatted, 0, rd);
        return Err(c.error);
      }
      FormatAt(dfDict, formatted, 0, rd);
      formatted := formatted["platform" := c.value];
    } else {
      SkipAbsent(dfDict, formatted, 0, rd);
    }
    Untouched(dfDict, formatted, 1, rd);
    if "device" in formatted {
      var c := LookupCell(formatted["device"], FormatDevice);
      if c.Err? {
        RaiseAt(dfDict, formatted, 1, rd);
        return Err(c.error);
      }
      FormatAt(dfDict, formatted, 1, rd);
      formatted := formatted["device" := c.value];
    } else {
      SkipAbsent(dfDict, formatted, 1, rd);
    }
    Untouched(dfDict, formatted, 2, rd);
    if "browser" in formatted {
      var c := BrowserCell(formatted["browser"]);
      if c.Err? {
        RaiseAt(dfDict, formatted, 2, rd);
        return Err(c.error);
      }
      FormatAt(dfDict, formatted, 2, rd);
      formatted := formatted["browser" := c.value];
    } else {
      SkipAbsent(dfDict, formatted, 2, rd);
    }
    r := Ok(formatted);
  }

  /** How the benchmark ran: status, mode and headed (listed keys 3 to 5). */
  method FormatRunFields(dfDict: Row, formatted0: Row, rd: Renderer) returns (r: Result<Row>)
    requires Progress(dfDict, formatted0, 3, rd)
    ensures r.Err? ==> Formatted(dfDict, rd, AsWritten) == Err(r.error)
    ensures r.Ok? ==> Progress(dfDict, r.value, 6, rd)
  {
    var formatted := formatted0;
    FieldOrderKeys();
    Untouched(dfDict, formatted, 3, rd);
    if "status" in formatted {
      var c := LookupCell(formatted["status"], FormatStatus);
      if c.Err? {
        RaiseAt(dfDict, formatted, 3, rd);
        return Err(c.error);
      }
      FormatAt(dfDict, formatted, 3, rd);
      formatted := formatted["status" := c.value];
    } else {
      SkipAbsent(dfDict, formatted, 3, rd);
    }
    Untouched(dfDict, formatted, 4, rd);
    if "mode" in formatted {
      var c := LookupCell(formatted["mode"], FormatMode);
      if c.Err? {
        RaiseAt(dfDict, formatted, 4, rd);
        return Err(c.error);
      }
      FormatAt(dfDict, formatted, 4, rd);
      formatted := formatted["mode" := c.value];
    } else {
      SkipAbsent(dfDict, formatted, 4, rd);
    }
    Untouched(dfDict, formatted, 5, rd);
    if "headed" in formatted {
      var c := HeadedCell(formatted["headed"]);
      FormatAt(dfDict, formatted, 5, rd);
      formatted := formatted["headed" := c.value];
    } else {
      SkipAbsent(dfDict, formatted, 5, rd);
    }
    r := Ok(formatted);
  }

  /** The metrics of `apply_formatting` (listed keys 6 to 11). */
  method FormatMetricFields(dfDict: Row, formatted0: Row, rd: Renderer) returns (r: Result<Row>)
    requires Progress(dfDict, formatted0, 6, rd)
    ensures r.Err? ==> Formatted(dfDict, rd, AsWritten) == Err(r.error)
    ensures r.Ok? ==> Progress(dfDict, r.value, 12, rd)
  {
    r := FormatLoadMetrics(dfDict, formatted0, rd);
    if r.Err? { return; }
    r := FormatFirstInferenceMetrics(dfDict, r.value, rd);
    if r.Err? { return; }
    r := FormatSubsequentInferenceMetrics(dfDict, r.value, rd);
  }

  /** The model load times (listed keys 6 to 7). */
  method FormatLoadMetrics(dfDict: Row, formatted0: Row, rd: Renderer) returns (r: Result<Row>)
    requires Progress(dfDict, formatted0, 6, rd)
    ensures r.Err? ==> Formatted(dfDict, rd, AsWritten) == Err(r.error)
    ensures r.Ok? ==> Progress(dfDict, r.value, 8, rd)
  {
    var formatted := formatted0;
    FieldOrderKeys();
    Untouched(dfDict, formatted, 6, rd);
    if "load_ms_p50" in formatted {
      var c := MetricCell(formatted["load_ms_p50"], "load", rd, AsWritten);
      if c.Err? {
        RaiseAt(dfDict, formatted, 6, rd);
        return Err(c.error);
      }
      FormatAt(dfDict, formatted, 6, rd);
      formatted := formatted["load_ms_p50" := c.value];
    } else {
      SkipAbsent(dfDict, formatted, 6, rd);
    }
    Untouched(dfDict, formatted, 7, rd);
    if "load_ms_p90" in formatted {
      var c := MetricCell(formatted["load_ms_p90"], "load", rd, AsWritten);
      if c.Err? {
        RaiseAt(dfDict, formatted, 7, rd);
        return Err(c.error);
      }
      FormatAt(dfDict, formatted, 7, rd);
      formatted := formatted["load_ms_p90" := c.value];
    } else {
      SkipAbsent(dfDict, formatted, 7, rd);
    }
    r := Ok(formatted);
  }

  /** The first inference times (listed keys 8 to 9). */
  method FormatFirstInferenceMetrics(dfDict: Row, formatted0: Row, rd: Renderer) returns (r: Result<Row>)
    requires Progress(dfDict, formatted0, 8, rd)
    ensures r.Err? ==> Formatted(dfDict, rd, AsWritten) == Err(r.error)
    ensures r.Ok? ==> Progress(dfDict, r.value, 10, rd)
  {
    var formatted := formatted0;
    FieldOrderKeys();
    Untouched(dfDict, formatted, 8, rd);
    if "first_infer_ms_p50" in formatted {
      var c := MetricCell(formatted["first_infer_ms_p50"], "inference", rd, AsWritten);
      if c.Err? {
        RaiseAt(dfDict, formatted, 8, rd);
        return Err(c.error);
      }
      FormatAt(dfDict, formatted, 8, rd);
      formatted := formatted["first_infer_ms_p50" := c.value];
    } else {
      SkipAbsent(dfDict, formatted, 8, rd);
    }
    Untouched(dfDict, formatted, 9, rd);
    if "first_infer_ms_p90" in formatted {
      var c := MetricCell(formatted["first_infer_ms_p90"], "inference", rd, AsWritten);
      if c.Err? {
        RaiseAt(dfDict, formatted, 9, rd);
        return Err(c.error);
      }
      FormatAt(dfDict, formatted, 9, rd);
      formatted := formatted["first_infer_ms_p90" := c.value];
    } else {
      SkipAbsent(dfDict, formatted, 9, rd);
    }
    r := Ok(formatted);
  }

  /** The subsequent inference times (listed keys 10 to 11). */
  method FormatSubsequentInferenceMetrics(dfDict: Row, formatted0: Row, rd: Renderer) returns (r: Result<Row>)
    requires Progress(dfDict, formatted0, 10, rd)
    ensures r.Err? ==> Formatted(dfDict, rd, AsWritten) == Err(r.error)
    ensures r.Ok? ==> Progress(dfDict, r.value, 12, rd)
  {
    var formatted := formatted0;
    FieldOrderKeys();
    Untouched(dfDict, formatted, 10, rd);
    if "subsequent_infer_ms_p50" in formatted {
      var c := MetricCell(formatted["subsequent_infer_ms_p50"], "inference", rd, AsWritten);
      if c.Err? {
        RaiseAt(dfDict, formatted, 10, rd);
        return Err(c.error);
      }
      FormatAt(dfDict, formatted, 10, rd);
      formatted := formatted["subsequent_infer_ms_p50" := c.value];
    } else {
      SkipAbsent(dfDict, formatted, 10, rd);
    }
    Untouched(dfDict, formatted, 11, rd);
    if "subsequent_infer_ms_p90" in formatted {
      var c := MetricCell(formatted["subsequent_infer_ms_p90"], "inference", rd, AsWritten);
      if c.Err? {
        RaiseAt(dfDict, formatted, 11, rd);
        return Err(c.error);
      }
      FormatAt(dfDict, formatted, 11, rd);
      formatted := formatted["subsequent_infer_ms_p90" := c.value];
    } else {
      SkipAbsent(dfDict, formatted, 11, rd);
    }
    r := Ok(formatted);
  }

  /** The timestamp (listed key 15): `format_timestamp` never raises. */
  method FormatTimestampField(dfDict: Row, formatted0: Row, rd: Renderer) returns (r: Result<Row>)
    requires Progress(dfDict, formatted0, 15, rd)
    ensures r.Ok? && Progress(dfDict, r.value, 16, rd)
  {
    var formatted := formatted0;
    FieldOrderKeys();
    Untouched(dfDict, formatted, 15, rd);
    if "timestamp" in formatted {
      var c := TimestampCell(formatted["timestamp"], rd);
      FormatAt(dfDict, formatted, 15, rd);
      formatted := formatted["timestamp" := c.value];
    } else {
      SkipAbsent(dfDict, formatted, 15, rd);
    }
    r := Ok(formatted);
  }

  /** The environment fields and the duration of `apply_formatting` (listed keys 12 to 14). */
  method FormatEnvironmentFields(dfDict: Row, formatted0: Row, rd: Renderer) returns (r: Result<Row>)
    requires Progress(dfDict, formatted0, 12, rd)
    ensures r.Err? ==> Formatted(dfDict, rd, AsWritten) == Err(r.error)
    ensures r.Ok? ==> Progress(dfDict, r.value, 15, rd)
  {
    var formatted := formatted0;
    FieldOrderKeys();
    Untouched(dfDict, formatted, 12, rd);
    if "memory_gb" in formatted {
      var c := MemoryCell(formatted["memory_gb"], rd, AsWritten);
      if c.Err? {
        RaiseAt(dfDict, formatted, 12, rd);
        return Err(c.error);
      }
      FormatAt(dfDict, formatted, 12, rd);
      formatted := formatted["memory_gb" := c.value];
    } else {
      SkipAbsent(dfDict, formatted, 12, rd);
    }
    Untouched(dfDict, formatted, 13, rd);
    if "cpuCores" in formatted {
      var c := CoresCell(formatted["cpuCores"], rd, AsWritten);
      if c.Err? {
        RaiseAt(dfDict, formatted, 13, rd);
        return Err(c.error);
      }
      FormatAt(dfDict, formatted, 13, rd);
      formatted := formatted["cpuCores" := c.value];
    } else {
      SkipAbsent(dfDict, formatted, 13, rd);
    }
    Untouched(dfDict, formatted, 14, rd);
    if "duration_s" in formatted {
      var c := DurationCell(formatted["duration_s"], rd, AsWritten);
      if c.Err? {
        RaiseAt(dfDict, formatted, 14, rd);
        return Err(c.error);
      }
      FormatAt(dfDict, formatted, 14, rd);
      formatted := formatted["duration_s" := c.value];
    } else {
      SkipAbsent(dfDict, formatted, 14, rd);
    }
    r := Ok(formatted);
  }
}
