# Leaderboard data transforms

This project models, in Dafny, the data-handling core of the benchmark leaderboard: the
Python application that loads transformers.js benchmark results, flattens them into table
rows, lets the user filter the table, and formats every row for display.

The modelled operations:

- `formatters.py`:
  - the category formatters, which add an emoji from a lookup table and pass unknown values through;
  - the tiered numeric formatters:
    - latencies and durations have five speed tiers;
    - memory and CPU cores have four capacity tiers;
  - `format_timestamp`;
  - `apply_formatting`, which rewrites the listed keys of one row in a fixed order.
- `data_loader.py`:
  - `flatten_result`, from a nested benchmark record to a flat row;
  - `get_unique_values`, which builds the dropdown choices.
  - `pd.DataFrame(records)` is also modelled: every key of any record becomes a column, and absent cells are NaN.
- `app.py`:
  - `filter_data`, seven optional masks applied one after the other;
  - `format_dataframe`, which applies `apply_formatting` to each row.

Python values are a datatype (`Python.Value`). A float is `Finite(x)` or `NaN`, and NaN is pandas' marker for a missing cell. A datetime is an instant in seconds. The Python errors the code can raise are `Err` results rather than preconditions:
- `TypeError` for comparing, dividing or hashing the wrong type;
- `KeyError` for subscripting a dict or frame with a missing key;
- `AttributeError` for `.get` or `.lower` on a value that lacks them.

Text rendering is a parameter of the model (`Formatters.Renderer`):
- `f"{v:.1f}"`;
- `str(v)`;
- `strftime` of a local datetime, which depends on the timezone.

`apply_formatting` and `flatten_result` are modelled as methods with the source's step-by-step updates. Their sections are split into sub-methods, and each is proved equal to a specification function. The same holds for `filter_data`'s seven reassignments. Lemmas then state what the source promises about those functions.

The numeric cell formatters come in two editions (`Formatters.Variant`). `AsWritten` is the code, which shows a NaN cell as the slowest or lowest tier. `Corrected` shows such a cell as "-", like None. The methods, `Formatters.Formatted` with `AsWritten` and `App.FormatDataframe` model the code as written; the corrected edition exists only to state the finding below.

## Model

| member | source | states |
|---|---|---|
| Python.AsNumber | leaderboard/src/leaderboard/formatters.py:140-147 | a number stands for itself and a bool for 0 or 1; every other value has no number, so comparing it raises |
| Python.TruthyMeaning | leaderboard/src/leaderboard/formatters.py:33 | `bool(v)`: None is falsy and a datetime truthy; a number or bool is falsy exactly when it equals 0, so NaN is truthy; a string, list or dict is falsy exactly when empty |
| Python.DiffOver | leaderboard/src/leaderboard/data_loader.py:154 | `(a - b) / d` is NaN exactly when an operand is NaN; otherwise it multiplies back to the difference |
| Python.Contains | leaderboard/src/leaderboard/data_loader.py:131 | `key in v` is dict-key membership for a dict; it raises TypeError exactly when `v` is not a dict, string or list |
| Python.Subscript | leaderboard/src/leaderboard/data_loader.py:132-133 | `v[key]` succeeds exactly for a dict that has the key and returns its value; a dict without the key raises KeyError, and a non-dict raises TypeError |
| Python.Get | leaderboard/src/leaderboard/data_loader.py:110-123 | `d.get(key, default)` gives the value when the key is present and the default otherwise |
| Python.GetAttr | leaderboard/src/leaderboard/data_loader.py:148-150 | `v.get(...)` succeeds exactly on a dict; anything else raises AttributeError |
| Python.Lower | leaderboard/src/leaderboard/formatters.py:43 | `lower()` keeps the length and maps each character through the ASCII case fold |
| Python.HasInfix | leaderboard/src/leaderboard/app.py:73 | the pattern occurs in the text exactly when some position of the text holds it; the empty pattern always occurs; a pattern longer than the text never does |
| Frames.Cell | leaderboard/src/leaderboard/data_loader.py:72 | a cell holds the row's value, or NaN where the row lacks the column |
| Frames.Empty | leaderboard/src/leaderboard/app.py:48 | `df.empty` holds exactly when the frame has no rows or no columns |
| Frames.ToDict | leaderboard/src/leaderboard/app.py:51 | `row.to_dict()` has exactly the frame's columns, each holding the row's cell |
| Frames.ColumnValues | leaderboard/src/leaderboard/data_loader.py:323 | `df[column]` has one cell per row, in row order |
| Frames.KeysOf | leaderboard/src/leaderboard/data_loader.py:72 | the columns are exactly the keys that occur in some record |
| Frames.FrameOf | leaderboard/src/leaderboard/data_loader.py:72 | `pd.DataFrame(records)` is rectangular, with one row per record and a column exactly for each key of some record; it keeps every record's values and puts NaN in the cells a record lacks |
| Frames.MissingKeyIsNaN | leaderboard/src/leaderboard/data_loader.py:72 | a record lacking a key that another record has reads NaN in that column |
| Sorting.LexLeTotal | leaderboard/src/leaderboard/data_loader.py:324 | any two strings are comparable under Python's `<=` |
| Sorting.LexLeTransitive | leaderboard/src/leaderboard/data_loader.py:324 | string `<=` is transitive |
| Sorting.LexLeAntisymmetric | leaderboard/src/leaderboard/data_loader.py:324 | strings that are `<=` each other are equal |
| Sorting.Insert | leaderboard/src/leaderboard/data_loader.py:324 | inserting into a sorted list keeps it sorted and adds exactly that element |
| Sorting.Sort | leaderboard/src/leaderboard/data_loader.py:324 | `sorted` returns an ascending permutation of its input |
| Sorting.SortedUnique | leaderboard/src/leaderboard/data_loader.py:324 | two ascending arrangements of the same multiset are equal, so `sorted` has exactly one correct output |
| Formatters.Labelled | leaderboard/src/leaderboard/formatters.py:15-16 | a label ends with the value's own text; it is the value alone exactly when the table has no emoji (or an empty one) for the key, and otherwise the emoji and a space come first |
| Formatters.FormatPlatform | leaderboard/src/leaderboard/formatters.py:9-16 | "node" and "web" get their emoji prefix; any other platform is returned unchanged |
| Formatters.FormatDevice | leaderboard/src/leaderboard/formatters.py:19-28 | the four known devices get their emoji prefix; any other device is returned unchanged |
| Formatters.FormatBrowser | leaderboard/src/leaderboard/formatters.py:31-44 | "" gives ""; the emoji is chosen by the lower-cased name while the original spelling is kept; an unknown browser is returned unchanged |
| Formatters.BrowserCaseInsensitive | leaderboard/src/leaderboard/formatters.py:43-44 | two spellings equal up to case get the same prefix |
| Formatters.FormatStatus | leaderboard/src/leaderboard/formatters.py:47-56 | the four known statuses get their emoji prefix; any other status is returned unchanged |
| Formatters.FormatMode | leaderboard/src/leaderboard/formatters.py:59-66 | "warm" and "cold" get their emoji prefix; any other mode is returned unchanged |
| Formatters.FormatHeaded | leaderboard/src/leaderboard/formatters.py:69-71 | "👁️ Yes" exactly when headed, and "No" exactly when not |
| Formatters.SpeedOf | leaderboard/src/leaderboard/formatters.py:88-111 | each speed tier is exactly the half-open interval between consecutive thresholds; NaN is the slowest tier |
| Formatters.SpeedMonotone | leaderboard/src/leaderboard/formatters.py:88-111 | a larger value never gets a faster tier |
| Formatters.MetricCutoffs | leaderboard/src/leaderboard/formatters.py:88-102 | "load" uses 100/500/2000/5000 and every other metric type uses 5/20/50/100 |
| Formatters.NoReadingAsWritten | leaderboard/src/leaderboard/formatters.py:84 | under `value is None or value == 0`, NaN is a reading; a finite number is "no reading" exactly when it is 0 |
| Formatters.FormatMetricMsAsWritten | leaderboard/src/leaderboard/formatters.py:74-113 | "-" exactly for None or 0; otherwise the tier's emoji with the value to one decimal and "ms"; a NaN cell is shown as the slowest tier |
| Formatters.FormatMetricMs | leaderboard/src/leaderboard/formatters.py:84-85 | "-" exactly when there is no reading (None, 0 or a missing cell); otherwise the same text as the code |
| Formatters.FormatDurationAsWritten | leaderboard/src/leaderboard/formatters.py:116-132 | "-" exactly for None or 0; otherwise tiers at 5/15/60/300 seconds, followed by "s" |
| Formatters.FormatDuration | leaderboard/src/leaderboard/formatters.py:118-119 | "-" exactly when there is no reading; otherwise the same text as the code |
| Formatters.CapacityOf | leaderboard/src/leaderboard/formatters.py:140-147 | each capacity tier is exactly the interval from its lower bound to the next; NaN is the lowest tier |
| Formatters.CapacityMonotone | leaderboard/src/leaderboard/formatters.py:140-164 | more memory or more cores never gets a lower tier |
| Formatters.FormatMemoryAsWritten | leaderboard/src/leaderboard/formatters.py:135-149 | "-" exactly for None or 0; otherwise ≥32 💪, ≥16 ✅, ≥8 ⚠️, else 📉, followed by the value and "GB" |
| Formatters.FormatMemory | leaderboard/src/leaderboard/formatters.py:137-138 | "-" exactly when there is no reading; otherwise the same text as the code |
| Formatters.FormatCpuCoresAsWritten | leaderboard/src/leaderboard/formatters.py:152-166 | "-" exactly for None or 0; otherwise ≥16/≥8/≥4/else tiers, followed by the value and " cores" |
| Formatters.FormatCpuCores | leaderboard/src/leaderboard/formatters.py:154-155 | "-" exactly when there is no reading; otherwise the same text as the code |
| Formatters.MissingCellShownAsWorstTier | leaderboard/src/leaderboard/formatters.py:84-166 | the four functions as written show a NaN cell as 🐌 or 📉; the corrected ones show "-" |
| Formatters.FormatTimestamp | leaderboard/src/leaderboard/formatters.py:169-185 | None gives "-"; a datetime gives its clock text; any other value gives `str(value)` |
| Formatters.LookupCell | leaderboard/src/leaderboard/formatters.py:11-16 | a string is looked up; a list or dict is unhashable and raises TypeError; any other value misses the table and is returned unchanged |
| Formatters.BrowserCell | leaderboard/src/leaderboard/formatters.py:33-44 | a falsy value gives ""; a string is formatted; any other truthy value has no `lower` and raises AttributeError |
| Formatters.NumberCell | leaderboard/src/leaderboard/formatters.py:84-90 | None gives None; a number or bool is the argument; any other value raises TypeError at the first comparison |
| Formatters.HeadedCell | leaderboard/src/leaderboard/formatters.py:69-71 | any value gives "👁️ Yes" exactly when it is truthy and "No" exactly when it is falsy; it never raises |
| Formatters.MetricCell | leaderboard/src/leaderboard/formatters.py:74-113 | raises TypeError exactly for a value that is not None, a bool or a number; None and falsy numbers give "-"; NaN gives the slowest tier as written and "-" corrected; a truthy finite number gives its tier, its `.1f` text and "ms" |
| Formatters.MemoryCell | leaderboard/src/leaderboard/formatters.py:135-149 | raises TypeError exactly for a non-number; None and falsy numbers give "-"; NaN gives "📉" as written and "-" corrected; a truthy finite number gives its capacity tier at 32/16/8, its text and "GB" |
| Formatters.CoresCell | leaderboard/src/leaderboard/formatters.py:152-166 | raises TypeError exactly for a non-number; None and falsy numbers give "-"; NaN gives "📉" as written and "-" corrected; a truthy finite number gives its capacity tier at 16/8/4, its text and " cores" |
| Formatters.DurationCell | leaderboard/src/leaderboard/formatters.py:116-132 | raises TypeError exactly for a non-number; None and falsy numbers give "-"; NaN gives the slowest tier as written and "-" corrected; a truthy finite number gives its tier at 5/15/60/300, its `.1f` text and "s" |
| Formatters.TimestampCell | leaderboard/src/leaderboard/formatters.py:169-185 | never raises and always gives text: "-" for None, the clock text for a datetime |
| Formatters.FieldFormatter | leaderboard/src/leaderboard/formatters.py:199-249 | headed and timestamp never raise; only browser raises AttributeError and every other error is TypeError; the output is text, or the value itself when a table lookup misses; a numeric key raises exactly for a non-number |
| Formatters.FormatCell | leaderboard/src/leaderboard/formatters.py:197-249 | a key `apply_formatting` does not list keeps its value |
| Formatters.FormatCellByKey | leaderboard/src/leaderboard/formatters.py:200-249 | each listed key gets its own formatter: the table formatters for platform, device, status and mode, `format_browser`, `format_headed`, `format_metric_ms` with "load" for the two load keys and "inference" for the four inference keys, `format_memory`, `format_cpu_cores`, `format_duration` and `format_timestamp` |
| Formatters.Formatted | leaderboard/src/leaderboard/formatters.py:188-251 | a successful result has exactly the input's keys; a failure carries the error of the first key, in the source's order, whose formatter raises |
| Formatters.FormattedShape | leaderboard/src/leaderboard/formatters.py:197-251 | in either edition, the output has exactly the input's keys; unlisted keys keep their values; each key holds its formatter's result |
| Formatters.ApplyFormatting | leaderboard/src/leaderboard/formatters.py:188-251 | the copy after all sixteen guarded updates equals `Formatted` with the formatters as written; the error is the one from the first listed key whose formatter raises |
| Formatters.FormatCategoricalFields | leaderboard/src/leaderboard/formatters.py:199-216 | after the six categorical updates the copy is in the state of the first six keys visited, or the row's error has been raised |
| Formatters.FormatTargetFields | leaderboard/src/leaderboard/formatters.py:200-207 | the platform, device and browser updates move the copy from state 0 to state 3, or raise the row's error |
| Formatters.FormatRunFields | leaderboard/src/leaderboard/formatters.py:209-216 | the status, mode and headed updates move the copy from state 3 to state 6, or raise the row's error |
| Formatters.FormatMetricFields | leaderboard/src/leaderboard/formatters.py:218-235 | the six metric updates move the copy from state 6 to state 12, or raise the row's error |
| Formatters.FormatLoadMetrics | leaderboard/src/leaderboard/formatters.py:219-223 | the two load-time updates move the copy from state 6 to state 8, or raise the row's error |
| Formatters.FormatFirstInferenceMetrics | leaderboard/src/leaderboard/formatters.py:225-229 | the two first-inference updates move the copy from state 8 to state 10, or raise the row's error |
| Formatters.FormatSubsequentInferenceMetrics | leaderboard/src/leaderboard/formatters.py:231-235 | the two subsequent-inference updates move the copy from state 10 to state 12, or raise the row's error |
| Formatters.FormatEnvironmentFields | leaderboard/src/leaderboard/formatters.py:237-245 | the memory, cores and duration updates move the copy from state 12 to state 15, or raise the row's error |
| Formatters.FormatTimestampField | leaderboard/src/leaderboard/formatters.py:247-249 | the timestamp update, which never raises, completes the copy |
| Formatters.CorrectionAtCell | leaderboard/src/leaderboard/formatters.py:84-166 | on any cell the two editions raise together with the same error, and they differ exactly under a numeric key whose cell is NaN |
| Formatters.CorrectionAtRow | leaderboard/src/leaderboard/formatters.py:188-251 | `apply_formatting` as written and corrected raise on the same rows with the same error; on success their outputs differ exactly at the numeric keys whose cell is NaN |
| DataLoader.TimestampOf | leaderboard/src/leaderboard/data_loader.py:100-107 | a falsy timestamp, or NaN (which `fromtimestamp` rejects), gives None; a truthy non-number raises TypeError; otherwise the datetime is `ms / 1000` seconds |
| DataLoader.BaseFields | leaderboard/src/leaderboard/data_loader.py:109-124 | exactly the 14 base keys, each the record's value or its default, with the converted timestamp |
| DataLoader.Percentiles | leaderboard/src/leaderboard/data_loader.py:131-133 | nothing unless `metrics[name]` is a dict holding "p50", and then both p50 and p90; a missing name adds nothing; a dict with p50 but no p90 raises exactly KeyError("p90"); the only other error is TypeError |
| DataLoader.MetricFields | leaderboard/src/leaderboard/data_loader.py:126-143 | a record without "metrics" adds nothing; only the six percentile keys are added; the errors are TypeError or KeyError("p90") |
| DataLoader.EnvironmentFields | leaderboard/src/leaderboard/data_loader.py:145-150 | raises AttributeError exactly when the environment, or its memory, is present but not a dict; only cpuCores and memory_gb are added |
| DataLoader.DurationFields | leaderboard/src/leaderboard/data_loader.py:152-154 | raises TypeError exactly when both timestamps are present and one is not a number; duration_s is added exactly when both are present, holding their difference over 1000 |
| DataLoader.Flattened | leaderboard/src/leaderboard/data_loader.py:88-156 | a success has every base key; the only errors are TypeError, KeyError("p90") and AttributeError |
| DataLoader.MetricFieldsShape | leaderboard/src/leaderboard/data_loader.py:127-143 | each metric's pair is present exactly when `metrics[name]` has "p50", and then it holds p50 and p90 |
| DataLoader.EnvironmentFieldsShape | leaderboard/src/leaderboard/data_loader.py:146-150 | cpuCores is present exactly with an environment; memory_gb exactly when the environment also has memory; both default to 0 |
| DataLoader.FlattenedBase | leaderboard/src/leaderboard/data_loader.py:109-124 | every success has all base keys, each with the record's value or its default, and the converted timestamp |
| DataLoader.FlattenedMetric | leaderboard/src/leaderboard/data_loader.py:127-143 | in the final row a metric's pair appears exactly when the record has `metrics[name]["p50"]`, and it holds p50 and p90 |
| DataLoader.FlattenedEnvironment | leaderboard/src/leaderboard/data_loader.py:146-150 | in the final row cpuCores appears exactly with an environment and memory_gb exactly with its memory, each the record's value or 0 |
| DataLoader.FlattenedDuration | leaderboard/src/leaderboard/data_loader.py:152-154 | duration_s appears exactly when both timestamps are present, equal to their difference divided by 1000 |
| DataLoader.FlattenedKeys | leaderboard/src/leaderboard/data_loader.py:109-156 | no key beyond the base keys and the conditional ones is ever produced |
| DataLoader.TimestampTypeError | leaderboard/src/leaderboard/data_loader.py:101-105 | a truthy non-numeric timestamp makes the whole call raise TypeError |
| DataLoader.MissingP90Raises | leaderboard/src/leaderboard/data_loader.py:131-133 | a metric with p50 but no p90 makes the call raise KeyError("p90") |
| DataLoader.PlainRecordFlattens | leaderboard/src/leaderboard/data_loader.py:109-124 | a record without metrics, environment or timing, whose timestamp is numeric or absent, flattens to exactly the base keys |
| DataLoader.AddPercentiles | leaderboard/src/leaderboard/data_loader.py:131-133 | one metric block adds that metric's entries to the dict, or raises that metric's error |
| DataLoader.ConvertTimestamp | leaderboard/src/leaderboard/data_loader.py:100-107 | the timestamp block computes `TimestampOf` |
| DataLoader.AddMetrics | leaderboard/src/leaderboard/data_loader.py:126-143 | the metrics block adds the three metrics' entries, or raises the first metric's error |
| DataLoader.AddEnvironment | leaderboard/src/leaderboard/data_loader.py:145-150 | the environment block adds cpuCores and memory_gb under their conditions, or raises AttributeError |
| DataLoader.AddDuration | leaderboard/src/leaderboard/data_loader.py:152-154 | the duration block adds duration_s under its condition, or raises TypeError |
| DataLoader.FlattenResult | leaderboard/src/leaderboard/data_loader.py:88-156 | the method's result is `Flattened`, with the errors raised in the method's own order |
| DataLoader.DropMissing | leaderboard/src/leaderboard/data_loader.py:323 | `dropna` keeps exactly the values that are neither None nor NaN |
| DataLoader.Unique | leaderboard/src/leaderboard/data_loader.py:323 | `unique` has the same members, each exactly once |
| DataLoader.Shown | leaderboard/src/leaderboard/data_loader.py:324 | `[str(v) for v in values]` renders each value in place |
| DataLoader.GetUniqueValues | leaderboard/src/leaderboard/data_loader.py:310-324 | "All" comes first; the result is just ["All"] for an empty frame or a missing column; otherwise the rest is sorted and is a permutation of the rendered distinct non-missing values |
| DataLoader.UniqueValuesOffered | leaderboard/src/leaderboard/data_loader.py:323-324 | a string is offered exactly when some row's non-missing cell in the column renders as it |
| DataLoader.UniqueValuesCount | leaderboard/src/leaderboard/data_loader.py:323 | there is one entry per distinct non-missing value, plus "All" |
| DataLoader.UniqueValuesDetermined | leaderboard/src/leaderboard/data_loader.py:324 | any sorted permutation of the rendered values is the result, so the result is fully determined |
| App.NameMatchesIgnoresCase | leaderboard/src/leaderboard/app.py:73 | the search ignores the case of the typed text |
| App.NameMatches | leaderboard/src/leaderboard/app.py:73 | only a string cell can match, and only one at least as long as the pattern; the empty pattern matches every string; a string equal to the pattern up to case matches |
| App.Select | leaderboard/src/leaderboard/app.py:71-98 | the selection is never longer than the rows, and every selected row passes every mask |
| App.Filtered | leaderboard/src/leaderboard/app.py:64-100 | an empty frame is returned unchanged; a success keeps the columns and never has more rows; the only error is KeyError for a column the frame lacks |
| App.Wanted | leaderboard/src/leaderboard/app.py:71-98 | a wanted row has a string modelId when there is a search, and the chosen task and status when those are in effect; with every choice inactive every row is wanted |
| App.Narrow | leaderboard/src/leaderboard/app.py:78 | `rows[mask]` keeps exactly the rows that pass the mask, every copy of each, and is never longer |
| App.Mask | leaderboard/src/leaderboard/app.py:78 | masking raises KeyError exactly when the mask's column is missing; otherwise it keeps the columns and narrows the rows |
| App.NarrowSelect | leaderboard/src/leaderboard/app.py:71-98 | masking once more is the same as selecting with one more mask |
| App.Step | leaderboard/src/leaderboard/app.py:77-78 | a guarded step raises exactly when its choice is in effect and its column is missing; otherwise it applies the choice's mask |
| App.FilterData | leaderboard/src/leaderboard/app.py:54-100 | the result equals `Filtered`: an empty frame unchanged, the first missing column's KeyError, or the rows passing every mask in effect |
| App.FilterRun | leaderboard/src/leaderboard/app.py:89-98 | the mode, dtype and status steps raise for their first missing column, or apply their masks |
| App.SelectSubsequence | leaderboard/src/leaderboard/app.py:68-100 | the selected rows are a subsequence of the input, in the same order |
| App.SelectMembers | leaderboard/src/leaderboard/app.py:71-98 | a row is selected exactly when it is an input row that passes every mask |
| App.SelectCount | leaderboard/src/leaderboard/app.py:71-98 | the selection holds as many copies of a row as the input when the row passes every mask, and none otherwise |
| App.SelectNothing | leaderboard/src/leaderboard/app.py:68 | selecting with no masks keeps the frame's rows |
| App.SelectOrderIndependent | leaderboard/src/leaderboard/app.py:71-98 | the selection depends only on which masks are applied, not on their order or repetition |
| App.NarrowCommutes | leaderboard/src/leaderboard/app.py:77-98 | two masks applied one after the other give the same rows in either order |
| App.ActiveTestsMembers | leaderboard/src/leaderboard/app.py:71-98 | a mask is applied exactly when its choice is in effect: a non-empty search, or a dropdown other than "" and "All" |
| App.PassesActiveTests | leaderboard/src/leaderboard/app.py:72-98 | a row passes all applied masks exactly when its modelId contains the search text (ignoring case, non-strings excluded) and each active dropdown equals the row's field |
| App.FilteredRows | leaderboard/src/leaderboard/app.py:68-100 | a successful result has the input's columns and a subsequence of its rows; for a non-empty frame, a row is kept exactly when it meets every active choice, and then as many times as it occurs in the input |
| App.NoChoiceKeepsAll | leaderboard/src/leaderboard/app.py:71-98 | with every choice inactive, the frame comes back unchanged |
| App.FilteredRaises | leaderboard/src/leaderboard/app.py:72-98 | the call raises exactly when some applied mask reads a missing column, and the KeyError names such a column |
| App.CollectOk | leaderboard/src/leaderboard/app.py:51 | a successful row-wise apply has one output row per input row, in order |
| App.Collect | leaderboard/src/leaderboard/app.py:51 | the row-wise apply succeeds exactly when every row succeeds, and then has one output per row |
| App.CollectErr | leaderboard/src/leaderboard/app.py:51 | a failing row-wise apply carries the error of the first row that raised |
| App.FormatEach | leaderboard/src/leaderboard/app.py:51 | each row is formatted, as written, from its `to_dict()` |
| App.FormatDataframe | leaderboard/src/leaderboard/app.py:46-51 | an empty frame is returned unchanged; otherwise the columns are kept and every row is formatted in order by `apply_formatting` as written, or the first failing row's error is raised |
| App.TwoRecordsFrame | leaderboard/src/leaderboard/data_loader.py:72 | `pd.DataFrame` of the records `{"load_ms_p50": 50.0}` and `{}` has the one column load_ms_p50 and NaN in the second row |
| App.AbsentMetricShownAsSlowest | leaderboard/src/leaderboard/app.py:46-51 | `format_dataframe` on that frame succeeds and shows the second row's cell as the slowest tier "🐌 nanms"; the corrected formatting shows "-" |

## Left out

- `load_benchmark_data` (leaderboard/src/leaderboard/data_loader.py:16-85) is not modelled. It downloads a dataset snapshot, walks the filesystem, parses JSON, and swallows individual errors. Only its `pd.DataFrame(all_results)` line is modelled, as `Frames.FrameOf`. Its sort by modelId and timestamp is left out with the rest.
- `enrich_with_hf_metadata` is not modelled: it calls the Hugging Face model listing over the network.
- `get_first_timer_friendly_models` is not modelled: it is grouped floating-point scoring in pandas.
- The Gradio interface, the server launch and the package's `__init__.py` re-exports are not modelled.
- `get_webgpu_beginner_friendly_models` and `format_recommended_models_as_markdown` are imported by `app.py`, but their definitions are not part of this model.
- Formatters.FormatTimestamp: the strftime text and `str()` of a value are abstract renderer functions. A timestamp of None that pandas turns into NaT is also not modelled: `strftime` raises ValueError on NaT and the function returns "NaT".
- Formatters.FormatMetricMsAsWritten: the `.1f` and `str()` renderings are abstract; only the tier and the surrounding text are exact.
- DataLoader.TimestampOf: `datetime.fromtimestamp` is taken to accept every finite number. Its range limits (OverflowError, OSError for out-of-range values) and the local timezone are not modelled.
- App.NameMatchesIgnoresCase: `str.contains` is modelled as plain substring search, case-folded on ASCII letters only. It would treat the search text as a regular expression, so a pattern with regex metacharacters is not modelled.
- App.Mask: the `.str` accessor's AttributeError on a modelId column that holds no strings is not modelled.
- DataLoader.Unique: pandas' `unique` treats `True` and `1` as one value. The model keeps them apart because `Bool(true)` and `Num(Finite(1.0))` are distinct `Value`s. (`1` and `1.0` are both `Num(Finite(1.0))`, so they merge as in pandas.)
- Frames.FrameOf: dtype inference by pandas is not modelled. Integer columns with gaps become float, and None may become NaN or NaT. A frame's columns are a set, so their order is not modelled.
- Python.Lower: only ASCII letters are case-folded, since there is no Unicode case mapping.
- Python.Number: a float is an exact real or NaN; infinities are not modelled. A JSON `Infinity` would make `datetime.fromtimestamp` raise OverflowError, which escapes `except (ValueError, OSError)` (leaderboard/src/leaderboard/data_loader.py:105-106), and it would reach the slowest or best tier in the formatters. `(completedAt - startedAt) / 1000` (leaderboard/src/leaderboard/data_loader.py:154) rounds in Python but is exact in the model. Python's int and float share one `Num(Finite(_))`, so `Renderer.show` cannot tell `str(16)` from `str(16.0)`: whether `format_memory` and `format_cpu_cores` print "16GB" or "16.0GB" (leaderboard/src/leaderboard/formatters.py:149, 166) depends on the column's dtype, which the model does not record.
- Formatters.NumberCell: a bool is passed on as 0 or 1. `format_memory` and `format_cpu_cores` print `True` for a True cell (leaderboard/src/leaderboard/formatters.py:149, 166), while the model renders the number 1.

## Findings

| source | as written | input that shows it | evidently intended | confidence | as-written member | corrected member |
|---|---|---|---|---|---|---|
| leaderboard/src/leaderboard/formatters.py:84 | `if value is None or value == 0` treats only None and 0 as "no reading" | a row whose record had no `load_ms` metric; after `pd.DataFrame` its `load_ms_p50` cell is NaN, NaN fails every `<` test, and the cell is shown as the slowest tier ("🐌 nanms") | a missing metric is shown as "-" | not executed | Formatters.FormatMetricMsAsWritten | Formatters.FormatMetricMs |
| leaderboard/src/leaderboard/formatters.py:118 | the same None/0 test in `format_duration` | a row whose record had no `completedAt`; its `duration_s` cell is NaN and is shown as "🐌 nans" | shown as "-" | not executed | Formatters.FormatDurationAsWritten | Formatters.FormatDuration |
| leaderboard/src/leaderboard/formatters.py:137 | the same None/0 test in `format_memory` | a row whose environment had no `memory`; its `memory_gb` cell is NaN, fails every `>=`, and is shown as "📉 nanGB" | shown as "-" | not executed | Formatters.FormatMemoryAsWritten | Formatters.FormatMemory |
| leaderboard/src/leaderboard/formatters.py:154 | the same None/0 test in `format_cpu_cores` | a row whose record had no `environment`; its `cpuCores` cell is NaN and is shown as "📉 nan cores" | shown as "-" | not executed | Formatters.FormatCpuCoresAsWritten | Formatters.FormatCpuCores |
| leaderboard/src/leaderboard/app.py:51 | `format_dataframe` applies `apply_formatting`, and so the four formatters as written, to every row of the frame | the records `[{"load_ms_p50": 50.0}, {}]`; the second row's `load_ms_p50` is shown as "🐌 nanms" | shown as "-" | not executed | App.AbsentMetricShownAsSlowest | Formatters.CorrectionAtRow |

`Formatters.MissingCellShownAsWorstTier` proves the four discrepancies for the NaN cell. `Frames.MissingKeyIsNaN` proves that such a cell arises whenever another record has the key. `apply_formatting` and `format_dataframe` (`Formatters.ApplyFormatting`, `Formatters.Formatted` with `AsWritten`, `App.FormatDataframe`) model the code as written. The corrected pipeline is `Formatters.Formatted` with `Corrected`. `Formatters.CorrectionAtRow` proves that the two raise alike and differ exactly at the NaN cells of the numeric keys.
