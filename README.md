# Data-quality checks and the demo conditional sensor

This project models the two pieces of decision logic in the Dagster +
Snowflake + dbt demo repository, and proves properties of them:

- **The four asset checks** (`asset_checks.py`). Each check queries the
  warehouse for a few aggregate numbers, then turns them into an
  `AssetCheckResult`. The result has a pass flag, an optional severity
  (WARN or ERROR) and a description. Here each query result is a parameter:
  a possibly empty sequence of rows of integers. Each check is a function
  from those results to a `CheckResult`. `business_kpis_validation_check`
  builds its list of issues one test at a time. It is modelled twice: as a
  method that does the same (`BusinessKpisValidationCheck`), and as the
  specification function that method is proved equal to
  (`BusinessKpisValidation`).
- **`demo_conditional_sensor`** (`sensors.py`). On each tick it reads the
  local clock. Between 09:00 and 18:59 it returns a `RunRequest`. The
  request's idempotency key is `demo_conditional_YYYY-MM-DD-HH` and its tags
  are `trigger`, `hour` and `note`. Outside those hours it returns a `Skip`
  that names the hour. The clock reading is a parameter (`Instant`). The
  sensor's registration is the constant `DemoConditionalSensorDefinition`:
  it targets `hourly_metrics_job` and starts STOPPED.

Files:

- `wrappers.dfy`: `Option`.
- `text.dfy` (module `Text`): Python's `str()` for integers, `strftime`'s
  zero-padded numeric fields and `", ".join`, plus `DigitsValue`, which reads
  a digit string back as a number. The round-trip lemmas connect the two.
- `asset_checks.dfy` (module `AssetChecks`): the four verdicts.
- `sensors.dfy` (module `Sensors`): the sensor, its run key and a parser
  for run keys that serves as the key's inverse.

## Model

| member | source | states |
|---|---|---|
| `AssetChecks.FirstOr` | dagster_snowflake_dbt_demo/defs/asset_checks.py:22 | A query result with no rows reads as the given default; otherwise the value is the named column of the first row. |
| `AssetChecks.Count` | dagster_snowflake_dbt_demo/defs/asset_checks.py:22-40 | A count query with no rows reads as 0; otherwise the value is the first column of the first row. |
| `AssetChecks.DaysBehind` | dagster_snowflake_dbt_demo/defs/asset_checks.py:109 | A days-behind query with no rows reads as 999, which is never fresh; otherwise the value is the first column of the first row. |
| `AssetChecks.CustomerMetricsQualityCheck` | dagster_snowflake_dbt_demo/defs/asset_checks.py:22-55 | Passes iff the null-key, invalid-balance and logic-error counts are all 0. Severity is absent exactly when it passes. A failure is WARN iff the three counts sum to less than 10, and ERROR iff the sum is 10 or more. The description is the fixed passing text or lists the three counts. |
| `AssetChecks.CustomerMetricsSeverityEscalates` | dagster_snowflake_dbt_demo/defs/asset_checks.py:51-54 | Between two failing results, the one with the larger total never has the lower severity. |
| `AssetChecks.OrderAnalyticsQualityCheck` | dagster_snowflake_dbt_demo/defs/asset_checks.py:71-95 | Passes iff invalid totals + orders without items + invalid discounts == 0. Severity is ERROR iff that sum is positive, and is never WARN. The description lists the three counts. |
| `AssetChecks.OrderAnalyticsSeverityOnlyOnFailure` | dagster_snowflake_dbt_demo/defs/asset_checks.py:89-94 | For non-negative counts (what COUNT(*) returns), severity is absent exactly when the check passes. |
| `AssetChecks.DailySalesCompletenessCheck` | dagster_snowflake_dbt_demo/defs/asset_checks.py:109-141 | Passes iff days behind <= 3, zero-revenue days < 30 and negative metrics == 0. Severity is ERROR iff the data is invalid, even when it is also stale. It is WARN iff the data is valid but stale. It is absent exactly when the check passes. The description lists the three numbers. |
| `AssetChecks.EmptyResultsReadAsDefaults` | dagster_snowflake_dbt_demo/defs/asset_checks.py:22-131 | Empty count results read as 0, so the customer-metrics and order-analytics checks pass with no severity. An empty days-behind result reads as 999, so the daily-sales check never passes, and it fails with WARN when the other data is valid. |
| `AssetChecks.KpiIssues` | dagster_snowflake_dbt_demo/defs/asset_checks.py:170-176 | "No customers found" is listed iff total == 0. "High value customers exceed total customers" is listed iff high > total. Nothing else is listed, at most two entries appear, and when both are present they appear in that order. |
| `AssetChecks.BusinessKpisValidation` | dagster_snowflake_dbt_demo/defs/asset_checks.py:158-183 | With no source rows the check fails with ERROR and the "could not retrieve" text, before any other test. Otherwise it passes iff total != 0 and high <= total. The description reports the issue count, then the issues or "All checks passed". Severity is absent exactly when it passes, and is never WARN. |
| `AssetChecks.BusinessKpisValidationCheck` | dagster_snowflake_dbt_demo/defs/asset_checks.py:158-183 | Appending issues one test at a time and deriving `passed` from the list's length gives exactly the `BusinessKpisValidation` verdict. |
| `AssetChecks.KpiDescription` | dagster_snowflake_dbt_demo/defs/asset_checks.py:182 | With no issues the description is "KPI validation: 0 issues found: All checks passed". With one issue it is "KPI validation: 1 issues found: " followed by that issue. |
| `Text.Join` | dagster_snowflake_dbt_demo/defs/asset_checks.py:182 | Joining no parts gives the empty text, one part gives that part, and two parts give the first, the separator, then the second. |
| `AssetChecks.KpiTwoIssuesText` | dagster_snowflake_dbt_demo/defs/asset_checks.py:182 | A description with two issues is "KPI validation: 2 issues found: " followed by the two issues, joined with ", ". |
| `AssetChecks.KpiBothIssuesDescription` | dagster_snowflake_dbt_demo/defs/asset_checks.py:172-182 | With no customers but a positive high-value count, the description reports 2 issues and lists them comma-separated, in test order. |
| `Text.IntToString` | dagster_snowflake_dbt_demo/defs/asset_checks.py:53 | `str(i)` of a count in a check description starts with "-" exactly when i < 0. The rest is digits without a leading zero that read back as the magnitude of i. The same formatting is used at lines 93 and 139. |
| `Text.NatToString` | dagster_snowflake_dbt_demo/defs/sensors.py:52 | `str(n)` is at least one decimal digit with no leading zero, and it is a single digit exactly when n < 10. |
| `Text.NatToStringRoundTrip` | dagster_snowflake_dbt_demo/defs/sensors.py:52 | The unpadded decimal text of an hour (`str(current_hour)`) reads back as the hour. |
| `Text.ZeroPadded` | dagster_snowflake_dbt_demo/defs/sensors.py:46 | A zero-padded field is all digits and at least as wide as requested. `Text.ZeroPaddedRoundTrip` shows that it reads back as the number. |
| `Text.ZeroPaddedRoundTrip` | dagster_snowflake_dbt_demo/defs/sensors.py:46 | A number below 10^w, zero-padded to width w as `strftime` does, has exactly w digits and reads back as itself. |
| `Sensors.DemoConditionalSensorRegistration` | dagster_snowflake_dbt_demo/defs/sensors.py:25-30 | The sensor is registered as "demo_conditional_sensor", targets `hourly_metrics_job`, and its default status is STOPPED. |
| `Sensors.RunKey` | dagster_snowflake_dbt_demo/defs/sensors.py:46 | The key is 30 characters: "demo_conditional_", then four year digits, '-', two month digits, '-', two day digits, '-', and two hour digits. Each field reads back as the instant's year, month, day or hour. |
| `Sensors.RunKeyRoundTrip` | dagster_snowflake_dbt_demo/defs/sensors.py:46 | The run key is "demo_conditional_" followed by `%Y-%m-%d-%H`, 30 characters long. Parsing it recovers the instant's year, month, day and hour. |
| `Sensors.RunKeySameExactlyWithinHour` | dagster_snowflake_dbt_demo/defs/sensors.py:46 | Two instants get the same run key iff they fall in the same calendar hour. Same hour gives the same key, and a different hour gives a different key. |
| `Sensors.SensorTickAsWritten` | dagster_snowflake_dbt_demo/defs/sensors.py:41-57 | With the clock read twice, the result is a RunRequest iff the first reading's hour is within 9..18. The key names the second reading's hour. The tags are exactly trigger = "demo_conditional", hour = `str` of the first reading's hour, and the fixed note. Otherwise it is a Skip whose reason is the fixed prefix, the first reading's hour and ")". |
| `Sensors.HourBoundaryRace` | dagster_snowflake_dbt_demo/defs/sensors.py:41-52 | Readings at 18:59:59 and 19:00:00 produce a run request whose key names hour 19, outside the window, while its `hour` tag reads 18. |
| `Sensors.DemoConditionalSensor` | dagster_snowflake_dbt_demo/defs/sensors.py:41-57 | With one clock reading, the result is a RunRequest iff 9 <= hour <= 18, both ends included. Its key parses back to the reading's calendar hour. Its tags are exactly trigger = "demo_conditional", hour = `str(hour)` and the fixed note. Otherwise it is a Skip with the hour in its reason. |
| `Sensors.RunKeyHourMatchesTag` | dagster_snowflake_dbt_demo/defs/sensors.py:41-52 | The last two characters of the run key and the `hour` tag read back as the same hour, which is within the window. |
| `Sensors.SkipReasonNamesHour` | dagster_snowflake_dbt_demo/defs/sensors.py:56-57 | A skip reason is the fixed prefix, then digits that read back as the hour, then ")". |
| `Sensors.RunRequestsDeduplicateByHour` | dagster_snowflake_dbt_demo/defs/sensors.py:45-46 | Two run requests carry the same key iff their ticks fall in the same calendar hour. |

## Findings

| source | as written | input that shows it | evidently intended | confidence | as-written member | corrected member |
|---|---|---|---|---|---|---|
| dagster_snowflake_dbt_demo/defs/sensors.py:41-46 | The window test and the run key each call `datetime.now()` separately. | First reading 18:59:59, second reading 19:00:00: a RunRequest keyed `...-19` with tag `hour = "18"` | One reading of the clock for the window test, the key and the tag, so that all three name the same hour | low (a one-tick race at the hour boundary); not executed | `Sensors.HourBoundaryRace` | `Sensors.RunKeyHourMatchesTag` |

The rest of the model uses `DemoConditionalSensor`, which takes a single
reading. `SensorTickAsWritten` keeps the two readings separate.

## Left out

- The warehouse connection, `execute_query` and the SQL text. Each query's
  result is a parameter. The model keeps the source's reading of it:
  `result[0][column] if result else default`.
- A first row with fewer columns than the SELECT lists would make the source
  raise IndexError. The SQL never returns such a row, so `HasColumns` is a
  precondition and the error is not modelled.
- SQL NULL. `MAX(order_date)` over an empty table gives a row holding NULL,
  and `None <= 3` would then raise TypeError. Cells are integers here, so
  that path is outside the model.
- Counts are arbitrary integers, as in the source, which never checks their
  sign. `OrderAnalyticsSeverityOnlyOnFailure` therefore requires non-negative
  counts: for a negative sum the source reports a failure with no severity.
- The unused `checks = []` in `customer_metrics_quality_check`: dead code.
- The wall clock. `datetime.now()` becomes an `Instant` parameter. It is
  modelled to the second, and sub-second precision does not affect any
  output.
- Instants with years below 1000. `%Y` then prints a platform-dependent
  number of digits, so `ValidInstant` requires a four-digit year.
- How the Dagster library treats an `AssetCheckResult` whose severity is
  absent or `None` (its defaults and validation). That library code is not
  part of this model; `CheckResult.severity` follows the arguments the
  source passes.
- Sensor scheduling, the RUNNING/STOPPED transition and the runtime's
  deduplication of run keys. These belong to the Dagster runtime.
- `snowflake_assets.py`, `jobs.py`, `schedules.py` and `definitions.py`.
  They hold query I/O, float metrics and declarative calls into the Dagster
  library, such as asset selections, cron schedules, freshness policies and
  resource wiring. The library code that evaluates them is not part of this
  model.
