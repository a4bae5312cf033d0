# fontlint: windows ascent/descent check, modelled in Dafny

fontlint checks font files for implausible metrics. Its one check,
`check_win_ascent_and_descent`, reads two fields of the OS/2 table
(`usWinAscent`, `usWinDescent`, both u16) and two of the head table (`yMax`,
`yMin`, both i16). It widens them to i32 and reports a `Fail` diagnostic for
each of these that holds:

- `usWinAscent` lies outside `[yMax, 2*yMax]`;
- `usWinDescent` lies outside `[|yMin|, 2*|yMin|]`.

If either table cannot be read, the check reports one `Fail` diagnostic
"Cannot read OS/2 or head table" and does nothing else. A runner runs every
registered check on a font and concatenates their diagnostics. A diagnostic
prints as `"<Level>: <message>"`.

The model has these modules:

- `Wrappers` (wrappers.dfy): `Option`.
- `Int32` (int32.dfy): the u16, i16 and i32 ranges as subset types,
  `i32::checked_mul`, `i32::abs`, and the proof that neither `.unwrap()` in
  the check can panic.
- `Decimal` (decimal.dfy): Rust's decimal `Display` of integers, a reader for
  it, and their round trip.
- `Diagnostics` (diagnostics.dfy): `Level`, `FontReadError`,
  `WinMetricsError`, `Diagnostic`, the message templates and `Display`. A
  parser proves that a printed line determines the diagnostic.
- `WinMetrics` (win_metrics.dfy): the font's two tables as `Option` records.
  `Report` is a reference definition in unbounded arithmetic. The method
  `CheckWinAscentAndDescent` follows the source step by step with i32
  operations and is proved equal to `Report`. Lemmas state the check's
  guarantees about `Report`.
- `Runner` (runner.dfy): the loop over the check array, its specification
  `Outputs`, and lemmas that the concatenation keeps order and drops
  nothing.

The boxed `dyn Error` payload is the closed datatype `Diagnostics.Message`.
Its metric variants keep the program's own spelling, `WinAscentOutsideExpecation`
and `WinDescentOutsideExpecation`.
Each check is a total function `Font -> seq<Diagnostic>`. The registered list
is `[WinMetrics.Report]`, which `CheckWinAscentAndDescent` is proved to
compute.

Nothing in the code orders `Level` (it derives only `Debug`), so the model
gives it no order. The code does not keep every reported range non-empty.
When `yMax < 0`, the ascent range `[yMax, 2*yMax]` has `lo > hi`, and
`usWinAscent` is then always reported. `WinMetrics.RangeShapes` states this.

## Model

| member | source | states |
|---|---|---|
| `Int32.Abs` | src/main.rs:58 | `i32::abs` is defined except on i32::MIN (a panic in the source); the result is non-negative and equals x or -x |
| `Int32.CheckedDoubleDomain` | src/main.rs:45 | `checked_mul(2)` on an i32 succeeds exactly when the value lies in [-2^30, 2^30 - 1], so the overflow check is live on i32 and only the i16 origin of the fields rules it out |
| `Int32.WidenedI16DoublingFits` | src/main.rs:43-59 | for any widened i16, `abs` is defined and both `checked_mul(2)` calls return Some with the doubled value (at most 65536): neither `.unwrap()` can panic |
| `Decimal.NatDigits` | src/main.rs:102 | the decimal text of a natural number is a non-empty string of digits with no leading zero |
| `Decimal.ReadIntOfDecimal` | src/main.rs:102 | reading back the decimal text of any integer, followed by any non-digit text, returns that integer and the following text |
| `Decimal.IntToDecimalInjective` | src/main.rs:107 | distinct integers print differently |
| `Diagnostics.ParseRangeTextOfRender` | src/main.rs:102-110 | the range-and-value tail of both metric messages can be parsed back into the exact bounds and value |
| `Diagnostics.ParseMessageOfRender` | src/main.rs:94-111 | every message template (missing table, ascent, descent) parses back into its payload |
| `Diagnostics.ParseRender` | src/main.rs:79-83 | a diagnostic printed as `"<Level>: <message>"` parses back into the same level and payload |
| `Diagnostics.RenderInjective` | src/main.rs:79-92 | two diagnostics that print the same line are equal |
| `WinMetrics.Report` | src/main.rs:33-71 | the check reports at most two diagnostics, and every one of them is at level `Fail` |
| `WinMetrics.CheckWinAscentAndDescent` | src/main.rs:33-71 | the imperative check (widen to i32, `checked_mul(2).unwrap()`, `abs`, conditional pushes, early return) never panics and returns exactly `Report(font)` |
| `WinMetrics.MissingTableReport` | src/main.rs:35-41 | if either table is missing, the report is exactly one `Fail` "OS/2 or head" diagnostic, printed as "Fail: Cannot read OS/2 or head table" |
| `WinMetrics.MissingTablesLine` | src/main.rs:96 | the missing-table template filled with "OS/2 or head" after the `Fail` level reads "Fail: Cannot read OS/2 or head table" |
| `WinMetrics.PresentTablesNoReadError` | src/main.rs:43-70 | with both tables present, every reported diagnostic is a metric finding, never a missing-table one |
| `WinMetrics.AscentReportedIff` | src/main.rs:43-54 | with both tables, an ascent finding is reported iff `usWinAscent < yMax` or `usWinAscent > 2*yMax`; it carries the range `[yMax, 2*yMax]` and the value |
| `WinMetrics.DescentReportedIff` | src/main.rs:56-68 | with both tables, a descent finding is reported iff `usWinDescent < abs(yMin)` or `usWinDescent > 2*abs(yMin)`; it carries the range `[abs(yMin), 2*abs(yMin)]` and the value |
| `WinMetrics.ReportOrder` | src/main.rs:46-70 | an ascent finding always comes before a descent finding, and neither kind appears twice |
| `WinMetrics.RangeShapes` | src/main.rs:43-60 | the descent range always has `lo <= hi`; the ascent range has `lo <= hi` iff `yMax >= 0`, and when `yMax < 0` usWinAscent is always reported |
| `WinMetrics.ExampleWithinRanges` | src/main.rs:43-68 | yMax 1000, yMin -200, usWinAscent 1500, usWinDescent 300: no diagnostic |
| `WinMetrics.ExampleAscentTooSmall` | src/main.rs:46-54 | usWinAscent 500 against yMax 1000: one ascent finding with range [1000, 2000] and value 500, printed "Fail: OS/2.usWinAscent value should be in the range [1000, 2000], but got 500" |
| `WinMetrics.ExampleDescentTooSmall` | src/main.rs:60-68 | usWinDescent 50 against yMin -200: one descent finding with range [200, 400] and value 50, printed "Fail: OS/2.usWinDescent value should be in the range [200, 400], but got 50" |
| `WinMetrics.AscentExampleLine` | src/main.rs:102 | the ascent template with range [1000, 2000] and value 500, after the `Fail` level, is exactly that line |
| `WinMetrics.DescentExampleLine` | src/main.rs:107 | the descent template with range [200, 400] and value 50, after the `Fail` level, is exactly that line |
| `Runner.RunChecks` | src/main.rs:21-25 | the loop that extends one vector with each check's output returns the concatenation `Outputs` of the outputs, in check order |
| `Runner.CheckFont` | src/main.rs:22 | with the registered check array, a font's diagnostics are exactly those of the win-metrics check |
| `Runner.OutputsAppend` | src/main.rs:22-24 | running two lists of checks one after the other gives the concatenation of their outputs |
| `Runner.OutputsSplit` | src/main.rs:23-24 | each check's output appears whole and in its own order, after the outputs of earlier checks and before those of later ones |
| `Runner.OutputsMembers` | src/main.rs:21-25 | a diagnostic is in the combined output iff some check produced it: nothing is filtered out or invented |
| `Runner.OutputsLength` | src/main.rs:24 | the combined output's length is the sum of the checks' output lengths: no deduplication |

## Left out

- Command-line parsing (`Args`, the `clap` derive): argument plumbing with no logic.
- Reading font files, `FontRef::new(...).unwrap()` and the loop over paths: I/O. The model starts from an already parsed `Font`.
- Printing each diagnostic as `"<path>: <diagnostic>"`: an output sink. The model stops at `Diagnostics.Render`.
- Parsing the OS/2 and head tables (`font.os2()`, `font.head()` in `read_fonts`): foreign library code. A table that fails to parse is `None`, with no distinction between error kinds, because the check treats every error the same way.
- `Send + Sync` bounds and the `thiserror` derive: concurrency markers and code generation. The templates they produce are written out in `Diagnostics.MessageText`.
- `Int32.Abs`: models the debug build, where `abs` of i32::MIN panics. A release build would wrap. The check never reaches that case, as `Int32.WidenedI16DoublingFits` shows.
- Rust's `Debug` output for `Diagnostic` itself: derived and unused by the program.
