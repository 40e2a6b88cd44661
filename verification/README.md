# Bills Manager core, in Dafny

A model of the bookkeeping core of the Bills Manager desktop application
(Java package `com.bxtz`). The model covers:

- a **bill**: five text cells (date, name, details, cost, type), each bound to
  a fixed CSV column. Its cells are updated in place by the edit dialog.
- the **bill table**: the list of bills and the "Total Cost: … RMB" label
  under it.
  - add: the add dialog's Save appends a bill.
  - delete: the edit dialog's Delete removes the first occurrence of a bill.
  - edit: the edit dialog's Save overwrites the five cells of the same bill.
  - upload: replaces the list with the imported bills.
  - download: writes the list to a file whose name ends in ".csv".
  - Each change recomputes the total.
- the **validators** `isValidDate` (pattern `yyyy-MM-dd HH:mm`) and
  `isValidCost` (a decimal literal), and the cost text each dialog saves.
- the **total**, which lower-cases each cost, removes every "rmb", trims and
  parses what is left. Empty or unreadable costs are skipped. The sum is shown
  with two decimals.
- **CSV import and export**. Export writes every field quoted, one record per
  line, with no header. Import skips rows whose first column is exactly
  "NAME"; every other row becomes a bill, and any failure yields the empty
  list.
- the **analysis charts' totals**: the bar chart sums costs per day (the date
  text before its first space), the pie chart per type. Both read a cost by
  removing " RMB" and parsing the rest. The bar chart clears its data before
  the loop and the pie chart only after it. So when a bill cannot be read, the
  bar chart is left empty, the pie chart keeps its old data, and the pie chart
  is not redrawn at all when the bar chart fails.

Modules:

| module | what it holds |
|---|---|
| `Wrappers` | `Option` and `Result` |
| `Strings` | `String.trim`, `toLowerCase`, `replace`, `endsWith` |
| `Decimal` | `Double.parseDouble` restricted to decimal literals; `String.format("%.2f", …)` |
| `Bills` | the `Bill` class and its value snapshot `BillRecord` |
| `Csv` | the quoted CSV writer and a reader for the same format (section 2 of RFC 4180) |
| `BillUtils` | import and export |
| `Commons` | validators, dialogs, total, and the table as a class `BillTable` |
| `AnalysePage` | the charts' aggregation and the `Charts` class |

Two behaviours of the code are worth knowing before reading the model:

- **Import is all or nothing.** A kept row with fewer than five fields makes
  the array constructor fault. That fault escapes the loop, so the whole
  import returns the empty list, and the bills already read are dropped
  (`BillUtils.ImportAllOrNothing`).
- **An unreadable cost stops the charts but not the total.** The total skips
  a cost it cannot read. The charts let the parse failure end the update.
  `AnalysePage.EditCanBreakCharts` exhibits a cost the edit dialog accepts
  ("50rmb") that the total reads as 50 and the charts cannot read at all.

## Model

Paths are relative to the repository root.

| member | source | states |
|---|---|---|
| Strings.Trim | src/main/java/com/bxtz/Commons.java:35 | `trim` returns a text no longer than its input whose first and last characters are not blanks (code at most U+0020) |
| Strings.TrimSlice | src/main/java/com/bxtz/Commons.java:35 | `trim` returns exactly the slice of its input between the leading blanks and the trailing blanks: everything before and after that slice is blank |
| Strings.TrimIdempotent | src/main/java/com/bxtz/Commons.java:318-323 | trimming an already trimmed text changes nothing, so the validator's second trim of a trimmed cost is harmless |
| Strings.TrimEmptyIffBlank | src/main/java/com/bxtz/Commons.java:306 | a text trims to empty exactly when all of its characters are blanks |
| Strings.ToLower | src/main/java/com/bxtz/Commons.java:35 | `toLowerCase` keeps the length and lower-cases character by character (A–Z only) |
| Strings.ReplaceSkipsPrefix | src/main/java/com/bxtz/Commons.java:35 | `replace` leaves a prefix unchanged when none of its characters can start the target |
| Strings.Replace | src/main/java/com/bxtz/Commons.java:35 | `replace` returns its input when no character can start the target; removing a target never lengthens the text; every output character comes from the input or the replacement |
| Strings.ReplaceWhole | src/main/java/com/bxtz/Commons.java:35 | replacing the target in the target alone gives the replacement |
| Strings.EndsWith | src/main/java/com/bxtz/Commons.java:131 | `endsWith` holds exactly when the text is some text followed by the suffix |
| Strings.IndexOf | src/main/java/com/bxtz/AnalysePage.java:193 | the index returned is that of the first occurrence (of the space in a date, of the bill in the list), or the length when there is none |
| Decimal.NatToDigits | src/main/java/com/bxtz/Commons.java:46 | the integer digits `%.2f` prints are non-empty digits with no leading zero (only "0" itself starts with '0') whose value is the number |
| Decimal.Format2Shape | src/main/java/com/bxtz/Commons.java:46 | `%.2f` prints a '-' exactly for a negative value, then digits with no leading zero, a '.', and two digits |
| Decimal.Rounded2Close | src/main/java/com/bxtz/Commons.java:46 | the value `%.2f` shows is within half a hundredth of the sum |
| Decimal.Format2RoundTrip | src/main/java/com/bxtz/Commons.java:46 | parsing the two-decimal text gives back exactly the rounded value |
| Decimal.ParseUnsigned | src/main/java/com/bxtz/Commons.java:323 | an accepted unsigned numeral is non-empty and its value is not negative |
| Decimal.UnsignedShape | src/main/java/com/bxtz/Commons.java:323 | an accepted unsigned numeral is made of digits and '.' only |
| Decimal.WholeNumberParses | src/main/java/com/bxtz/Commons.java:323 | a run of digits parses to its value |
| Decimal.ParseLiteral | src/main/java/com/bxtz/Commons.java:323 | an accepted literal is not empty |
| Decimal.ParseDouble | src/main/java/com/bxtz/Commons.java:323 | `parseDouble` accepts only a text whose trimmed form is non-empty and made of numeral characters |
| Decimal.LiteralShape | src/main/java/com/bxtz/Commons.java:323 | a trimmed text `parseDouble` accepts (a literal) is non-empty, made of digits, '.', '+' and '-', and has no blank, no capital, no 'r' and no space |
| Decimal.NonNumeralRejected | src/main/java/com/bxtz/Commons.java:323 | a trimmed text containing any other character is rejected by `parseDouble` |
| Decimal.ParseDoubleOfLiteral | src/main/java/com/bxtz/Commons.java:323 | `parseDouble`'s own trim does not change a literal's value |
| Decimal.TwoPlacesAtDot | src/main/java/com/bxtz/Commons.java:40 | a text that is digits, its first '.', then two digits parses to whole part plus hundredths |
| Decimal.TwoPlaceDecimalParses | src/main/java/com/bxtz/Commons.java:40 | digits '.' two digits parses to whole part plus hundredths |
| Bills.PositionsAreAColumnLayout | src/main/java/com/bxtz/Bill.java:15-40 | the five cells are bound one-to-one to columns 0..4 |
| Bills.BillRecord.With | src/main/java/com/bxtz/Bill.java:112-142 | setting one cell's property changes that cell and leaves the other four as they were |
| Bills.BillRecord.ToRow | src/main/java/com/bxtz/Bill.java:15-40 | a bill's row has five columns, each holding the cell bound to it |
| Bills.OfRow | src/main/java/com/bxtz/Bill.java:66-72 | column i of an array becomes the cell bound to position i |
| Bills.RowRoundTrip | src/main/java/com/bxtz/Bill.java:15-72 | building a bill from its own row gives back the same bill |
| Bills.RecordRoundTrip | src/main/java/com/bxtz/Bill.java:66-72 | a five-column row is the row of the bill built from it |
| Bills.Bill.constructor | src/main/java/com/bxtz/Bill.java:51-57 | each getter returns the argument given for its cell |
| Bills.Bill.FromArray | src/main/java/com/bxtz/Bill.java:66-72 | the bill holds columns 0..4 of the array; the array must have five entries |
| Bills.Bill.Set | src/main/java/com/bxtz/Commons.java:152-156 | one property set changes exactly that cell of the same object |
| Csv.Decode | src/main/java/com/bxtz/utils/BillUtils.java:34 | every record the reader returns has at least one field, so column 0 always exists |
| Csv.EncodeEndsWithLineBreak | src/main/java/com/bxtz/utils/BillUtils.java:15-27 | the writer's text is empty exactly when there is no record, and otherwise ends with a line break |
| Csv.DecodeEncode | src/main/java/com/bxtz/utils/BillUtils.java:15-34 | reading what the writer wrote gives back every record, field for field |
| Csv.EncodeOneLinePerRecord | src/main/java/com/bxtz/utils/BillUtils.java:15-27 | without line breaks inside fields, the file has exactly one line per record |
| BillUtils.KeptPositions | src/main/java/com/bxtz/utils/BillUtils.java:34-37 | the positions of the kept rows, strictly increasing: each holds a row not headed "NAME", and every such row's position is among them |
| BillUtils.KeptRows | src/main/java/com/bxtz/utils/BillUtils.java:34-37 | the kept rows are the rows at the kept positions, in file order: every row not headed "NAME" is kept, and none headed "NAME" |
| BillUtils.KeptPositionsAll | src/main/java/com/bxtz/utils/BillUtils.java:34-37 | with no "NAME" header, every row is kept at its own position |
| BillUtils.ImportRows | src/main/java/com/bxtz/utils/BillUtils.java:33-41 | an import never yields more bills than the file has rows |
| BillUtils.ImportRowsSpec | src/main/java/com/bxtz/utils/BillUtils.java:29-46 | the import succeeds exactly when every row has a column 0 and every kept row has five columns; then the i-th bill comes from the i-th kept row |
| BillUtils.ImportAllOrNothing | src/main/java/com/bxtz/utils/BillUtils.java:38-45 | one short row anywhere discards the bills already read |
| BillUtils.ImportEmptyFile | src/test/java/com/bxtz/BillUtilsTest.java:87-94 | an empty file imports no bill |
| BillUtils.ImportSkipsNameHeader | src/main/java/com/bxtz/utils/BillUtils.java:35-37 | a header whose first column is "NAME" is skipped and the data row alone is imported |
| BillUtils.ImportKeepsOtherHeader | src/test/java/com/bxtz/BillUtilsTest.java:67-72 | a header starting with anything else, "DATE" included, is imported as a bill |
| BillUtils.ExportImportRoundTrip | src/test/java/com/bxtz/BillUtilsTest.java:22-53 | importing an export gives back the same bills in the same order when no date is "NAME" |
| BillUtils.NameDateIsLost | src/main/java/com/bxtz/utils/BillUtils.java:35-37 | a bill dated "NAME" disappears on re-import |
| BillUtils.ExportOneLinePerBill | src/test/java/com/bxtz/BillUtilsTest.java:36-38 | without line breaks in cells, the export has one line per bill |
| BillUtils.ExportRows | src/main/java/com/bxtz/utils/BillUtils.java:15-23 | the export writes one row per bill, in list order, each the bill's row |
| BillUtils.ExportedRowsImportable | src/main/java/com/bxtz/utils/BillUtils.java:29-46 | the rows of an export without "NAME" dates are all kept and all have five columns |
| BillUtils.ExportTextAppend | src/main/java/com/bxtz/utils/BillUtils.java:15-23 | exporting one more bill appends that bill's line |
| BillUtils.ExportToCsv | src/main/java/com/bxtz/utils/BillUtils.java:15-27 | the loop writes the bills' rows in list order |
| BillUtils.AppendNewBill | src/main/java/com/bxtz/utils/BillUtils.java:38-39 | a kept row becomes a new bill at the end of the list |
| BillUtils.ImportFromCsv | src/main/java/com/bxtz/utils/BillUtils.java:29-46 | the loop returns fresh bills whose contents are the import of the text, or none when any row fails |
| Commons.ParseDateTime | src/main/java/com/bxtz/Commons.java:310 | an accepted date is 16 characters with every field in range; "24:00" counts as end-of-day midnight |
| Commons.ParsedIsTrimmed | src/main/java/com/bxtz/Commons.java:310 | a text the formatter accepts has no blank to trim |
| Commons.IsValidDate | src/main/java/com/bxtz/Commons.java:305-315 | a valid date is present and trims to 16 characters; a present text that parses is valid |
| Commons.FormatParseRoundTrip | src/main/java/com/bxtz/Commons.java:201-203 | parsing a formatted date and time gives it back |
| Commons.ParseFormatRoundTrip | src/main/java/com/bxtz/Commons.java:310 | formatting a parsed text gives back the text |
| Commons.ValidDateIsFormatted | src/main/java/com/bxtz/Commons.java:305-315 | a date is valid exactly when, trimmed, it is the formatting of some in-range date and time |
| Commons.FormattedDateIsValid | src/main/java/com/bxtz/Commons.java:201-203 | the add dialog's prefilled date always passes the validator |
| Commons.DateValidatorAcceptsExample | src/test/java/com/bxtz/CommonsTest.java:64 | "2023-01-01 10:00" is valid |
| Commons.DateValidatorAcceptsEndOfDay | src/main/java/com/bxtz/Commons.java:310 | "2023-01-01 24:00" is valid |
| Commons.DateValidatorRejectsSlashes | src/test/java/com/bxtz/CommonsTest.java:65 | "2023/01/01 10:00" is rejected |
| Commons.DateValidatorRejectsMonth13 | src/test/java/com/bxtz/CommonsTest.java:68 | "2023-13-01 10:00" is rejected |
| Commons.DateValidatorRejectsDateOnly | src/test/java/com/bxtz/CommonsTest.java:66 | "2023-01-01" is rejected |
| Commons.DateValidatorRejectsWords | src/test/java/com/bxtz/CommonsTest.java:67 | "not a date" is rejected |
| Commons.DateValidatorRejectsMissing | src/test/java/com/bxtz/CommonsTest.java:69-70 | null and " " are rejected |
| Commons.IsValidCost | src/main/java/com/bxtz/Commons.java:318-328 | a cost is valid exactly when it is present and its trimmed text is a decimal literal |
| Commons.LiteralIsValidCost | src/main/java/com/bxtz/Commons.java:318-328 | a literal is a valid cost as it stands |
| Commons.CostValidatorAcceptsWhole | src/test/java/com/bxtz/CommonsTest.java:75 | "100" is valid |
| Commons.CostValidatorAcceptsDecimal | src/test/java/com/bxtz/CommonsTest.java:76 | "123.45" is valid |
| Commons.CostValidatorAcceptsZero | src/test/java/com/bxtz/CommonsTest.java:77 | "0" is valid |
| Commons.CostValidatorAcceptsSigned | src/main/java/com/bxtz/Commons.java:323 | a negative cost such as "-5" is valid; there is no lower bound |
| Commons.CostValidatorRejectsWord | src/test/java/com/bxtz/CommonsTest.java:78 | "abc" is rejected |
| Commons.CostValidatorRejectsUnit | src/test/java/com/bxtz/CommonsTest.java:81 | "100 RMB" is rejected |
| Commons.CostValidatorRejectsText | src/test/java/com/bxtz/CommonsTest.java:78-81 | "abc" and "100 RMB" are rejected |
| Commons.CostValidatorRejectsMissing | src/test/java/com/bxtz/CommonsTest.java:82-83 | null and " " are rejected |
| Commons.NumericPart | src/main/java/com/bxtz/Commons.java:35 | the lower-cased, "rmb"-free, trimmed cost has no blank at either end and no capital letter |
| Commons.CostAmount | src/main/java/com/bxtz/Commons.java:31-44 | a cost counts exactly when it is not empty and its numeric part is a literal, and then for that literal's value |
| Commons.Contribution | src/main/java/com/bxtz/Commons.java:31-44 | a bill adds its cost's amount, or 0 when the cost is empty or unreadable |
| Commons.CanonicalCostAmount | src/main/java/com/bxtz/Commons.java:35-40 | a literal followed by " RMB" reads back as the literal's value |
| Commons.TotalStep | src/main/java/com/bxtz/Commons.java:30-45 | one more bill adds its contribution to the sum |
| Commons.TotalAppend | src/main/java/com/bxtz/Commons.java:30-45 | the total of two lists put together is the sum of their totals |
| Commons.TotalSkipsUnreadable | src/main/java/com/bxtz/Commons.java:31-44 | a bill whose cost does not read adds nothing, and the bills after it still count |
| Commons.TotalNonNegative | src/main/java/com/bxtz/Commons.java:28-45 | when no bill counts negative, the total is not negative |
| Commons.TotalLabel | src/main/java/com/bxtz/Commons.java:46 | the label is "Total Cost: ", a number, then " RMB" |
| Commons.TotalLabelReadsBack | src/main/java/com/bxtz/Commons.java:46 | the number in the label reads back as the sum rounded to two decimals |
| Commons.TotalTextShowsTotal | src/main/java/com/bxtz/Commons.java:28-47 | the label under the table shows a number within half a hundredth of the list's total |
| Commons.TotalOfEmptyList | src/test/java/com/bxtz/CommonsTest.java:51-59 | the empty list shows "Total Cost: 0.00 RMB" |
| Commons.CanonicalContribution | src/main/java/com/bxtz/Commons.java:35-40 | digits '.' two digits " RMB" counts for its decimal value |
| Commons.TotalExample | src/test/java/com/bxtz/CommonsTest.java:34-48 | 10.50 RMB, 20.00 RMB, an empty cost and 5.25 RMB show "Total Cost: 35.75 RMB" |
| Commons.AddedBill | src/main/java/com/bxtz/Commons.java:254-283 | Save fails with the date error first, then the cost error; otherwise the bill has the trimmed cost plus " RMB" and the selected type, or "Others" |
| Commons.AddedCostReadsBack | src/main/java/com/bxtz/Commons.java:257-269 | the saved cost reads back in the total as the number typed |
| Commons.EditedCost | src/main/java/com/bxtz/Commons.java:125-135 | the cost is accepted exactly when its numeric part is a literal; a text ending in "rmb" in any case is kept, any other becomes numeric part plus " RMB" |
| Commons.EditedCostKeepsAmount | src/main/java/com/bxtz/Commons.java:125-135 | the total reads the same amount from the saved cost as from the typed one |
| Commons.EditedBill | src/main/java/com/bxtz/Commons.java:115-147 | Save fails on an invalid date first, then on an invalid cost; otherwise the bill has the edited cost and the other cells as typed |
| Commons.RemoveFirst | src/main/java/com/bxtz/Commons.java:102 | `remove` drops the first occurrence and keeps the others in order; a bill not in the list changes nothing |
| Commons.RemoveFirstCount | src/main/java/com/bxtz/Commons.java:102 | exactly one occurrence leaves the list, as a multiset |
| Commons.CsvFileName | src/main/java/com/bxtz/Commons.java:171-173 | the file name ends with ".csv" in any case, starts with the chosen name, and is left alone if it already ended so |
| Commons.AddCost | src/main/java/com/bxtz/Commons.java:31-44 | one pass adds the cost's amount, or nothing when it is empty or unreadable |
| Commons.SumCosts | src/main/java/com/bxtz/Commons.java:28-45 | the loop computes the total of the list |
| Commons.BillTable.constructor | src/main/java/com/bxtz/Commons.java:28-47 | the table shows the bills and the label for their total |
| Commons.BillTable.UpdateTotalCost | src/main/java/com/bxtz/Commons.java:28-47 | the label shows the list's total with two decimals |
| Commons.BillTable.Add | src/main/java/com/bxtz/Commons.java:288-289 | the bill goes to the end; the rest of the list is unchanged |
| Commons.BillTable.SaveAdd | src/main/java/com/bxtz/Commons.java:254-293 | a valid bill is appended as a new object and the label updated; an invalid input changes nothing |
| Commons.BillTable.Remove | src/main/java/com/bxtz/Commons.java:101-102 | the first occurrence of the bill leaves the list, the others keep their order |
| Commons.BillTable.Delete | src/main/java/com/bxtz/Commons.java:100-107 | the bill's first occurrence is removed and the label shows the new total |
| Commons.BillTable.SaveEdit | src/main/java/com/bxtz/Commons.java:115-159 | a valid edit rewrites the same bill object in place and updates the label; the list and every other bill are untouched; an invalid input changes nothing |
| Commons.BillTable.Import | src/main/java/com/bxtz/Commons.java:187-192 | the list is replaced by the imported bills and the label shows their total |
| Commons.BillTable.Export | src/main/java/com/bxtz/Commons.java:169-174 | the file gets the ".csv" name and the export of the current list |
| AnalysePage.DateKey | src/main/java/com/bxtz/AnalysePage.java:193 | the key is the text up to the first space; a non-empty all-space date has no key |
| AnalysePage.DateKeyOfDayAndTime | src/main/java/com/bxtz/AnalysePage.java:193 | a date saved as day, space, time is grouped by its day |
| AnalysePage.DateKeyWithoutSpace | src/main/java/com/bxtz/AnalysePage.java:193 | a date without a space is its own key |
| AnalysePage.ChartCostOfSaved | src/main/java/com/bxtz/AnalysePage.java:194 | the charts read a saved cost, a literal plus " RMB", as the literal |
| AnalysePage.KeyOf | src/main/java/com/bxtz/AnalysePage.java:193 | a bill's key can be missing only in the bar chart (by date); the pie chart always has the type |
| AnalysePage.Entries | src/main/java/com/bxtz/AnalysePage.java:192-196 | the loop reads one entry per bill |
| AnalysePage.ChartCostWithoutSpace | src/main/java/com/bxtz/AnalysePage.java:194 | a cost with no space is parsed as it stands |
| AnalysePage.AggregateDefined | src/main/java/com/bxtz/AnalysePage.java:192-196 | the map is built exactly when every entry can be read |
| AnalysePage.AggregateGroups | src/main/java/com/bxtz/AnalysePage.java:190-196 | the map has a key for every key that occurs and no other, and each value is the sum of exactly that key's costs |
| AnalysePage.Conservation | src/main/java/com/bxtz/AnalysePage.java:190-196 | the groups add up to the sum of all costs |
| AnalysePage.ChartDataDefined | src/main/java/com/bxtz/AnalysePage.java:190-196 | a chart is computed exactly when it can read every bill's key and cost |
| AnalysePage.ChartFailsOn | src/main/java/com/bxtz/AnalysePage.java:192-196 | one unreadable bill, wherever it is, makes the update fail |
| AnalysePage.SavedCostAmounts | src/main/java/com/bxtz/AnalysePage.java:194 | a saved cost is read alike by the charts and by the total |
| AnalysePage.ChartTotalIsTotal | src/main/java/com/bxtz/AnalysePage.java:190-196 | with saved costs and readable keys, a chart's costs add up to the total under the table |
| AnalysePage.EditCanBreakCharts | src/main/java/com/bxtz/Commons.java:131-135 | "50rmb" is saved as is and counts 50 in the total, but the charts cannot read it |
| AnalysePage.ReadEntry | src/main/java/com/bxtz/AnalysePage.java:193-194 | one pass reads a bill's key, then its cost |
| AnalysePage.AddBill | src/main/java/com/bxtz/AnalysePage.java:193-195 | one pass extends the map of the first i bills to the first i + 1 |
| AnalysePage.BuildTotals | src/main/java/com/bxtz/AnalysePage.java:190-196 | the loop computes the chart's map, or fails when a bill cannot be read |
| AnalysePage.Charts.constructor | src/main/java/com/bxtz/AnalysePage.java:182-184 | both charts start empty |
| AnalysePage.Charts.CreateBarChart | src/main/java/com/bxtz/AnalysePage.java:173-206 | the series is cleared first; it shows the per-day totals, and stays empty when a bill cannot be read |
| AnalysePage.Charts.CreatePieChart | src/main/java/com/bxtz/AnalysePage.java:214-236 | shows the per-type totals; when a bill cannot be read the old data stays |
| AnalysePage.Charts.Refresh | src/main/java/com/bxtz/AnalysePage.java:70-77 | bar chart, then pie chart; a failing bar chart leaves the pie chart as it was |

## Left out

- JavaFX widgets, dialogs, styling, listeners' registration, `table.refresh()` and
  `Platform.runLater`: the handlers take the texts the user typed and the
  button pressed as parameters.
- The AI chat box, markdown rendering and the HTTP client: outside the
  bookkeeping core.
- The separate `financetracker` module: a different application.
- File I/O: export returns the file's text, and import takes it. Opening,
  reading and writing files, and their exceptions, are not modelled.
  Throughout, a reader failure counts as an unreadable file.
- Floating point: amounts are exact reals, so IEEE rounding of sums is not
  modelled. `%.2f` rounds half up on the exact value, and locale-specific
  decimal separators are not modelled.
- Decimal.ParseDouble: accepts only an optionally signed decimal literal
  (digits, '.', digits). Java also accepts exponents, "NaN", "Infinity",
  hexadecimal floats and a trailing 'd' or 'f'. Those forms are read as
  unparsable.
- Commons.ParseDateTime: accepts "24:00" as the smart resolver does, but does
  not resolve it to 00:00 of the next day, which only matters once a date is
  turned into a value. The resolver's day clamping (day 31 in a 30-day month,
  February 29 outside leap years) and years of more than four digits are not
  modelled. Any day 1..31 is accepted.
- Strings.Trim: its own contract gives only the length bound and the
  non-blank ends. The exact slice is proved by `Strings.TrimSlice`. It is kept
  out of `Trim`'s contract because every proof that trims would have to carry
  it.
- Commons.TotalOf, Commons.TotalText, Decimal.Format2, Csv.Encode,
  BillUtils.ImportText, BillUtils.ExportText, AnalysePage.ChartCost,
  AnalysePage.Entry, AnalysePage.Aggregate and AnalysePage.ChartData: these
  definitions carry no contract of their own, so that the methods using them
  stay cheap to prove. What they mean is proved in the lemmas about them
  (`TotalStep`, `TotalTextShowsTotal`, `Format2Shape`, `Format2RoundTrip`,
  `EncodeEndsWithLineBreak`, `DecodeEncode`, `ExportImportRoundTrip`,
  `ChartCostWithoutSpace`, `ReadEntry`, `AggregateGroups`, `ChartDataDefined`).
- Csv.Decode: reads the section 2 of RFC 4180 format the writer produces.
  The CSV library's backslash escapes and its lenient handling of stray
  quotes are not modelled.
- Strings.ToLower: lower-cases A–Z only, not Unicode letters.
- Null fields and null lists: every text is present. `isValidDate` and
  `isValidCost` take an `Option` so that their null case is kept.
- Chart rendering: the map of totals is modelled, but not the order of the
  chart's entries or their colours.
- The listeners that redraw the charts (AnalysePage.java:80-89): the cost
  listener calls the bar chart, then the pie chart, which is
  `AnalysePage.Charts.Refresh`. The type listener calls only the pie chart,
  which is `AnalysePage.Charts.CreatePieChart`. Registering them is not
  modelled.
