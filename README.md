# Tips dashboard — a Dafny model of its filter and statistics

The repository is a one-file Dash application (`app.py`). It loads the
restaurant-tips dataset into an SQLite table `tips` and shows a page with three
controls: a range slider over the total bill, a Lunch/Dinner checklist and a
reset button.
Whenever a widget changes, the callback `update_data` is meant to run a
parameterised `SELECT` and show three figures for the rows it fetches: the
number of tippers, the average tip and the average bill. As written, its call
to `cursor.execute` passes the values as separate arguments, which raises a
`TypeError` on every call, so no query runs and nothing is shown (see
Findings). The model states the raising call as written. It models the
intended call, with the values in one tuple, for the fetch and the statistics
(app.py:71-80). The rest of the callback (app.py:83-96) would still raise under
that fix, so the page never displays these values (see "Left out").

This project models that core as pure functions and proves properties of them.

- `strings.dfy` (`Strings`) covers the Python string built-ins the code relies on:
  - `['?'] * n` and `str.join`;
  - `str(i)` for an integer, together with a parser that inverts it.
- `tips_table.dfy` (`TipsTable`) covers the table:
  - the seven-column record;
  - SQLite values;
  - the tuple `SELECT *` returns for a record.
- `tip_query.dfy` (`TipQuery`) covers the statement:
  - its text, with `','.join(['?'] * len(selected_time))` spliced into the IN list;
  - the bound values (lo, hi, then every selected time);
  - how `cursor.execute` binds its arguments;
  - the WHERE clause as SQL-92 defines `BETWEEN` (section 8.3: both bounds inclusive) and `IN` (section 8.4: a disjunction of equalities). An empty IN list, which SQLite accepts, holds no value.
  - It also defines the filter in the dashboard's own terms: `lo <= total_bill <= hi` and `time in selected_time`.
- `tip_stats.dfy` (`TipStats`) covers the statistics:
  - the count of fetched rows;
  - the means of positions 1 (tip) and 0 (total bill) of the fetched tuples;
  - zero for both averages when nothing was fetched.
- `dashboard.dfy` (`Dashboard`) covers the page:
  - the slider marks `{str(i): str(i) for i in range(int(min), int(max) + 1, 5)}`;
  - the checklist options;
  - the widgets' initial values;
  - `update_data` restricted to the statistics it returns.

The model follows the code where the code and the intended design disagree:

- An empty selection yields an `IN ()` list and therefore zero rows. No validation error is raised.
- An inverted range (lo > hi) also yields zero rows.
- The reset button's click count is an input of the callback, and the callback never reads it.

## Model

| member | source | states |
|---|---|---|
| `Strings.Repeat` | app.py:69 | `['?'] * n` has n elements, each the given one |
| `Strings.Join` | app.py:69 | `sep.join(parts)`; specified for the placeholders by `TipQuery.PlaceholdersShape` and `TipQuery.PlaceholdersCounts` |
| `Strings.IntToDecimal` | app.py:38 | `str(i)`; specified by `Strings.DecimalRoundTrip` and `Strings.DecimalInjective` |
| `Strings.DecimalRoundTrip` | app.py:38 | parsing `str(i)` gives back `i` for every integer, negative ones included |
| `Strings.DecimalInjective` | app.py:38 | distinct integers have distinct `str` keys, so no two marks collide |
| `TipsTable.Fetch` | app.py:71 | `fetchall` returns one tuple per selected record, in order, holding the record's seven columns in the table's column order |
| `TipsTable.ToRow` | app.py:22-23 | the tuple `SELECT *` yields for a record, its fields in the loaded frame's column order; specified by `TipsTable.FetchedColumns` |
| `TipsTable.FetchedColumns` | app.py:22-23 | positions 0 and 1 of every fetched tuple are REAL and hold the record's `total_bill` and `tip` (the frame's first two columns, which `to_sql` recreates the table from) |
| `TipQuery.Placeholders` | app.py:69 | `','.join(['?'] * n)`; specified by `TipQuery.PlaceholdersShape` and `TipQuery.PlaceholdersCounts` |
| `TipQuery.QueryText` | app.py:65-69 | the statement text after `.format`; specified by `TipQuery.PlaceholdersMatchParameters` |
| `TipQuery.PlaceholdersShape` | app.py:69 | the joined placeholder string has length 2n-1 (0 for n = 0) and alternates `?` and `,` |
| `TipQuery.PlaceholdersCounts` | app.py:69 | the joined string holds n marks and n-1 commas, and is empty exactly when nothing is selected |
| `TipQuery.Parameters` | app.py:70 | the bound values are lo, hi, then every selected time, in that order, 2 + n of them |
| `TipQuery.PlaceholdersMatchParameters` | app.py:65-70 | the formatted statement has exactly as many `?` marks as values are bound: 2 for BETWEEN and one per selected time |
| `TipQuery.Bind` | app.py:65-70 | `cursor.execute` binds no argument, one tuple of values, or one string character by character; a lone REAL or INTEGER is an unsupported type; more than one argument after the text is an arity error |
| `TipQuery.CharacterValues` | app.py:65-70 | a string bound as parameters gives one TEXT value per character, in order |
| `TipQuery.LoneStringBindsCharacters` | app.py:65-70 | `execute(sql, s)` with a lone string binds one value per character of the string |
| `TipQuery.AsWrittenArguments` | app.py:70 | the call passes lo, hi and each selected time as separate positional arguments |
| `TipQuery.AsWrittenCallRejected` | app.py:65-70 | the call as written raises for every filter: 3 + n arguments against the at most 2 that `execute` takes |
| `TipQuery.IntendedArguments` | app.py:70 | the corrected call `(lo, hi, *selected)` as one tuple; specified by `TipQuery.IntendedCallBindsParameters` |
| `TipQuery.IntendedCallBindsParameters` | app.py:65-70 | packing the values into one tuple binds lo, hi and the selected times, one per placeholder |
| `TipQuery.SqlBetween` | app.py:67 | `x BETWEEN lo AND hi` with both bounds inclusive on REAL operands; specified by `TipQuery.WhereIffMatches` |
| `TipQuery.SqlIn` | app.py:68 | `x IN (list)` as a disjunction of equalities; specified by `TipQuery.SqlInIsMembership` |
| `TipQuery.SqlInIsMembership` | app.py:68 | `x IN (list)` holds exactly when `x` is an element of the list, and never for an empty list |
| `TipQuery.Where` | app.py:67-68 | the WHERE clause on a record with positionally bound values; specified by `TipQuery.WhereIffMatches` |
| `TipQuery.Select` | app.py:65-71 | the result is no longer than the table, and a record is in it exactly when it is in the table and satisfies the WHERE clause |
| `TipQuery.SelectMultiplicity` | app.py:65-71 | a record satisfying the WHERE clause is selected as often as it occurs in the table, any other record never |
| `TipQuery.Matches` | app.py:67-68 | the dashboard's filter: lo <= bill <= hi, both ends included, and a selected time; related to the SQL by `TipQuery.WhereIffMatches` |
| `TipQuery.Filtered` | app.py:65-71 | the rows fetched for a filter; specified by `TipQuery.FilteredMembership`, `TipQuery.FilteredMultiplicity` and `TipQuery.FilteredCount` |
| `TipQuery.WhereIffMatches` | app.py:65-70 | with lo, hi, *selected bound in that order, the WHERE clause holds exactly when lo <= bill <= hi and the time is selected |
| `TipQuery.FilteredMembership` | app.py:65-71 | a record is fetched exactly when it is in the table and matches the filter |
| `TipQuery.FilteredMultiplicity` | app.py:65-71 | a matching record is fetched as often as it occurs in the table, any other record never |
| `TipQuery.FilteredCount` | app.py:71-74 | the number of fetched rows equals the number of table positions whose record matches |
| `TipQuery.NarrowerFetchesSubMultiset` | app.py:67-68 | a filter that admits less fetches no more rows, and every row it fetches is fetched by the wider one, multiplicities included |
| `TipQuery.NarrowRange` | app.py:67 | raising lo or lowering hi never increases the number of fetched rows |
| `TipQuery.RemoveTime` | app.py:68 | unchecking a meal time never increases the number of fetched rows |
| `TipQuery.PointRangeIncludesRecord` | app.py:67 | a range whose two ends equal the bill of a record of the table still fetches that record, since both bounds count |
| `TipQuery.EmptySelectionFetchesNothing` | app.py:68-69 | with no meal time checked, nothing is fetched |
| `TipQuery.InvertedRangeFetchesNothing` | app.py:67 | with lo > hi, nothing is fetched |
| `TipStats.Sum` | app.py:76-77 | Python's `sum`; bounded by `TipStats.SumBounds`, used by `TipStats.MeanBetweenMinAndMax` |
| `TipStats.SumBounds` | app.py:76-77 | a sum of n amounts each in [lo, hi] lies in [n * lo, n * hi] |
| `TipStats.Min` | app.py:35 | the minimum is an element of the column and at most every element |
| `TipStats.Max` | app.py:36 | the maximum is an element of the column and at least every element |
| `TipStats.Column` | app.py:76-77 | `row[j] for row in rows` yields one value per row, the row's REAL value at position j |
| `TipStats.ComputeStats` | app.py:74-80 | the count is the number of rows; both averages are 0 when it is 0; otherwise average times count equals the column sum |
| `TipStats.MeanBetweenMinAndMax` | app.py:76-77 | the mean of a non-empty column lies between its minimum and maximum |
| `TipStats.AveragesWithinColumnRange` | app.py:75-77 | when some row was fetched, each average lies between its column's minimum and maximum |
| `TipStats.FetchedColumnsAreFields` | app.py:76-77 | positions 1 and 0 of the fetched tuples are exactly the records' tips and bills |
| `Dashboard.Truncate` | app.py:38 | `int(x)` truncates toward zero: the result is within one of `x`, on the side of zero |
| `Dashboard.Range` | app.py:38 | `range(start, stop, step)`; for step 5 specified by `Dashboard.RangeMembership` and `Dashboard.RangeIncreasing` |
| `Dashboard.SliderTicks` | app.py:38 | `range(int(min), int(max) + 1, 5)`; specified by `Dashboard.SliderMarksSpec` |
| `Dashboard.MarksOf` | app.py:38 | the comprehension `{str(i): str(i) for i in ticks}`; specified by `Dashboard.MarksOfSpec` and `Dashboard.MarksOfSize` |
| `Dashboard.SliderMarks` | app.py:38 | the slider's `marks`; specified by `Dashboard.SliderMarksSpec` |
| `Dashboard.RangeMembership` | app.py:38 | `range(a, b, 5)` holds exactly the integers from a below b whose distance from a is a multiple of 5 |
| `Dashboard.RangeIncreasing` | app.py:38 | `range(a, b, 5)` is strictly increasing |
| `Dashboard.MarksOfSpec` | app.py:38 | every mark's label is its key, every key is `str` of a tick, and every tick has a key |
| `Dashboard.MarksOfSize` | app.py:38 | over distinct ticks, the comprehension has exactly one entry per tick |
| `Dashboard.RangeMarksSpec` | app.py:38 | the marks over `range(a, b, 5)` are self-labelled, and their keys are exactly the `str` of its members, one per member |
| `Dashboard.SliderMarksSpec` | app.py:35-38 | there is one mark for each integer from int(min) to int(max) that is a multiple of 5 above int(min); each is keyed and labelled by its decimal string |
| `Dashboard.OptionsOf` | app.py:43 | one option per value, in order, each with label and value equal to the value |
| `Dashboard.TimeOptions` | app.py:43 | the checklist offers exactly Lunch then Dinner, each labelled with itself |
| `Dashboard.InitialFilter` | app.py:35-44 | the slider starts at the smallest and largest bill, which are bills of the table and bound every bill, and both meal times are checked |
| `Dashboard.AllMatchFetchesAll` | app.py:65-71 | a filter that every record matches fetches the whole table, in order |
| `Dashboard.InitialFilterFetchesEveryMeal` | app.py:35-44 | under the initial filter a record is fetched exactly when its time is Lunch or Dinner; if all are, the whole table is fetched |
| `Dashboard.UpdateData` | app.py:63-80 | the count is the number of matching records; both averages are 0 when none match; otherwise average times count is the sum of the fetched tips (bills) |
| `Dashboard.AveragesWithinFetchedRange` | app.py:74-80 | when some row was fetched, the average tip (bill) lies between the smallest and largest fetched tip (bill) |
| `Dashboard.NarrowingNeverRaisesCount` | app.py:63-74 | narrowing the slider range or unchecking times never raises "Total tippers" |
| `Dashboard.ResetClicksIgnored` | app.py:61-80 | the reset button's click count has no effect on the statistics |
| `Dashboard.ThreeRecordScenario` | app.py:63-80 | bills 10/20/30 with the range [15, 30] and only Dinner give one tipper, average tip 3 and average bill 30 |

## Left out

- The SQLite connection, `CREATE TABLE` and the `to_sql` load (app.py:7-23) are not modelled. The table is a sequence of records given as a parameter, because it is never written after the load.
- The dataset itself (`px.data.tips()`) is not modelled. Every theorem holds for any table.
- The Dash layout, callback wiring and `run_server` are not modelled, because they are framework I/O. Only the values the widgets hold and the values the callback computes are modelled.
- `Dashboard.UpdateData` gives the values app.py:71-80 compute. The rest of the callback (app.py:83-96) still raises under the tuple binding, so the page never displays them. `px.scatter(..., x='total_bill', ...)` (app.py:84) gets a list of tuples whose columns are 0 to 6, so `'total_bill'` names no column. `px.violin(..., y='tip/total_bill')` (app.py:89) names a column that exists nowhere. The `return` (app.py:92-96) gives 3 values for the 4 outputs of app.py:55-58. These figures and the rendering are not modelled, because they are Plotly and Dash behaviour.
- The heading texts and the `:.2f` formatting of the averages (app.py:93-95) are not modelled. The averages are exact values.
- Float arithmetic is modelled as exact reals: bills and tips are `real`, and sums and quotients do not round.
- The slider's `step=0.01` (app.py:39) is not modelled. It affects only how the widget moves.
- `TipQuery.Select` keeps table order: SQLite's order for a plain scan is not guaranteed and is taken as table order here.
- `TipQuery.SqlBetween`: SQLite's comparisons between values of different storage classes are not modelled. BETWEEN on a non-REAL operand does not match. The slider's values may reach the callback as JSON integers rather than floats, but SQLite compares INTEGER with REAL by numeric value, so taking lo and hi as `real` values loses nothing.
- `Dashboard.InitialFilter` requires a non-empty table. On an empty table pandas' `min`/`max` return NaN, which the model does not represent.
- `Dashboard.UpdateData` models the callback with the intended binding (one tuple of values). As written the call always raises; see Findings.
- No validation of the filter is modelled, because the code has none. An empty selection or lo > hi gives zero rows, not an error.
- The reset button is not modelled as resetting the widgets, because the code attaches no behaviour to it.
- Strings are sequences of characters, with no encoding or normalisation.

## Findings

| source | as written | input that shows it | evidently intended | confidence | as-written member | corrected member |
|---|---|---|---|---|---|---|
| app.py:65-70 | `cursor.execute(sql, total_bill_range[0], total_bill_range[1], *selected_time)` passes every value as its own argument | any filter, e.g. range [3.07, 50.81] with Lunch and Dinner: 5 arguments, while `execute` accepts the text and one parameter sequence | `cursor.execute(sql, (total_bill_range[0], total_bill_range[1], *selected_time))` | high, not executed | `TipQuery.AsWrittenCallRejected` | `TipQuery.IntendedCallBindsParameters` |
