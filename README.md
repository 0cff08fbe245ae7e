# KPI reporting system: a verified model of the KPI computation core

The system turns a table of sales lines into a fixed set of business figures.
Each sales line has a product line, a country, a customer name, a year, a month, an order number and a SALES amount.
The figures are:

- total revenue;
- profit, assumed to be 45% of SALES, and the profit margin;
- the customer acquisition cost (CAC), a 500 budget spread over the distinct customers and scaled by 100;
- the customers of 2004 who came back in 2005, those who did not, and the retention percentage;
- revenue and profit per product line and per country, in descending order of revenue;
- the ten best customers with their order counts;
- a `YYYY-MM` monthly trend.

The same figures are computed three times:

- as SQL aggregates (`etl/transform.py`);
- with pandas in the e-mail report (`load_kpis` in `reports/email_report_cloud.py`, plus the two tables of its PDF);
- with pandas in the Streamlit dashboard (`dashboard/streamlit_app.py`).

`etl/load.py` writes the SQL results to five spreadsheet tabs and derives a retention figure of its own.
`etl/import_to_sql.py` cleans and parses the CSV cells before inserting them, counting successes and failures and committing every 200 rows.

## How the model is built

The model has fourteen modules:

- `Wrappers`: Option.
- `Numbers`: powers of ten, `Round(x, d)` on exact reals, truncation toward zero.
- `Text`: Python's `strip`, the null tokens, integer and decimal printing, decimal parsing, `zfill`, SQL `RIGHT`, and string order.
- `Sorting`: an insertion sort by a total preorder, proved sorted, a permutation, and unique under a preorder without ties.
- `Engine`: the shared metric engine.
- `Metrics`: the CAC, retention and margin formulas.
- `CsvSource`: the CSV lines and the SALES coercion.
- One module per source file: `Transform`, `EmailReport`, `StreamlitApp`, `ImportToSql`, `Load`, `Consumers`.
- `Agreement`: the cross-implementation lemmas.

`Engine` is the shared metric engine:

- a `Row` whose SALES is `Option<real>`;
- sums that skip missing values;
- GROUP BY as one group per distinct key in order of first appearance, with its SUM and COUNT;
- the specification predicates `IsGrouping`, `IsRanking` (any grouping sorted by descending revenue, whatever its order of ties) and `IsTop` (the first n lines of some ranking);
- `Ranked` (grouping, then a sort by descending revenue) and `Top(n)`;
- the per-year customer sets.

How the computation is modelled:

- **Numbers are exact reals.** Rounding is one abstract function that rounds halves upward. An operation that would raise, or would yield NaN or an infinity, returns `None`.
- **Each implementation is a function built on the engine.** It follows that file's own order of operations. For example, the SQL margin divides by the unrounded revenue, and the pandas margin by the rounded one.
- **`Agreement` proves where the implementations coincide.**
- **The two loops of `etl/import_to_sql.py` are imperative.**
  - The in-place column cleaning is a `Frame` class whose methods reassign its `cells` field.
  - The insert loop is a method with loop invariants, proved against specification functions of the outcome sequence.
- **The database, the spreadsheet client, the clock and the per-row insert outcome are parameters.** The insert outcome is a flag per row saying whether `cursor.execute` succeeded.

## Model

| member | source | states |
|---|---|---|
| Numbers.RoundMonotone | etl/transform.py:17 | rounding to d places never reverses the order of two values |
| Numbers.RoundExact | etl/transform.py:29-30 | a value with at most d decimals is unchanged by rounding to d places |
| Numbers.RoundIdempotent | etl/load.py:74 | a rounded value has d decimals and rounding it again changes nothing |
| Numbers.Trunc | etl/import_to_sql.py:31 | `int()` of a float truncates toward zero: the result lies within 1 of x, on the side of 0 |
| Text.TrimLeft | etl/import_to_sql.py:21 | the result is a suffix of s, everything removed is whitespace, and it does not start with whitespace |
| Text.TrimRight | etl/import_to_sql.py:21 | the result is a prefix of s, everything removed is whitespace, and it does not end with whitespace |
| Text.Strip | etl/import_to_sql.py:21 | `strip` leaves no surrounding whitespace and never lengthens the string |
| Text.StripIdempotent | etl/import_to_sql.py:13-21 | stripping twice is stripping once |
| Text.StripPadded | etl/import_to_sql.py:13 | a value surrounded by any whitespace strips back to the value |
| Text.Lower | etl/import_to_sql.py:22 | `lower` maps every character and keeps the length |
| Text.NatToString | etl/transform.py:83-84 | the decimal rendering of n is a non-empty digit string with no leading zero whose value is n |
| Text.DigitsInjective | dashboard/streamlit_app.py:53 | two digit strings of equal length and equal value are equal |
| Text.ParseIntToString | etl/import_to_sql.py:37 | `float()` of a printed integer is that integer |
| Text.ParseDecimalString | etl/import_to_sql.py:37 | `float()` of the integer m written out with d decimals, negatives included, is m / 10^d |
| Text.ParseDecimalToString | etl/import_to_sql.py:37 | `float()` of a value with at most d decimals, written out with d decimals, is that value |
| Text.DecimalToStringShape | etl/import_to_sql.py:37 | a written-out decimal is non-empty and neither starts nor ends with whitespace |
| Text.StrLeTotal | dashboard/streamlit_app.py:57 | Python string order is total |
| Text.StrLeTransitive | dashboard/streamlit_app.py:57 | Python string order is transitive |
| Text.StrLeAntisymmetric | dashboard/streamlit_app.py:57 | Python string order is antisymmetric |
| Text.StrLeConcat | dashboard/streamlit_app.py:53-57 | strings with equal-length prefixes compare by prefix first, then by the rest |
| Text.DigitsOrder | dashboard/streamlit_app.py:53-57 | on equal-length digit strings, string order is numeric order |
| Sorting.Sort | etl/transform.py:43 | the sort is a permutation of its input with the same length |
| Sorting.SortSorted | etl/transform.py:43 | under a total preorder the result is sorted |
| Sorting.SortMap | dashboard/streamlit_app.py:53-57 | sorting the renamed elements by an order that agrees on them is renaming the sorted ones |
| Sorting.SortedUnique | etl/transform.py:89 | two sorted permutations of a sequence with no ties are equal |
| Engine.ProfitIsShare | etl/transform.py:25 | the sum of SALES × 0.45 is 0.45 × the sum of SALES |
| Engine.RevenueAppend | etl/transform.py:15 | the revenue of two tables is the sum of their revenues |
| Engine.RevenueSkipsMissing | reports/email_report_cloud.py:37-40 | a line with missing SALES does not change the revenue |
| Engine.Matching | etl/transform.py:72 | a group holds exactly the lines with that key |
| Engine.DistinctKeys | etl/transform.py:42 | the grouping keys are distinct and exactly the keys that occur |
| Engine.GroupsForKeys | etl/transform.py:42 | the groups come in the order of the keys they are built for |
| Engine.AggregateIsGrouping | etl/transform.py:36-44 | GROUP BY yields one line per distinct key with that key's sums and count |
| Engine.PermutedGrouping | etl/transform.py:43 | reordering a grouping leaves a grouping |
| Engine.GroupingsArePermutations | etl/transform.py:42-43 | every grouping of a table is a permutation of every other |
| Engine.RankedIsRanking | etl/transform.py:36-44 | grouping and sorting by descending revenue yields a ranking |
| Engine.SumRevenuePermutation | etl/transform.py:43 | the revenue total of the group lines does not depend on their order |
| Engine.AggregateAdds | etl/transform.py:36-46 | the per-key revenues add up to the total revenue |
| Engine.GroupingAdds | etl/transform.py:36-46 | the revenues of any grouping add up to the total revenue |
| Engine.GroupingProfitAdds | etl/transform.py:38-40 | the profits of any grouping add up to the total profit |
| Engine.GroupProfitIsShare | etl/transform.py:39-40 | each group's profit is 0.45 × its revenue |
| Engine.Top | etl/transform.py:67 | TOP n keeps the first min(n, size) lines |
| Engine.TopOfRanking | etl/transform.py:66-74 | the top n of a ranking has min(n, number of keys) distinct, exact groups, non-increasing, and no key left out has more revenue than a kept one |
| Engine.KeyCount | etl/transform.py:42 | a grouping has one line per distinct key |
| Engine.KeysEmpty | reports/email_report_cloud.py:51-52 | a table has no grouping key exactly when it has no lines |
| Engine.MaxRevenue | reports/email_report_cloud.py:53 | the maximum is one of the revenues and no revenue exceeds it; it is None only for no groups |
| Engine.RankingHead | reports/email_report_cloud.py:51 | the head of a non-empty ranking has the largest revenue of any key |
| Engine.MaxIsTopOfRanking | reports/email_report_cloud.py:52-53 | the maximum group revenue is the revenue at the head of the ranking |
| Engine.RevenuesPermutation | etl/transform.py:43 | permuted tables have permuted revenue columns |
| Engine.RankingsAgree | etl/transform.py:42-43 | any two rankings of a table, whatever their order of ties, hold the same lines and have equal revenue columns position by position |
| Engine.RankingsUnique | etl/transform.py:42-43 | when no two keys have equal revenue there is only one ranking |
| Engine.TopsAgree | etl/transform.py:67-73 | the first n lines of any two rankings have equal revenue columns, and are equal when no two keys have equal revenue |
| Engine.MaximalKeyHeads | reports/email_report_cloud.py:51-52 | a key of maximal revenue earns what heads any ranking, and is the head's key when no two keys have equal revenue |
| Engine.AggregateRelabel | dashboard/streamlit_app.py:53-54 | grouping by an injective renaming of a key is the grouping by the key, renamed |
| Metrics.Cac | etl/transform.py:102-103 | the CAC is round(50000 / n, 2), undefined exactly when there are no customers |
| Metrics.CacAntitone | etl/transform.py:103 | more customers never give a higher CAC, and the CAC is never negative |
| Metrics.RetentionBounds | reports/email_report_cloud.py:49 | for a retained part of the base, retention is in [0, 100], 0 for nobody retained and 100 for everybody |
| Metrics.SplitCount | etl/transform.py:120-122 | the retained plus the churned customers are the customers of the earlier year |
| Metrics.RetentionOfSets | reports/email_report_cloud.py:46-49 | retention among the customers of two years lies in [0, 100], is 0 for disjoint years, and 100 when all come back |
| Metrics.RetentionMonotone | dashboard/streamlit_app.py:31 | retaining more customers out of the same base never lowers retention |
| Metrics.Margin | etl/transform.py:30 | the margin is undefined exactly when the revenue is 0 |
| Metrics.MarginOfShare | etl/transform.py:25-30 | the exact 45% share gives a margin of 45 |
| Metrics.MarginNearShare | etl/transform.py:29-30 | a profit within 1/20000 of the revenue of the 45% share still rounds to a margin of 45 |
| CsvSource.ToNumeric | reports/email_report_cloud.py:37 | a blank cell coerces to missing |
| CsvSource.ToNumericOfInt | reports/email_report_cloud.py:37 | a padded integer coerces to its value |
| CsvSource.ToNumericOfDecimal | reports/email_report_cloud.py:37 | a value with at most d decimals, written out with d decimals and padded with any whitespace, coerces to that value |
| CsvSource.Coerce | reports/email_report_cloud.py:36-37 | the coerced frame has one line per CSV line, with SALES coerced and every other column kept |
| Transform.SqlSum | etl/transform.py:15 | SQL SUM is NULL exactly when every value is NULL |
| Transform.SqlSumSales | etl/transform.py:15 | a non-NULL SUM(SALES) is the sum over the present values |
| Transform.SqlSumProfit | etl/transform.py:25 | a non-NULL SUM(SALES * 0.45) is the total profit |
| Transform.TotalRevenueSpec | etl/transform.py:13-17 | the total revenue is the rounded sum of SALES, and missing exactly when no SALES is present |
| Transform.ProfitMetricsSpec | etl/transform.py:20-31 | the profit is round(0.45 × revenue, 2); the margin divides it by the unrounded revenue, undefined exactly when that is 0 |
| Transform.ProfitMarginIsShare | etl/transform.py:29-30 | for a revenue above 100 the margin is exactly 45 |
| Transform.RevenueByProduct | etl/transform.py:34-46 | one line per product line with its sums, non-increasing by revenue, adding up to the totals, profit 0.45 × revenue |
| Transform.RevenueByRegion | etl/transform.py:49-61 | one line per country with its sums, non-increasing by revenue, adding up to the totals, profit 0.45 × revenue |
| Transform.TopSalespeople | etl/transform.py:64-76 | the first ten lines of a customer ranking: at most ten distinct customers, as many as exist up to ten, with their revenue and ORDERNUMBER count, non-increasing, and none left out earns more than one listed |
| Transform.ByPeriod | etl/transform.py:88-89 | one group per year and month, in strictly increasing period order |
| Transform.ByPeriodUnique | etl/transform.py:88-89 | any grouping by year and month in period order is that one |
| Transform.MonthlyRevenue | etl/transform.py:79-92 | one line per year and month that occurs; line i holds the SQL label and the sums of the i-th period in year and month order |
| Transform.CacKpi | etl/transform.py:95-103 | the CAC of the distinct customers, undefined exactly for an empty table |
| Transform.CustomerStatus | etl/transform.py:106-129 | active = \|C2004 ∩ C2005\|, total = \|C2004\|, active + churned = total |
| EmailReport.LoadKpisDefined | reports/email_report_cloud.py:34-65 | the figures exist exactly when the CSV has lines |
| EmailReport.FrameKpisDefined | reports/email_report_cloud.py:40-53 | on the coerced frame the figures exist exactly when it has lines |
| EmailReport.FrameKpisTotals | reports/email_report_cloud.py:38-41 | revenue and profit are the rounded sums; the profit is round(0.45 × revenue, 2) |
| EmailReport.FrameKpisMargin | reports/email_report_cloud.py:42 | the margin divides the rounded profit by the rounded revenue, undefined exactly when that is 0 |
| EmailReport.FrameKpisCustomers | reports/email_report_cloud.py:43-49 | the customer count is the number of distinct names; CAC and retention follow the formulas; retention is in [0, 100] |
| EmailReport.FrameKpisTops | reports/email_report_cloud.py:51-53 | the top product and top country have maximal group revenue, and the top country revenue is that country's sum |
| EmailReport.PdfProductTable | reports/email_report_cloud.py:133-136 | every product line once with its sums, non-increasing by revenue, profit 0.45 × revenue |
| EmailReport.PdfCountryTable | reports/email_report_cloud.py:156-158 | the first ten lines of a country ranking: min(10, number of countries) distinct countries with their sums, non-increasing, and none left out earns more than one listed |
| StreamlitApp.ToRecord | dashboard/streamlit_app.py:13-16 | SALES, PRICEEACH and QUANTITYORDERED are coerced; PROFIT is 0.45 × SALES, missing exactly when SALES is |
| StreamlitApp.LoadData | dashboard/streamlit_app.py:10-17 | one record per CSV line |
| StreamlitApp.RowsOfLoadData | dashboard/streamlit_app.py:10-17 | the dashboard reads the same coerced rows as the e-mail report |
| StreamlitApp.ProfitColumnRows | dashboard/streamlit_app.py:16-23 | the PROFIT column sums to the total profit of the rows |
| StreamlitApp.ProfitColumnIsShare | dashboard/streamlit_app.py:16-23 | the PROFIT column adds up to 0.45 × the SALES total |
| StreamlitApp.TwoDigits | dashboard/streamlit_app.py:53 | `zfill(2)` of a month below 100 is two digits spelling the month |
| StreamlitApp.FourDigits | dashboard/streamlit_app.py:53 | a four-digit year prints as four digits spelling it |
| StreamlitApp.MonthLabelOrder | dashboard/streamlit_app.py:53-57 | for four-digit years and months 1..12, label order is chronological order |
| StreamlitApp.MonthLabelInjective | dashboard/streamlit_app.py:53 | distinct valid periods get distinct labels |
| StreamlitApp.ByLabelIsTotalPreorder | dashboard/streamlit_app.py:57 | sorting by label uses a total preorder |
| StreamlitApp.MonthlyTable | dashboard/streamlit_app.py:53-57 | one group per label, in strictly increasing label order |
| StreamlitApp.KpiBlockDefined | dashboard/streamlit_app.py:19-57 | the dashboard figures exist exactly when the CSV has lines |
| StreamlitApp.KpiBlockTotals | dashboard/streamlit_app.py:22-24 | revenue and profit are rounded sums; the margin divides the rounded figures |
| StreamlitApp.KpiBlockCustomers | dashboard/streamlit_app.py:26-32 | retained + churned = total = \|C2004\|, retained = \|C2004 ∩ C2005\|, retention in [0, 100], and the CAC of the distinct names |
| StreamlitApp.KpiBlockRankings | dashboard/streamlit_app.py:35-44 | the product and region tables are rankings of their keys |
| StreamlitApp.KpiBlockTopCustomers | dashboard/streamlit_app.py:47-50 | the first ten lines of a customer ranking: min(10, number of customers) distinct, exact customer groups, non-increasing, and none left out earns more than one listed |
| StreamlitApp.TopTen | dashboard/streamlit_app.py:47-50 | the top ten of the customer ranking has the properties above |
| ImportToSql.Clean | etl/import_to_sql.py:16-24 | None and NaN give None; otherwise the stripped string, or None exactly when it lowers to a null token |
| ImportToSql.CleanIdempotent | etl/import_to_sql.py:16-24 | a cleaned cell is clean, a clean cell is kept, so cleaning twice is cleaning once |
| ImportToSql.CleanNullToken | etl/import_to_sql.py:22-23 | "NULL" cleans to None |
| ImportToSql.CleanKeepsValue | etl/import_to_sql.py:24 | an ordinary value is kept |
| ImportToSql.CleanIgnoresPadding | etl/import_to_sql.py:21 | surrounding whitespace does not change the cleaned value |
| ImportToSql.ToFloat | etl/import_to_sql.py:35-39 | None and blank text give None |
| ImportToSql.ToInt | etl/import_to_sql.py:29-33 | None exactly where `to_float` is None, and otherwise its value truncated toward zero |
| ImportToSql.ParsersOfInt | etl/import_to_sql.py:29-39 | a printed integer parses back to itself under both parsers |
| ImportToSql.ParsersOfDecimal | etl/import_to_sql.py:29-39 | a padded value with at most d decimals, written out with d decimals, parses back to itself, and `to_int` truncates it toward zero |
| ImportToSql.TruncatesPositive | etl/import_to_sql.py:31 | "3.9" parses to 3.9 and to the integer 3 |
| ImportToSql.TruncatesNegative | etl/import_to_sql.py:31 | "-2.5" parses to -2.5 and to the integer -2 |
| ImportToSql.RejectsText | etl/import_to_sql.py:32-38 | unparseable text and None give None |
| ImportToSql.Frame.constructor | etl/import_to_sql.py:6-10 | the frame holds the given column names and equal-length columns |
| ImportToSql.Frame.StripNames | etl/import_to_sql.py:12 | every column name is replaced by its stripped form; the cells are unchanged |
| ImportToSql.Frame.StripCells | etl/import_to_sql.py:13 | every string cell of every column is stripped; the names are unchanged |
| ImportToSql.Frame.CleanColumns | etl/import_to_sql.py:26-27 | every column is replaced by its cleaned cells, each then clean; the names are unchanged |
| ImportToSql.CleanColumnIdempotent | etl/import_to_sql.py:26-27 | cleaning a column twice is cleaning it once |
| ImportToSql.CommitPointsSpec | etl/import_to_sql.py:100-101 | the in-loop commits are exactly the positive multiples of 200 up to the number inserted, increasing |
| ImportToSql.FailuresSpec | etl/import_to_sql.py:104-105 | the failed rows are exactly the rows whose insert failed, in order, and with the successes they cover all rows |
| ImportToSql.InsertRows | etl/import_to_sql.py:57-116 | inserted + errors = rows processed; the error log holds the first min(errors, 3) failures; commits at every 200th insert and once at the end |
| Load.SheetRetention | etl/load.py:46-49 | retention over active + churned is 0 when that is 0 |
| Load.SheetRetentionOfStatus | etl/load.py:43-49 | on the SQL counts, active + churned = \|C2004\|, so the sheet's retention is the other readers' and lies in [0, 100] |
| Load.Payload | etl/load.py:73-76 | a header line followed by the data lines |
| Load.KpiSummaryDefined | etl/load.py:51-62 | the summary can be written exactly when some SALES value is present |
| Load.KpiSummaryContents | etl/load.py:51-62 | ten lines: the title with the timestamp, a blank line, the Metric/Value header, then revenue, profit, margin, CAC, active, churned and retention, each under its own label |
| Load.QueriesDefined | etl/load.py:43-44 | with some SALES present the revenue, profit and CAC queries all return their values |
| Load.RoundedColumn | etl/load.py:74 | rounding a non-increasing revenue column keeps it non-increasing |
| Load.ProductTabSpec | etl/load.py:72-76 | header, then one line per product line with its rounded sums, revenue non-increasing |
| Load.RegionTabSpec | etl/load.py:86-90 | header, then one line per country with its rounded sums, revenue non-increasing |
| Load.CustomerTabSpec | etl/load.py:100-104 | header, then at most ten customers with rounded revenue and whole order count, revenue non-increasing |
| Load.MonthlyTabSpec | etl/load.py:114-118 | header, then one line per year and month; line i holds the SQL label and rounded sums of the i-th period in year and month order |
| Consumers.UnguardedRetention | reports/pdf_report.py:49-51 | for a non-empty base the unguarded retention lies in [0, 100], 0 with nobody active and 100 with nobody churned |
| Consumers.UnguardedAgrees | dashboard/app.py:64-67 | where the unguarded formula is defined it equals the guarded one |
| Consumers.ConsumerRetention | reports/pdf_report.py:49-51 | the unguarded formula is defined exactly when some 2004 customer exists, and then gives the common retention |
| Agreement.SqlLabelIsMonthLabel | etl/transform.py:83-84 | for months 0..99, SQL's `RIGHT('0' + m, 2)` label equals Python's `zfill(2)` label |
| Agreement.LabelsPartForMonth100 | etl/transform.py:84 | for month 100 the two labels differ |
| Agreement.PeriodLabelInjective | dashboard/streamlit_app.py:53 | on valid periods the label is an injective renaming of year and month |
| Agreement.MonthAggregate | dashboard/streamlit_app.py:53-54 | grouping by label is grouping by year and month, relabelled |
| Agreement.LabelOrderIsPeriodOrder | dashboard/streamlit_app.py:57 | on the periods that occur, label order is period order |
| Agreement.LabelledSort | dashboard/streamlit_app.py:53-57 | the dashboard's monthly table is the period-ordered grouping, relabelled |
| Agreement.MonthlyAgrees | dashboard/streamlit_app.py:53-57 | for valid periods the dashboard's monthly table is the SQL trend line for line |
| Agreement.TotalsAgree | reports/email_report_cloud.py:40-42 | the e-mail report and the dashboard give the same revenue, profit and margin |
| Agreement.SqlRevenueAgrees | etl/transform.py:13-17 | the SQL total revenue is the e-mail report's whenever SALES is present |
| Agreement.SqlProfitAgrees | etl/transform.py:20-29 | the SQL total profit is the e-mail report's whenever SALES is present |
| Agreement.MarginAgrees | etl/transform.py:30 | the SQL and e-mail margins agree when the revenue has at most two decimals |
| Agreement.RetentionAgrees | dashboard/streamlit_app.py:26-31 | the dashboard's counts are the SQL status counts, and all three give the same retention |
| Agreement.CacAgrees | etl/transform.py:95-103 | the three CAC figures are equal |
| Agreement.TablesOfRankings | dashboard/streamlit_app.py:35-50 | any product and region rankings and any top ten of customers have the lines and the revenue columns of the SQL tables, and are the SQL tables when no two keys have equal revenue |
| Agreement.TopsAgreeHeads | reports/email_report_cloud.py:51-52 | the e-mail report's top product and country earn what heads the SQL tables, and are their heads when no two keys have equal revenue |
| Agreement.TablesAgree | dashboard/streamlit_app.py:35-50 | whatever the order of ties, the dashboard's product and region tables hold the SQL lines with the SQL revenue at every position, its top customers have the SQL top ten's revenues, and the e-mail report's top product and country earn what heads the SQL tables |
| Agreement.TablesAgreeWithoutTies | dashboard/streamlit_app.py:35-50 | when no two product lines, countries or customers earn the same, the dashboard's tables are the SQL ones and the e-mail report's top product and country are the heads of the SQL tables |

## Left out

- Database, mail, PDF layout, the dashboard rendering and the spreadsheet client are I/O and foreign libraries. The model reads the sales table as an in-memory sequence and builds the cell grids the spreadsheet would receive.
- `etl/extract.py` (random dummy data), `main.py` (an interactive menu) and `scheduler/cron_jobs.py` (a clock-driven loop) are not part of this model.
- The timestamp of the KPI summary is a parameter, because it comes from the clock.
- Number formatting is not modelled: cells record the value and its kind (money, percentage, whole number), not the formatted text.
- Only the row index of each error-log entry is recorded, not its message text.
- Each insert's outcome is given as a flag. Why an INSERT fails is database behaviour.
- The INSERT's mapping of the other columns to `to_int`/`to_float` is not modelled; only the two parsers are.
- Binary floating point is not modelled. Values are exact reals, and `Round` rounds halves upward on them rather than Python's round-half-even on binary doubles.
- `ToNumeric` and `ToFloat` read plain decimal notation only: an optional sign, digits, and an optional point with more digits. Exponents, `inf`, `nan` and underscores, which Python also accepts, read as missing. Their round trip is stated for the decimal form `Text.DecimalToString`, which writes a value with at most d decimals with exactly d of them.
- Lower-casing covers the ASCII letters only. Python's full Unicode case mapping is not modelled; it makes no difference to which strings are null tokens.
- Tie order is not fixed. Neither `ORDER BY revenue DESC` nor pandas `sort_values` guarantees one. The model's functions use one stable insertion sort, `Ranked`, but the SQL-versus-pandas table agreements are proved for arbitrary rankings (`IsRanking`) and top-n tables (`IsTop`). They therefore state equal lines and equal revenue columns, and exact equality only where no two keys earn the same.
- When several keys share the maximum revenue, `idxmax` picks the first. The model states only that the chosen key has maximal revenue; its agreement with the SQL table head is stated accordingly.
- NULL grouping keys are excluded in the model: the key columns are taken as present. SQL groups NULL keys together and pandas drops them.
- A group whose SALES values are all missing has revenue 0 in the model; SQL would give NULL for it.
- pandas groups in key order before sorting, while the model groups in order of first appearance. The difference is only in tie order, which is left out above.
- `etl/transform.py:109` fetches the 2003 customers and never uses them. The model does not compute that set.
- The SQL reads table `sale` while the import writes table `sales`. The model takes both to be the same table.
- Where the pandas code divides by zero, or the SQL code yields an infinity (the CAC with no customers), the model gives `None`.
- Agreement.MonthlyAgrees: stated only for four-digit years and months 1..12. Outside that range the SQL label keeps only the last two characters (see Agreement.LabelsPartForMonth100), and string order is no longer chronological.
- Agreement.MarginAgrees: stated only when the revenue has at most two decimals. Otherwise the SQL margin divides by the unrounded revenue and the pandas margin by the rounded one, so the two can differ in the last place.
- Text.Strip: its own contract states only that the result has no surrounding whitespace and is not longer. That it removes exactly the surrounding whitespace is stated by Text.TrimLeft, Text.TrimRight and Text.StripPadded.
- On a table without rows, the code divides 0 by 0 for the margin, which gives NaN, and divides by zero customers for the CAC, which raises or gives an infinity. The model returns `None` for both.
- ImportToSql.InsertRows: assumes that the in-loop `conn.commit()` and the progress message after it succeed. In the code both sit inside the row's `try`, after `inserted += 1` (etl/import_to_sql.py:98-102). If either raised, the row would be counted both as inserted and as an error, and would enter the error log. The model does not capture that double count, so its `inserted + errors` equals the number of rows only under this assumption.
