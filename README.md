# Church attendance dashboard: time-range filter and metrics

This project models the reporting arithmetic of a one-page attendance
dashboard for a church. The page loads one row per Sunday service. Each row
holds the service date and counts of members, guests, first timers,
2nd/3rd timers, children and total check-ins, plus a special-service tag.
The viewer picks a time range from a selector. The page keeps the rows dated
inside that range and computes their column totals and a first-timer
retention rate. Only the first-timer and 2nd/3rd-timer totals are displayed
as computed.

What the project models:

- `dates.dfy` (module `Dates`): calendar dates at day granularity, the Gregorian
  month lengths, their chronological order, and calendar-month subtraction.
  Month subtraction keeps the day of the month and clamps it to the last day
  of the target month, so 31 May minus 3 months is 28 or 29 February.
- `records.dfy` (module `Records`): the attendance row after loading. Missing
  cells become 0, and the counts are assumed non-negative, so every count is
  a `nat`. The file also defines
  "subsequence" (rows deleted, order kept).
- `timewindow.dfy` (module `TimeWindow`): the range keywords, and the
  inclusive window each keyword denotes.
  - The window is anchored on the latest date in the data, not on today.
  - "Last 3 months" and "Last 6 months" go back that many calendar months
    from the latest date.
  - The three quarter keywords use fixed dates in the latest date's year,
    for both bounds.
  - "All time" and every unrecognised keyword span the earliest to the
    latest date.
  - The filter keeps the rows inside the window, in their original order.
- `metrics.dfy` (module `Metrics`): column totals over a set of rows, and the
  retention rate. The rate is retained / first timers × 100, with the
  2nd/3rd-timer total as the retained count. It is 0 unless the first-timer
  total is positive. The rate is a `real`.

The page's keyword strings are mapped to a closed enumeration (`Classify`).
The window and filter lemmas are stated over that enumeration.
`FilterByTimeRange` and `Report` take the string, as the page does.

## Model

| member | source | states |
|---|---|---|
| `Dates.DaysInMonth` | main.py:18 | the Gregorian month lengths of a parsed day/month/year date: 31 days exactly for January, March, May, July, August, October and December; 30 exactly for April, June, September and November; 29 exactly for February of a leap year; 28 exactly for February of a common year |
| `Dates.SubtractMonths` | main.py:36-38 | going back n calendar months lands exactly n months earlier and gives a valid date; the day of the month is kept when the target month has it, otherwise it becomes that month's last day |
| `Dates.SubtractMonthsNotAfter` | main.py:36-38 | the start of a rolling window is never after the latest date |
| `Dates.SubtractMonthsAntitone` | main.py:36-38 | going back more months gives an earlier or equal date, so the 6-month start is no later than the 3-month start |
| `Dates.SubtractMonthsMonotone` | main.py:36-38 | subtracting the same number of months preserves the order of two dates |
| `Dates.SubtractMonthsExamples` | main.py:36-38 | concrete offsets: 31 May 2024 − 3 months is 29 Feb 2024; 31 May 2023 − 3 months is 28 Feb 2023; 15 Feb 2024 − 3 months is 15 Nov 2023; 31 Mar 2024 − 6 months is 30 Sep 2023 |
| `TimeWindow.Classify` | main.py:35-54 | each of the five recognised keyword strings selects its own range, and only that string does; every other string, "All time" included, selects the whole span |
| `TimeWindow.MaxDate` | main.py:34 | the reference date is a date of some row, and no row is later |
| `TimeWindow.MinDate` | main.py:54 | the "All time" start is a date of some row, and no row is earlier |
| `TimeWindow.Bounds` | main.py:33-54 | for the rolling windows and "All time" the window ends at the latest date and is not empty (start on or before end) |
| `TimeWindow.InWindow` | main.py:56 | the inclusive two-sided date test of the row mask; only a window whose start is on or before its end contains any date |
| `TimeWindow.Select` | main.py:56 | the row mask applied to a table; its own ensures only bounds the length, and its meaning is carried by `SelectSubsequence` (order kept) and `SelectMultiplicity` (exact counts) |
| `TimeWindow.SelectSubsequence` | main.py:56 | the kept rows are the input with rows deleted, in the original order |
| `TimeWindow.SelectSound` | main.py:56 | every kept row is dated inside the inclusive window |
| `TimeWindow.SelectMultiplicity` | main.py:56 | a row inside the window is kept exactly as often as it occurs; a row outside is never kept |
| `TimeWindow.SelectComplete` | main.py:56 | every input row dated inside the window is kept |
| `TimeWindow.SelectAll` | main.py:56 | when every row is inside the window, the selection is the input unchanged |
| `TimeWindow.SelectNoneAfter` | main.py:56 | a window starting after every row's date keeps nothing |
| `TimeWindow.SelectWithin` | main.py:56 | a window inside another keeps a subsequence of what the larger one keeps |
| `TimeWindow.Filter` | main.py:33-56 | for every range, including on an empty table, the result is an order-preserving subsequence of the input with only input rows in it; an empty table gives no rows; on a non-empty table every returned row is inside the range's window, every input row inside the window is returned, and each row's count in the result is its count in the input when inside the window and 0 otherwise |
| `TimeWindow.FilterByTimeRange` | main.py:33-56 | the filter as called with the keyword string: an order-preserving subsequence of the input that, on a non-empty table, keeps exactly the rows inside the window of the classified keyword, with their multiplicities |
| `TimeWindow.AllTimeKeepsEverything` | main.py:53-56 | "All time" and every unrecognised keyword return the table unchanged |
| `TimeWindow.RollingWindowKeepsLatest` | main.py:34-38 | on a non-empty table, "Last 3 months" and "Last 6 months" always return the rows of the latest date |
| `TimeWindow.LastThreeWithinLastSix` | main.py:34-38 | the "Last 3 months" result is a subsequence of the "Last 6 months" result |
| `TimeWindow.QuarterWindows` | main.py:41-49 | a date lies in the First/Second/Third quarter window exactly when it is in the latest date's year and its month is 1-3, 4-6 or 7-9 |
| `TimeWindow.QuarterBoundsDependOnYearOnly` | main.py:41-49 | two tables whose latest dates share a year get the same quarter windows; the latest date's month and day do not matter |
| `TimeWindow.QuarterAfterLatestIsEmpty` | main.py:41-56 | a quarter that starts after the latest date returns no rows, because the quarter end replaces the latest date as the upper bound |
| `Metrics.ColumnSum` | main.py:72-76 | a column's `.sum()`; its own ensures give the empty total 0 and a first-row lower bound, and its meaning is carried by `ColumnSumAppend` (additive) and `ColumnSumSubsequence` (monotone) |
| `Metrics.ColumnSumAppend` | main.py:72-76 | totals are additive over concatenated row sets |
| `Metrics.ColumnSumSubsequence` | main.py:72-76 | deleting rows never increases a total |
| `Metrics.ColumnSumRemove` | main.py:72-76 | taking one row out of a table lowers a total by exactly that row's value |
| `Metrics.MultisetRemove` | main.py:72-76 | taking the same row out of two tables with equal multisets of rows leaves equal multisets |
| `Metrics.ColumnSumMultiset` | main.py:72-76 | a total depends only on the multiset of rows, not on their order |
| `Metrics.RetentionRate` | main.py:149-152 | the rate is 0 when the first-timer total is not positive; otherwise rate × first timers = retained × 100 |
| `Metrics.RetentionRateRange` | main.py:149-152 | with a positive first-timer total, the rate lies in [0, 100] exactly when 0 ≤ retained ≤ first timers, and is 100 exactly when they are equal |
| `Metrics.Summarize` | main.py:72-76 | the five column totals of main.py:72-76 with the guarded rate of main.py:146-152 on them: an empty row set gives all-zero totals and rate 0; the rate reported with the totals is 0 with no first timers, and otherwise the retained total × 100 / the first-timer total |
| `Metrics.SummarizeAppend` | main.py:72-76 | each of the five totals of two concatenated row sets is the sum of their totals |
| `Metrics.ReportAtMostWholeTable` | main.py:67-76 | no keyword reports a total larger than the whole table's |
| `Metrics.Report` | main.py:67-76 | the metrics for one keyword: none of the five totals exceeds the whole table's, and "All time" (or any unrecognised keyword) gives exactly the whole table's metrics |
| `Metrics.ReportFixedByWindow` | main.py:33-76 | on a non-empty table, the metrics for a keyword equal the metrics of any table holding exactly the rows inside that keyword's window, each as often as in the input, in any order |
| `Metrics.LastThreeAtMostLastSix` | main.py:67-76 | every "Last 3 months" total is at most the corresponding "Last 6 months" total |
| `Metrics.TwoServiceExample` | main.py:41-43 | with services on 1 Jan 2024 (5 first timers, 2 retained) and 1 Apr 2024 (3 first timers, 3 retained), "First quarter" keeps only the January row, and the whole table has 8 first timers, 5 retained and rate 62.5 |

## Left out

- Page setup, title, selector, columns and metric widgets (main.py:6-9, 29, 60-64, 78-89): these are UI. The "Total Members" and "Total Children" widgets show the fixed numbers 224 and 8, not the computed totals, and the "Total Guests" widget is commented out. The model computes the totals and does not model the widgets.
- Displayed values: `total_members`, `total_guests`, `total_children` and `retention_rate` are computed by the page but never displayed; `Summarize` models them as computed. The retention the viewer sees is the pie chart, whose slices are the retained total and first timers minus retained. The pie is not modelled, and it has no zero guard.
- Line chart and retention pie chart (main.py:95-168): presentation only. The pie's "Not Retained" slice (first timers minus retained) is chart input and is not modelled.
- Loading the CSV file, the page's cache, date parsing and replacing missing cells by 0 (main.py:13-24): I/O and a foreign library. Rows are given as already-parsed valid dates with `nat` counts.
- Re-formatting dates for the table and resetting the index (main.py:174-177): presentation only.
- Empty table: the source takes the latest date of an empty column, which is "not a time". For the quarter keywords it then builds a timestamp from that value's year, which is not well defined. The model returns no rows for every keyword on an empty table. The properties that mention the window bounds (`Bounds`) assume a non-empty table; the subsequence, "All time", nesting and total properties hold for every table.
- Timestamp range: a pandas timestamp covers only years 1677 to 2262, and a month offset past those years raises an error. The model's years are unbounded integers.
- The commented-out "Last 1 year" and "Fourth quarter" branches (main.py:39-40, 50-52) are not live code and are not modelled.
- Filtering by an explicit date set, by special-service tag, the highest/lowest rows of a column, and side-by-side quarter comparison are not in main.py. They are not part of this model. The special-service tag and the total check-in count are carried in each row but not used.
- Retention rate arithmetic uses exact `real` division. Floating-point rounding of the source's division is not modelled.
