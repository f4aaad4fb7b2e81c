/** The attendance metrics the page computes: column totals over the rows
    that survive the time-range filter, and the first-timer retention rate
    (the share of first timers that the 2nd/3rd-timer count represents). */
module Metrics {
  import opened Dates
  import opened Records
  import opened TimeWindow

  /** The numeric columns the page totals. */
  datatype Column = Members | Guests | FirstTimers | SecondThirdTimers | Children

  function Value(r: Record, c: Column): nat {
    match c
    case Members => r.members
    case Guests => r.guests
    case FirstTimers => r.firstTimers
    case SecondThirdTimers => r.secondThirdTimers
    case Children => r.children
  }

  /** Sum of one column over a set of rows. */
  function ColumnSum(rows: seq<Record>, c: Column): (total: nat)
    ensures |rows| == 0 ==> total == 0
    ensures |rows| > 0 ==> total >= Value(rows[0], c)
  {
    if |rows| == 0 then 0 else Value(rows[0], c) + ColumnSum(rows[1..], c)
  }

  /** The totals are additive over concatenated row sets. */
  lemma {:induction false} ColumnSumAppend(a: seq<Record>, b: seq<Record>, c: Column)
    ensures ColumnSum(a + b, c) == ColumnSum(a, c) + ColumnSum(b, c)
    decreases |a|
  {
    if |a| == 0 {
      assert a + b == b;
    } else {
      ColumnSumAppend(a[1..], b, c);
      assert (a + b)[0] == a[0] && (a + b)[1..] == a[1..] + b;
    }
  }

  /** Deleting rows never increases a total. */
  lemma {:induction false} ColumnSumSubsequence(sub: seq<Record>, s: seq<Record>, c: Column)
    requires Subsequence(sub, s)
    ensures ColumnSum(sub, c) <= ColumnSum(s, c)
    decreases |s|
  {
    if |sub| > 0 {
      if sub[0] == s[0] && Subsequence(sub[1..], s[1..]) {
        ColumnSumSubsequence(sub[1..], s[1..], c);
      } else {
        ColumnSumSubsequence(sub, s[1..], c);
      }
    }
  }

  /** Taking one row out of a table lowers a total by that row's value. */
  lemma ColumnSumRemove(b: seq<Record>, j: int, c: Column)
    requires 0 <= j < |b|
    ensures ColumnSum(b, c) == Value(b[j], c) + ColumnSum(b[..j] + b[j + 1..], c)
  {
    assert b == b[..j] + ([b[j]] + b[j + 1..]);
    ColumnSumAppend(b[..j], [b[j]] + b[j + 1..], c);
    ColumnSumAppend(b[..j], b[j + 1..], c);
    assert ([b[j]] + b[j + 1..])[1..] == b[j + 1..];
  }

  /** Taking the same row out of two tables with equal multisets leaves
      equal multisets. */
  lemma MultisetRemove(a: seq<Record>, b: seq<Record>, j: int)
    requires multiset(a) == multiset(b)
    requires |a| > 0 && 0 <= j < |b| && b[j] == a[0]
    ensures multiset(a[1..]) == multiset(b[..j] + b[j + 1..])
  {
    assert b == b[..j] + [b[j]] + b[j + 1..];
    assert multiset(b[..j] + b[j + 1..]) == multiset(b) - multiset{b[j]};
    assert a == [a[0]] + a[1..];
    assert multiset(a[1..]) == multiset(a) - multiset{a[0]};
  }

  /** Reordering rows does not change a total: a total depends only on the
      multiset of rows. */
  lemma {:induction false} ColumnSumMultiset(a: seq<Record>, b: seq<Record>, c: Column)
    requires multiset(a) == multiset(b)
    ensures ColumnSum(a, c) == ColumnSum(b, c)
    decreases |a|
  {
    if |a| == 0 {
      assert |b| == |multiset(b)| == 0;
    } else {
      assert a[0] in multiset(b);
      var j :| 0 <= j < |b| && b[j] == a[0];
      MultisetRemove(a, b, j);
      ColumnSumMultiset(a[1..], b[..j] + b[j + 1..], c);
      ColumnSumRemove(b, j, c);
    }
  }

  /** Retention rate in percent: retained over first timers, times 100,
      and 0 unless the first-timer total is positive. */
  function RetentionRate(retained: int, firstTimers: int): (rate: real)
    ensures firstTimers <= 0 ==> rate == 0.0
    ensures firstTimers > 0 ==> rate * firstTimers as real == retained as real * 100.0
  {
    if firstTimers > 0 then (retained as real / firstTimers as real) * 100.0 else 0.0
  }

  /** With a positive first-timer total, the rate is a percentage exactly
      when the retained count is between 0 and the first-timer total, and it
      is 100 exactly when the two are equal. */
  lemma RetentionRateRange(retained: int, firstTimers: int)
    requires firstTimers > 0
    ensures 0.0 <= RetentionRate(retained, firstTimers) <= 100.0 <==> 0 <= retained <= firstTimers
    ensures RetentionRate(retained, firstTimers) == 100.0 <==> retained == firstTimers
  {
    var rate, f := RetentionRate(retained, firstTimers), firstTimers as real;
    assert rate * f == retained as real * 100.0;
    assert 0.0 <= rate <==> 0.0 <= rate * f;
    assert rate <= 100.0 <==> rate * f <= 100.0 * f;
    assert rate == 100.0 <==> rate * f == 100.0 * f;
  }

  /** The totals and the retention rate the page computes for a set of
      rows (not all of them are displayed). */
  datatype Summary = Summary(
    members: nat,
    guests: nat,
    firstTimers: nat,
    secondThirdTimers: nat,
    children: nat,
    retentionRate: real)

  /** Totals of every column over `rows`, and the retention rate of those
      totals, with the 2nd/3rd-timer total as the retained count. */
  function Summarize(rows: seq<Record>): (s: Summary)
    ensures |rows| == 0 ==> s == Summary(0, 0, 0, 0, 0, 0.0)
    ensures s.firstTimers == 0 ==> s.retentionRate == 0.0
    ensures s.firstTimers > 0 ==>
              s.retentionRate * s.firstTimers as real == s.secondThirdTimers as real * 100.0
  {
    var firstTimers := ColumnSum(rows, FirstTimers);
    var retained := ColumnSum(rows, SecondThirdTimers);
    Summary(
      ColumnSum(rows, Members),
      ColumnSum(rows, Guests),
      firstTimers,
      retained,
      ColumnSum(rows, Children),
      RetentionRate(retained, firstTimers))
  }


  /** Totals of concatenated row sets add up. */
  lemma SummarizeAppend(a: seq<Record>, b: seq<Record>)
    ensures Summarize(a + b).members == Summarize(a).members + Summarize(b).members
    ensures Summarize(a + b).guests == Summarize(a).guests + Summarize(b).guests
    ensures Summarize(a + b).firstTimers == Summarize(a).firstTimers + Summarize(b).firstTimers
    ensures Summarize(a + b).secondThirdTimers ==
              Summarize(a).secondThirdTimers + Summarize(b).secondThirdTimers
    ensures Summarize(a + b).children == Summarize(a).children + Summarize(b).children
  {
    ColumnSumAppend(a, b, Members);
    ColumnSumAppend(a, b, Guests);
    ColumnSumAppend(a, b, FirstTimers);
    ColumnSumAppend(a, b, SecondThirdTimers);
    ColumnSumAppend(a, b, Children);
  }

  /** No keyword reports more than the whole table holds. */
  lemma ReportAtMostWholeTable(rows: seq<Record>, timeRange: string, c: Column)
    ensures ColumnSum(FilterByTimeRange(rows, timeRange), c) <= ColumnSum(rows, c)
  {
    ColumnSumSubsequence(FilterByTimeRange(rows, timeRange), rows, c);
  }

  /** Metrics for one keyword of the range selector: no total exceeds the
      whole table's, and "All time" (or an unrecognised keyword) reports the
      whole table. */
  function Report(rows: seq<Record>, timeRange: string): (s: Summary)
    ensures s.members <= ColumnSum(rows, Members)
    ensures s.guests <= ColumnSum(rows, Guests)
    ensures s.firstTimers <= ColumnSum(rows, FirstTimers)
    ensures s.secondThirdTimers <= ColumnSum(rows, SecondThirdTimers)
    ensures s.children <= ColumnSum(rows, Children)
    ensures Classify(timeRange) == AllTime ==> s == Summarize(rows)
  {
    var filtered := FilterByTimeRange(rows, timeRange);
    ReportAtMostWholeTable(rows, timeRange, Members);
    ReportAtMostWholeTable(rows, timeRange, Guests);
    ReportAtMostWholeTable(rows, timeRange, FirstTimers);
    ReportAtMostWholeTable(rows, timeRange, SecondThirdTimers);
    ReportAtMostWholeTable(rows, timeRange, Children);
    AllTimeKeepsEverything(rows, timeRange);
    Summarize(filtered)
  }

  /** The report for a keyword is fixed by the rows inside its window and
      their multiplicities alone: any table `kept` holding exactly those rows,
      in any order, has the same metrics. */
  lemma ReportFixedByWindow(rows: seq<Record>, timeRange: string, kept: seq<Record>)
    requires |rows| > 0
    requires forall x: Record :: multiset(kept)[x] ==
               if InWindow(x.date, Bounds(rows, Classify(timeRange))) then multiset(rows)[x] else 0
    ensures Report(rows, timeRange) == Summarize(kept)
  {
    var filtered := FilterByTimeRange(rows, timeRange);
    assert multiset(kept) == multiset(filtered);
    ColumnSumMultiset(filtered, kept, Members);
    ColumnSumMultiset(filtered, kept, Guests);
    ColumnSumMultiset(filtered, kept, FirstTimers);
    ColumnSumMultiset(filtered, kept, SecondThirdTimers);
    ColumnSumMultiset(filtered, kept, Children);
  }

  /** The last three months never total more than the last six. */
  lemma LastThreeAtMostLastSix(rows: seq<Record>, c: Column)
    ensures ColumnSum(FilterByTimeRange(rows, "Last 3 months"), c) <=
            ColumnSum(FilterByTimeRange(rows, "Last 6 months"), c)
  {
    LastThreeWithinLastSix(rows);
    ColumnSumSubsequence(FilterByTimeRange(rows, "Last 3 months"),
                         FilterByTimeRange(rows, "Last 6 months"), c);
  }

  /** Two services, 1 January 2024 (5 first timers, 2 retained) and
      1 April 2024 (3 first timers, 3 retained): the first quarter keeps the
      January row only, and the whole table has 8 first timers, 5 retained
      and a retention rate of 62.5 percent. */
  lemma TwoServiceExample()
    ensures var jan := Record(Date(2024, 1, 1), 40, 6, 5, 2, 10, 63, "No");
            var apr := Record(Date(2024, 4, 1), 42, 4, 3, 3, 12, 64, "Easter");
            && FilterByTimeRange([jan, apr], "First quarter") == [jan]
            && Summarize([jan, apr]).firstTimers == 8
            && Summarize([jan, apr]).secondThirdTimers == 5
            && Summarize([jan, apr]).retentionRate == 62.5
  {
    var jan := Record(Date(2024, 1, 1), 40, 6, 5, 2, 10, 63, "No");
    var apr := Record(Date(2024, 4, 1), 42, 4, 3, 3, 12, 64, "Easter");
    FirstQuarterOfTwo(jan, apr);
    TotalsOfTwo(jan, apr);
  }

  lemma TotalsOfTwo(jan: Record, apr: Record)
    requires jan.firstTimers == 5 && jan.secondThirdTimers == 2
    requires apr.firstTimers == 3 && apr.secondThirdTimers == 3
    ensures Summarize([jan, apr]).firstTimers == 8
    ensures Summarize([jan, apr]).secondThirdTimers == 5
    ensures Summarize([jan, apr]).retentionRate == 62.5
  {
    assert [jan, apr][1..] == [apr];
    assert [apr][1..] == [];
    assert ColumnSum([apr], FirstTimers) == 3 && ColumnSum([apr], SecondThirdTimers) == 3;
    assert ColumnSum([jan, apr], FirstTimers) == 8;
    assert ColumnSum([jan, apr], SecondThirdTimers) == 5;
  }

  lemma FirstQuarterOfTwo(jan: Record, apr: Record)
    requires jan.date == Date(2024, 1, 1) && apr.date == Date(2024, 4, 1)
    ensures FilterByTimeRange([jan, apr], "First quarter") == [jan]
  {
    var rows := [jan, apr];
    assert rows[1..] == [apr];
    assert MaxDate(rows) == Date(2024, 4, 1);
    var w := Bounds(rows, FirstQuarter);
    assert w == Window(Date(2024, 1, 1), Date(2024, 3, 31));
    assert Select(rows[1..], w) == [];
    assert Select(rows, w) == [jan];
    assert Classify("First quarter") == FirstQuarter;
  }
}
