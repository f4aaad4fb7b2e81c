/** The time-range filter of the dashboard: a range keyword chosen by the
    viewer becomes an inclusive window of dates anchored on the latest date
    in the data, and the rows dated inside the window are kept in their
    original order. */
module TimeWindow {
  import opened Dates
  import opened Records

  /** The range keywords the filter distinguishes. Every string other than
      the five named ones, "All time" included, selects the whole span of
      the data. */
  datatype TimeRange =
    | LastThreeMonths
    | LastSixMonths
    | FirstQuarter
    | SecondQuarter
    | ThirdQuarter
    | AllTime

  function Classify(timeRange: string): (k: TimeRange)
    ensures k == LastThreeMonths <==> timeRange == "Last 3 months"
    ensures k == LastSixMonths <==> timeRange == "Last 6 months"
    ensures k == FirstQuarter <==> timeRange == "First quarter"
    ensures k == SecondQuarter <==> timeRange == "Second quarter"
    ensures k == ThirdQuarter <==> timeRange == "Third quarter"
  {
    if timeRange == "Last 3 months" then LastThreeMonths
    else if timeRange == "Last 6 months" then LastSixMonths
    else if timeRange == "First quarter" then FirstQuarter
    else if timeRange == "Second quarter" then SecondQuarter
    else if timeRange == "Third quarter" then ThirdQuarter
    else AllTime
  }

  /** Latest date in the data. */
  function MaxDate(rows: seq<Record>): (m: CalendarDate)
    requires |rows| > 0
    ensures exists i :: 0 <= i < |rows| && rows[i].date == m
    ensures forall i :: 0 <= i < |rows| ==> OnOrBefore(rows[i].date, m)
  {
    if |rows| == 1 then rows[0].date
    else
      var rest := MaxDate(rows[1..]);
      if OnOrBefore(rows[0].date, rest) then rest else rows[0].date
  }

  /** Earliest date in the data. */
  function MinDate(rows: seq<Record>): (m: CalendarDate)
    requires |rows| > 0
    ensures exists i :: 0 <= i < |rows| && rows[i].date == m
    ensures forall i :: 0 <= i < |rows| ==> OnOrBefore(m, rows[i].date)
  {
    if |rows| == 1 then rows[0].date
    else
      var rest := MinDate(rows[1..]);
      if OnOrBefore(rest, rows[0].date) then rest else rows[0].date
  }

  /** Inclusive window `[startDate, endDate]`. */
  datatype Window = Window(startDate: CalendarDate, endDate: CalendarDate)

  /** The inclusive date test of the filter's row mask. Only a window whose
      start is on or before its end contains any date. */
  predicate InWindow(d: Date, w: Window)
    ensures InWindow(d, w) ==> OnOrBefore(w.startDate, w.endDate)
  {
    OnOrBefore(w.startDate, d) && OnOrBefore(d, w.endDate)
  }

  /** `w` lies inside `v`. */
  predicate WithinWindow(w: Window, v: Window) {
    OnOrBefore(v.startDate, w.startDate) && OnOrBefore(w.endDate, v.endDate)
  }

  /** Bounds of the window for a keyword. The rolling windows and the whole
      span end at the latest date; a quarter keyword replaces both bounds by
      fixed dates in the latest date's year. */
  function Bounds(rows: seq<Record>, range: TimeRange): (w: Window)
    requires |rows| > 0
    ensures range in {LastThreeMonths, LastSixMonths, AllTime} ==>
              w.endDate == MaxDate(rows) && OnOrBefore(w.startDate, w.endDate)
  {
    var latest := MaxDate(rows);
    match range
    case LastThreeMonths =>
      SubtractMonthsNotAfter(latest, 3);
      Window(SubtractMonths(latest, 3), latest)
    case LastSixMonths =>
      SubtractMonthsNotAfter(latest, 6);
      Window(SubtractMonths(latest, 6), latest)
    case FirstQuarter =>
      Window(Date(latest.year, 1, 1), Date(latest.year, 3, 31))
    case SecondQuarter =>
      Window(Date(latest.year, 4, 1), Date(latest.year, 6, 30))
    case ThirdQuarter =>
      Window(Date(latest.year, 7, 1), Date(latest.year, 9, 30))
    case AllTime =>
      var earliest := MinDate(rows);
      assert OnOrBefore(earliest, latest) by {
        var i :| 0 <= i < |rows| && rows[i].date == earliest;
      }
      Window(earliest, latest)
  }

  /** The rows dated inside `w`, in their original order. */
  function Select(rows: seq<Record>, w: Window): (r: seq<Record>)
    ensures |r| <= |rows|
  {
    if |rows| == 0 then []
    else if InWindow(rows[0].date, w) then [rows[0]] + Select(rows[1..], w)
    else Select(rows[1..], w)
  }


  // ---------------------------------------------------------------------
  // Properties of Select

  lemma {:induction false} SelectSubsequence(rows: seq<Record>, w: Window)
    ensures Subsequence(Select(rows, w), rows)
    decreases |rows|
  {
    if |rows| > 0 {
      SelectSubsequence(rows[1..], w);
      var r := Select(rows, w);
      if InWindow(rows[0].date, w) {
        assert r[0] == rows[0] && r[1..] == Select(rows[1..], w);
      }
    }
  }

  lemma {:induction false} SelectSound(rows: seq<Record>, w: Window)
    ensures forall x :: x in Select(rows, w) ==> InWindow(x.date, w)
    decreases |rows|
  {
    if |rows| > 0 {
      SelectSound(rows[1..], w);
    }
  }

  /** Each row inside the window is kept as many times as it occurs, and no
      other row is kept. */
  lemma {:induction false} SelectMultiplicity(rows: seq<Record>, w: Window, x: Record)
    ensures multiset(Select(rows, w))[x] == if InWindow(x.date, w) then multiset(rows)[x] else 0
    decreases |rows|
  {
    if |rows| > 0 {
      SelectMultiplicity(rows[1..], w, x);
      assert rows == [rows[0]] + rows[1..];
    }
  }

  lemma SelectComplete(rows: seq<Record>, w: Window)
    ensures forall i :: 0 <= i < |rows| && InWindow(rows[i].date, w) ==> rows[i] in Select(rows, w)
  {
    forall i | 0 <= i < |rows| && InWindow(rows[i].date, w)
      ensures rows[i] in Select(rows, w)
    {
      SelectMultiplicity(rows, w, rows[i]);
    }
  }

  lemma {:induction false} SelectAll(rows: seq<Record>, w: Window)
    requires forall i :: 0 <= i < |rows| ==> InWindow(rows[i].date, w)
    ensures Select(rows, w) == rows
    decreases |rows|
  {
    if |rows| > 0 {
      SelectAll(rows[1..], w);
    }
  }

  /** A window that starts after every row's date keeps nothing. */
  lemma {:induction false} SelectNoneAfter(rows: seq<Record>, w: Window, latest: Date)
    requires forall i :: 0 <= i < |rows| ==> OnOrBefore(rows[i].date, latest)
    requires !OnOrBefore(w.startDate, latest)
    ensures Select(rows, w) == []
    decreases |rows|
  {
    if |rows| > 0 {
      if OnOrBefore(w.startDate, rows[0].date) {
        OnOrBeforeTransitive(w.startDate, rows[0].date, latest);
      }
      SelectNoneAfter(rows[1..], w, latest);
    }
  }

  /** A narrower window keeps a subsequence of what a wider one keeps. */
  lemma {:induction false} SelectWithin(rows: seq<Record>, w: Window, v: Window)
    requires WithinWindow(w, v)
    ensures Subsequence(Select(rows, w), Select(rows, v))
    decreases |rows|
  {
    if |rows| > 0 {
      SelectWithin(rows[1..], w, v);
      var a, b := Select(rows, w), Select(rows, v);
      if InWindow(rows[0].date, w) {
        assert a[0] == b[0] && a[1..] == Select(rows[1..], w) && b[1..] == Select(rows[1..], v);
      } else if InWindow(rows[0].date, v) {
        assert b[1..] == Select(rows[1..], v);
      }
    }
  }

  // ---------------------------------------------------------------------
  // Properties of the time-range filter

  /** The rows of the table dated inside the window of `range`, in their
      original order: the input with rows deleted, every kept row inside the
      window, and every row inside the window kept as often as it occurs.
      On an empty table there are no rows to keep. */
  function Filter(rows: seq<Record>, range: TimeRange): (r: seq<Record>)
    ensures Subsequence(r, rows)
    ensures forall x :: x in r ==> x in rows
    ensures |rows| == 0 ==> r == []
    ensures |rows| > 0 ==> forall x :: x in r ==> InWindow(x.date, Bounds(rows, range))
    ensures |rows| > 0 ==>
              forall i :: 0 <= i < |rows| && InWindow(rows[i].date, Bounds(rows, range)) ==> rows[i] in r
    ensures |rows| > 0 ==>
              forall x: Record :: multiset(r)[x] ==
                                  if InWindow(x.date, Bounds(rows, range)) then multiset(rows)[x] else 0
  {
    if |rows| == 0 then []
    else
      var w := Bounds(rows, range);
      var r := Select(rows, w);
      SelectSubsequence(rows, w);
      SubsequenceMembers(r, rows);
      SelectSound(rows, w);
      SelectComplete(rows, w);
      assert forall x: Record :: multiset(r)[x] == if InWindow(x.date, w) then multiset(rows)[x] else 0 by {
        forall x: Record
          ensures multiset(r)[x] == if InWindow(x.date, w) then multiset(rows)[x] else 0
        {
          SelectMultiplicity(rows, w, x);
        }
      }
      r
  }

  /** The time-range filter as the page calls it, with the keyword string:
      the input with rows deleted, keeping exactly the rows inside the
      window of the keyword, with their multiplicities. */
  function FilterByTimeRange(rows: seq<Record>, timeRange: string): (r: seq<Record>)
    ensures Subsequence(r, rows)
    ensures |rows| > 0 ==>
              forall x: Record :: multiset(r)[x] ==
                if InWindow(x.date, Bounds(rows, Classify(timeRange))) then multiset(rows)[x] else 0
  {
    Filter(rows, Classify(timeRange))
  }

  /** "All time", and every keyword the filter does not recognise, return
      the whole table unchanged. */
  lemma AllTimeKeepsEverything(rows: seq<Record>, timeRange: string)
    ensures Classify(timeRange) == AllTime ==> FilterByTimeRange(rows, timeRange) == rows
  {
    if Classify(timeRange) == AllTime && |rows| > 0 {
      var w := Bounds(rows, AllTime);
      assert w == Window(MinDate(rows), MaxDate(rows));
      SelectAll(rows, w);
    }
  }

  /** The rolling windows always keep the rows of the latest date. */
  lemma RollingWindowKeepsLatest(rows: seq<Record>, range: TimeRange)
    requires |rows| > 0
    requires range in {LastThreeMonths, LastSixMonths}
    ensures forall i :: 0 <= i < |rows| && rows[i].date == MaxDate(rows) ==>
              rows[i] in Filter(rows, range)
  {
    SelectComplete(rows, Bounds(rows, range));
  }

  /** The last three months are part of the last six months. */
  lemma LastThreeWithinLastSix(rows: seq<Record>)
    ensures Subsequence(FilterByTimeRange(rows, "Last 3 months"),
                        FilterByTimeRange(rows, "Last 6 months"))
  {
    assert Classify("Last 3 months") == LastThreeMonths;
    assert Classify("Last 6 months") == LastSixMonths;
    if |rows| > 0 {
      var latest := MaxDate(rows);
      SubtractMonthsAntitone(latest, 3, 6);
      SelectWithin(rows, Bounds(rows, LastThreeMonths), Bounds(rows, LastSixMonths));
    }
  }

  /** A quarter keyword keeps exactly the rows of that quarter of the latest
      date's year; the latest date's month and day play no part. */
  lemma QuarterWindows(rows: seq<Record>, d: CalendarDate)
    requires |rows| > 0
    ensures InWindow(d, Bounds(rows, FirstQuarter)) <==>
              d.year == MaxDate(rows).year && 1 <= d.month <= 3
    ensures InWindow(d, Bounds(rows, SecondQuarter)) <==>
              d.year == MaxDate(rows).year && 4 <= d.month <= 6
    ensures InWindow(d, Bounds(rows, ThirdQuarter)) <==>
              d.year == MaxDate(rows).year && 7 <= d.month <= 9
  {
  }

  /** The quarter bounds depend on the latest date's year only. */
  lemma QuarterBoundsDependOnYearOnly(rows: seq<Record>, other: seq<Record>, range: TimeRange)
    requires |rows| > 0 && |other| > 0
    requires range in {FirstQuarter, SecondQuarter, ThirdQuarter}
    requires MaxDate(rows).year == MaxDate(other).year
    ensures Bounds(rows, range) == Bounds(other, range)
  {
  }

  /** A window that starts after the latest date selects nothing. Only a
      quarter keyword can give such a window (the others start on or before
      the latest date, see Bounds): the quarter's end replaces the latest
      date as upper bound, but no row is later than the latest date. */
  lemma QuarterAfterLatestIsEmpty(rows: seq<Record>, range: TimeRange)
    requires |rows| > 0
    requires !OnOrBefore(Bounds(rows, range).startDate, MaxDate(rows))
    ensures Filter(rows, range) == []
  {
    SelectNoneAfter(rows, Bounds(rows, range), MaxDate(rows));
  }
}
