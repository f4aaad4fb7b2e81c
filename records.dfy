/** One row of the attendance table, after loading: the date is parsed and
    every missing count has been replaced by zero. The counts are assumed
    non-negative; replacing missing cells does not make them so. */
module Records {
  import opened Dates

  datatype Record = Record(
    date: CalendarDate,
    members: nat,
    guests: nat,
    firstTimers: nat,
    secondThirdTimers: nat,
    children: nat,
    totalCheckIn: nat,
    specialService: string)

  /** `sub` is obtained from `s` by deleting rows, keeping the order of the
      rest. */
  predicate Subsequence(sub: seq<Record>, s: seq<Record>)
    decreases |s|
  {
    |sub| == 0
    || (|s| > 0
        && ((sub[0] == s[0] && Subsequence(sub[1..], s[1..])) || Subsequence(sub, s[1..])))
  }

  /** Every row of a subsequence is a row of the sequence. */
  lemma {:induction false} SubsequenceMembers(sub: seq<Record>, s: seq<Record>)
    requires Subsequence(sub, s)
    ensures |sub| <= |s|
    ensures forall x :: x in sub ==> x in s
    decreases |s|
  {
    if |sub| > 0 {
      if sub[0] == s[0] && Subsequence(sub[1..], s[1..]) {
        SubsequenceMembers(sub[1..], s[1..]);
        assert sub == [s[0]] + sub[1..];
      } else {
        SubsequenceMembers(sub, s[1..]);
      }
    }
  }
}
