/**
 * A treatment's list of date ranges and its two edits, "Delete range" and
 * "Add range" (DIET_COMP.py:163-169).  Dates are day numbers.
 */
module DateRanges {

  /** A range of days, both ends included, with the TMR dry-matter percentage of every day in it. */
  datatype DateRange = DateRange(startDay: int, endDay: int, dm: real)

  /** Days in `pd.date_range(start, end)`: none when the end precedes the start. */
  function DayCount(r: DateRange): nat
  {
    if r.endDay < r.startDay then 0 else r.endDay - r.startDay + 1
  }

  /** Day `d` lies between `start` and `end`, both included. */
  predicate Within(d: int, start: int, end: int)
  {
    start <= d <= end
  }

  /** The dates of `pd.date_range(start, end)`, as a set of day numbers. */
  ghost function DaySet(start: int, end: int): set<int>
  {
    set d | start <= d <= end && Within(d, start, end)
  }

  lemma {:induction false} DaySetSize(start: int, end: int)
    ensures |DaySet(start, end)| == if end < start then 0 else end - start + 1
    decreases end - start
  {
    if end < start {
      assert DaySet(start, end) == {};
    } else {
      DaySetSize(start, end - 1);
      assert DaySet(start, end) == DaySet(start, end - 1) + {end};
    }
  }

  /** `DayCount` is the number of calendar days the range covers, both ends included. */
  lemma DayCountIsDays(r: DateRange)
    ensures DayCount(r) == |DaySet(r.startDay, r.endDay)|
  {
    DaySetSize(r.startDay, r.endDay);
  }

  /** The range "Add range" appends: the day after the last end (or after today), a week long, DM 50.0. */
  function NextRange(ranges: seq<DateRange>, today: int): (r: DateRange)
    ensures ranges == [] ==> r.startDay == today + 1
    ensures ranges != [] ==> r.startDay == ranges[|ranges| - 1].endDay + 1
    ensures r.startDay <= r.endDay && DayCount(r) == 8 && r.dm == 50.0
  {
    var lastEnd := if |ranges| > 0 then ranges[|ranges| - 1].endDay else today;
    DateRange(lastEnd + 1, lastEnd + 1 + 7, 50.0)
  }

  /** The list after "Add range" (lines 166-169). */
  function Added(ranges: seq<DateRange>, today: int): seq<DateRange>
  {
    ranges + [NextRange(ranges, today)]
  }

  /** The list after `ranges.pop(i)` (line 164). */
  function Removed(ranges: seq<DateRange>, i: nat): seq<DateRange>
    requires i < |ranges|
  {
    ranges[..i] + ranges[i + 1..]
  }

  /** Adding keeps the earlier ranges and appends one eight-day range starting the day after the previous end. */
  lemma AddedShape(ranges: seq<DateRange>, today: int)
    ensures var r := Added(ranges, today);
      |r| == |ranges| + 1 && r[..|ranges|] == ranges
      && r[|ranges|].startDay == (if ranges == [] then today else ranges[|ranges| - 1].endDay) + 1
      && r[|ranges|].endDay == r[|ranges|].startDay + 7
      && r[|ranges|].dm == 50.0 && DayCount(r[|ranges|]) == 8
  {
  }

  /** Deleting removes exactly element `i` and keeps the others in order. */
  lemma RemovedShape(ranges: seq<DateRange>, i: nat)
    requires i < |ranges|
    ensures var r := Removed(ranges, i);
      |r| == |ranges| - 1
      && (forall k :: 0 <= k < i ==> r[k] == ranges[k])
      && (forall k :: i <= k < |r| ==> r[k] == ranges[k + 1])
  {
  }

  /** Well-formed ranges, each ending before the next begins. */
  ghost predicate Chained(ranges: seq<DateRange>)
  {
    (forall k :: 0 <= k < |ranges| ==> ranges[k].startDay <= ranges[k].endDay)
    && forall k :: 0 <= k < |ranges| - 1 ==> ranges[k].endDay < ranges[k + 1].startDay
  }

  /** In a chained list every range ends before every later range begins, so no day is counted twice. */
  lemma {:induction false} ChainedDisjoint(ranges: seq<DateRange>, i: nat, j: nat)
    requires Chained(ranges) && i < j < |ranges|
    ensures ranges[i].endDay < ranges[j].startDay
    decreases j - i
  {
    if i + 1 < j {
      ChainedDisjoint(ranges, i + 1, j);
      assert ranges[i + 1].startDay <= ranges[i + 1].endDay;
    }
  }

  /** "Add range" keeps a chained list chained. */
  lemma AddKeepsChained(ranges: seq<DateRange>, today: int)
    requires Chained(ranges)
    ensures Chained(Added(ranges, today))
  {
  }

  /** "Delete range" keeps a chained list chained. */
  lemma RemoveKeepsChained(ranges: seq<DateRange>, i: nat)
    requires Chained(ranges) && i < |ranges|
    ensures Chained(Removed(ranges, i))
  {
    var r := Removed(ranges, i);
    forall k | 0 <= k < |r| - 1 ensures r[k].endDay < r[k + 1].startDay {
      if k + 1 == i {
        ChainedDisjoint(ranges, k, k + 2);
      }
    }
  }

  /** The date ranges of one treatment, as the session holds them. */
  class RangeList {
    var ranges: seq<DateRange>

    constructor ()
      ensures ranges == []
    {
      ranges := [];
    }

    /** "Add range" (lines 166-169); `today` stands for `datetime.today().date()`. */
    method Add(today: int)
      modifies this
      ensures ranges == Added(old(ranges), today)
    {
      var lastEnd := if |ranges| > 0 then ranges[|ranges| - 1].endDay else today;
      var newStart := lastEnd + 1;
      ranges := ranges + [DateRange(newStart, newStart + 7, 50.0)];
    }

    /** "Delete range i" (lines 163-164). */
    method Delete(i: nat)
      requires i < |ranges|
      modifies this
      ensures ranges == Removed(old(ranges), i)
    {
      ranges := ranges[..i] + ranges[i + 1..];
    }
  }
}
