/**
Rebuilding per-day GPU time from the accounting database: every job's interval
is cut at local day boundaries, taken to be 86400 seconds after the start of the
local day, which is not true of every local day.
*/
module Sacct {
  import opened Common
  import opened Sums

  type Day = int

  /** The local calendar: when the local day of an instant began, in whole
      seconds, and the key of that day. */
  datatype Calendar = Calendar(dayStart: real -> int, dayKey: real -> Day)

  const DAY_SECONDS := 86400

  function DayEnd(cal: Calendar, t: real): real {
    (cal.dayStart(t) + DAY_SECONDS) as real
  }

  /** No local day is longer than 86400 seconds, as far as `t` shows. */
  ghost predicate NormalAt(cal: Calendar, t: real) {
    cal.dayStart(t) as real <= t < DayEnd(cal, t)
  }

  /** No instant of `[from, to)` lies beyond the 86400th second of its local day. */
  ghost predicate NormalOn(cal: Calendar, from: real, to: real) {
    forall t :: from <= t < to ==> NormalAt(cal, t)
  }

  // ---------------------------------------------------------------------------
  // One job
  // ---------------------------------------------------------------------------

  datatype Segment = Segment(day: Day, from: real, to: real)

  /** The segments the loop cuts `[cur, t1)` into. */
  function Split(cal: Calendar, cur: real, t1: real): seq<Segment>
    requires NormalOn(cal, cur, t1)
    decreases (if cur < t1 then 1 else 0), t1.Floor - cal.dayStart(cur)
  {
    if cur >= t1 then []
    else
      var end := DayEnd(cal, cur);
      assert NormalAt(cal, cur) && (end < t1 ==> NormalAt(cal, end));
      [Segment(cal.dayKey(cur), cur, if t1 < end then t1 else end)] + Split(cal, end, t1)
  }

  ghost predicate Partitions(segs: seq<Segment>, t0: real, t1: real) {
    if segs == [] then t0 >= t1
    else segs[0].from == t0 && t0 < segs[0].to <= t1 && Partitions(segs[1..], segs[0].to, t1)
  }

  lemma {:induction false} SplitEnds(cal: Calendar, cur: real, t1: real)
    requires cur >= t1
    ensures Split(cal, cur, t1) == []
  {
  }

  /** The segments partition the interval, each inside 86400 seconds of the
      start of the day it is keyed to. */
  lemma {:induction false} SplitPartitions(cal: Calendar, t0: real, t1: real)
    requires NormalOn(cal, t0, t1) && t0 <= t1
    ensures Partitions(Split(cal, t0, t1), t0, t1)
    ensures forall s :: s in Split(cal, t0, t1) ==>
      s.day == cal.dayKey(s.from) && cal.dayStart(s.from) as real <= s.from && s.to <= DayEnd(cal, s.from)
    decreases (if t0 < t1 then 1 else 0), t1.Floor - cal.dayStart(t0)
  {
    if t0 < t1 {
      var end := DayEnd(cal, t0);
      assert NormalAt(cal, t0);
      if end < t1 {
        assert NormalAt(cal, end);
        SplitPartitions(cal, end, t1);
      } else {
        SplitEnds(cal, end, t1);
        assert Split(cal, t0, t1)[1..] == [];
      }
    }
  }

  function Duration(segs: seq<Segment>): real {
    if segs == [] then 0.0 else segs[0].to - segs[0].from + Duration(segs[1..])
  }

  /** The time in segments keyed on or after the cutoff. */
  function KeptTime(segs: seq<Segment>, cutoff: Day): real {
    if segs == [] then 0.0
    else (if segs[0].day >= cutoff then segs[0].to - segs[0].from else 0.0) + KeptTime(segs[1..], cutoff)
  }

  /** The time in segments keyed to one day. */
  function DayTime(segs: seq<Segment>, day: Day): real {
    if segs == [] then 0.0
    else (if segs[0].day == day then segs[0].to - segs[0].from else 0.0) + DayTime(segs[1..], day)
  }

  lemma {:induction false} PartitionDuration(segs: seq<Segment>, t0: real, t1: real)
    requires Partitions(segs, t0, t1) && t0 <= t1
    ensures Duration(segs) == t1 - t0
    decreases |segs|
  {
    if segs != [] {
      PartitionDuration(segs[1..], segs[0].to, t1);
    }
  }

  /** With nothing cut off, a job's kept time is its whole run time. */
  lemma WholeJobIsKept(cal: Calendar, t0: real, t1: real, cutoff: Day)
    requires NormalOn(cal, t0, t1) && t0 <= t1 && forall t :: t0 <= t < t1 ==> cal.dayKey(t) >= cutoff
    ensures KeptTime(Split(cal, t0, t1), cutoff) == t1 - t0
  {
    SplitPartitions(cal, t0, t1);
    PartitionDuration(Split(cal, t0, t1), t0, t1);
    AllKept(cal, Split(cal, t0, t1), t0, t1, cutoff);
  }

  lemma {:induction false} AllKept(cal: Calendar, segs: seq<Segment>, t0: real, t1: real, cutoff: Day)
    requires Partitions(segs, t0, t1) && (forall t :: t0 <= t < t1 ==> cal.dayKey(t) >= cutoff)
    requires forall i :: 0 <= i < |segs| ==> segs[i].day == cal.dayKey(segs[i].from)
    ensures KeptTime(segs, cutoff) == Duration(segs)
    decreases |segs|
  {
    if segs != [] {
      AllKept(cal, segs[1..], segs[0].to, t1, cutoff);
    }
  }

  lemma {:induction false} TimesAppend(segs: seq<Segment>, s: Segment, cutoff: Day)
    ensures KeptTime(segs + [s], cutoff) == KeptTime(segs, cutoff) + if s.day >= cutoff then s.to - s.from else 0.0
    ensures forall d :: DayTime(segs + [s], d) == DayTime(segs, d) + if s.day == d then s.to - s.from else 0.0
  {
    if segs == [] {
      assert segs + [s] == [s] && [s][1..] == [];
    } else {
      assert (segs + [s])[1..] == segs[1..] + [s];
      TimesAppend(segs[1..], s, cutoff);
    }
  }

  // ---------------------------------------------------------------------------
  // Exactly when the loop ends
  // ---------------------------------------------------------------------------

  /** The loop variable after `n` turns. */
  function Turn(cal: Calendar, t0: real, t1: real, n: nat): real {
    if n == 0 then t0
    else
      var cur := Turn(cal, t0, t1, n - 1);
      if cur < t1 then DayEnd(cal, cur) else cur
  }

  ghost predicate Terminates(cal: Calendar, t0: real, t1: real) {
    exists n: nat :: Turn(cal, t0, t1, n) >= t1
  }

  /** Days are intervals: an instant lies in its day, and so does everything
      between the day's start and the instant. */
  ghost predicate DaysAreIntervals(cal: Calendar) {
    && (forall t :: cal.dayStart(t) as real <= t)
    && (forall t, u :: cal.dayStart(t) as real <= u <= t ==> cal.dayStart(u) == cal.dayStart(t))
  }

  /** Once inside a day longer than 86400 seconds, or before it, the loop never
      gets past an instant that lies beyond the day's 86400th second. */
  lemma {:induction false} LongDayTraps(cal: Calendar, t0: real, t1: real, bad: real, n: nat)
    requires DaysAreIntervals(cal) && t0 <= bad < t1 && bad >= DayEnd(cal, bad)
    ensures Turn(cal, t0, t1, n) <= bad
    decreases n
  {
    if n > 0 {
      LongDayTraps(cal, t0, t1, bad, n - 1);
      var cur, s := Turn(cal, t0, t1, n - 1), cal.dayStart(bad);
      if cur < s as real {
        assert cal.dayStart(cur) as real <= cur;
      } else {
        assert cal.dayStart(cur) == s;
      }
    }
  }

  lemma {:induction false} TurnShift(cal: Calendar, t0: real, t1: real, n: nat)
    requires t0 < t1
    ensures Turn(cal, DayEnd(cal, t0), t1, n) == Turn(cal, t0, t1, n + 1)
  {
    if n > 0 {
      TurnShift(cal, t0, t1, n - 1);
    } else {
      assert Turn(cal, t0, t1, 0) == t0;
    }
  }

  lemma {:induction false} NormalDaysEnd(cal: Calendar, t0: real, t1: real)
    requires NormalOn(cal, t0, t1)
    ensures Terminates(cal, t0, t1)
    decreases (if t0 < t1 then 1 else 0), t1.Floor - cal.dayStart(t0)
  {
    if t0 >= t1 {
      assert Turn(cal, t0, t1, 0) >= t1;
    } else {
      var end := DayEnd(cal, t0);
      assert NormalAt(cal, t0);
      if end >= t1 {
        assert Turn(cal, t0, t1, 0) == t0;
        assert Turn(cal, t0, t1, 1) >= t1;
      } else {
        assert NormalAt(cal, end);
        NormalDaysEnd(cal, end, t1);
        var n: nat :| Turn(cal, end, t1, n) >= t1;
        TurnShift(cal, t0, t1, n);
      }
    }
  }

  /** The loop over `[t0, t1)` ends if and only if no instant in it lies beyond
      the 86400th second of its local day. */
  lemma TerminationCondition(cal: Calendar, t0: real, t1: real)
    requires DaysAreIntervals(cal)
    ensures Terminates(cal, t0, t1) <==> NormalOn(cal, t0, t1)
  {
    if NormalOn(cal, t0, t1) {
      NormalDaysEnd(cal, t0, t1);
    } else {
      var bad :| t0 <= bad < t1 && !NormalAt(cal, bad);
      forall n: nat ensures Turn(cal, t0, t1, n) < t1 {
        LongDayTraps(cal, t0, t1, bad, n);
      }
    }
  }

  /** A calendar whose day 0 has 25 hours: a job that runs into the extra hour
      keeps the loop busy for ever. */
  lemma ExtraHourNeverEnds(cal: Calendar, t1: real)
    requires forall t :: cal.dayStart(t) == if 0.0 <= t < 90000.0 then 0 else t.Floor
    requires 86400.0 < t1
    ensures !Terminates(cal, 0.0, t1)
  {
    forall n: nat ensures Turn(cal, 0.0, t1, n) <= 86400.0 {
      StaysAtExtraHour(cal, t1, n);
    }
  }

  lemma {:induction false} StaysAtExtraHour(cal: Calendar, t1: real, n: nat)
    requires forall t :: cal.dayStart(t) == if 0.0 <= t < 90000.0 then 0 else t.Floor
    requires 86400.0 < t1
    ensures 0.0 <= Turn(cal, 0.0, t1, n) <= 86400.0
  {
    if n > 0 {
      StaysAtExtraHour(cal, t1, n - 1);
    }
  }

  // ---------------------------------------------------------------------------
  // Exactly when each segment lies in the day it is keyed to
  // ---------------------------------------------------------------------------

  /** Every instant of the segment lies in the local day the segment begins in. */
  ghost predicate InOneDay(cal: Calendar, s: Segment) {
    forall u :: s.from <= u < s.to ==> cal.dayStart(u) == cal.dayStart(s.from)
  }

  ghost predicate InOwnDays(cal: Calendar, segs: seq<Segment>) {
    forall s :: s in segs ==> InOneDay(cal, s)
  }

  /** From no instant of the interval on does its local day end, within the
      interval, before the day's 86400th second. */
  ghost predicate NoShortDay(cal: Calendar, t0: real, t1: real) {
    forall v, u :: t0 <= v <= u < t1 && u < DayEnd(cal, v) ==> cal.dayStart(u) == cal.dayStart(v)
  }

  lemma ConsOwnDays(cal: Calendar, s: Segment, rest: seq<Segment>)
    ensures InOwnDays(cal, [s] + rest) <==> InOneDay(cal, s) && InOwnDays(cal, rest)
  {
    hide InOneDay;
    var all := [s] + rest;
    assert s in all && forall x :: x in all <==> x == s || x in rest;
  }

  /** A day that is seen to go on from the segment's start goes on from any of its instants. */
  lemma ShortDayStep(cal: Calendar, cur: real, t1: real)
    requires DaysAreIntervals(cal) && cur < t1 && NormalAt(cal, cur)
    ensures var end := DayEnd(cal, cur);
      NoShortDay(cal, cur, t1) <==>
        InOneDay(cal, Segment(cal.dayKey(cur), cur, if t1 < end then t1 else end)) && NoShortDay(cal, end, t1)
  {
    var end := DayEnd(cal, cur);
    var s := Segment(cal.dayKey(cur), cur, if t1 < end then t1 else end);
    if InOneDay(cal, s) && NoShortDay(cal, end, t1) {
      forall v, u | cur <= v <= u < t1 && u < DayEnd(cal, v) ensures cal.dayStart(u) == cal.dayStart(v) {
        if v < end {
          assert cal.dayStart(v) == cal.dayStart(cur);
        }
      }
    }
  }

  /** The segments keep to their own days if and only if no local day that the
      job runs through is over before its 86400th second. */
  lemma {:induction false} OwnDaysIff(cal: Calendar, t0: real, t1: real)
    requires DaysAreIntervals(cal) && NormalOn(cal, t0, t1)
    ensures InOwnDays(cal, Split(cal, t0, t1)) <==> NoShortDay(cal, t0, t1)
    decreases (if t0 < t1 then 1 else 0), t1.Floor - cal.dayStart(t0)
  {
    hide InOwnDays, InOneDay, NoShortDay;
    if t0 >= t1 {
      NothingToSplit(cal, t0, t1);
    } else {
      var end := DayEnd(cal, t0);
      assert NormalAt(cal, t0) && (end < t1 ==> NormalAt(cal, end));
      OwnDaysIff(cal, end, t1);
      ShortDayStep(cal, t0, t1);
      ConsOwnDays(cal, Segment(cal.dayKey(t0), t0, if t1 < end then t1 else end), Split(cal, end, t1));
    }
  }

  lemma NothingToSplit(cal: Calendar, t0: real, t1: real)
    requires t0 >= t1
    ensures Split(cal, t0, t1) == [] && InOwnDays(cal, []) && NoShortDay(cal, t0, t1)
  {
  }

  /** Day keys name local days. */
  ghost predicate KeysNameDays(cal: Calendar) {
    forall t, u :: cal.dayKey(t) == cal.dayKey(u) <==> cal.dayStart(t) == cal.dayStart(u)
  }

  function NextSecond(cur: real, t1: real): (next: real)
    requires cur < t1
    ensures cur < next <= t1
  {
    var n := (cur.Floor + 1) as real;
    if n < t1 then n else t1
  }

  /** The overlap of `[cur, t1)` with the local day `day`, counted second by
      second: local days begin at whole seconds. */
  function LocalTime(cal: Calendar, cur: real, t1: real, day: Day): real
    decreases (if cur < t1 then 1 else 0), t1.Floor - cur.Floor
  {
    if cur >= t1 then 0.0
    else
      var next := NextSecond(cur, t1);
      (if cal.dayKey(cur) == day then next - cur else 0.0) + LocalTime(cal, next, t1, day)
  }

  /** An interval may be cut at a whole second. */
  lemma {:induction false} LocalTimeCut(cal: Calendar, cur: real, cut: int, t1: real, day: Day)
    requires cur <= cut as real <= t1
    ensures LocalTime(cal, cur, t1, day) == LocalTime(cal, cur, cut as real, day) + LocalTime(cal, cut as real, t1, day)
    decreases cut - cur.Floor
  {
    if cur < cut as real {
      assert NextSecond(cur, cut as real) == NextSecond(cur, t1) == (cur.Floor + 1) as real;
      LocalTimeCut(cal, (cur.Floor + 1) as real, cut, t1, day);
    }
  }

  /** An interval inside one local day counts for that day alone. */
  lemma {:induction false} LocalTimeOfOneDay(cal: Calendar, cur: real, t1: real, key: Day, day: Day)
    requires cur <= t1 && forall u :: cur <= u < t1 ==> cal.dayKey(u) == key
    ensures LocalTime(cal, cur, t1, day) == if day == key then t1 - cur else 0.0
    decreases (if cur < t1 then 1 else 0), t1.Floor - cur.Floor
  {
    if cur < t1 {
      LocalTimeOfOneDay(cal, NextSecond(cur, t1), t1, key, day);
    }
  }

  /** An interval without the day does not count for it. */
  lemma {:induction false} LocalTimeElsewhere(cal: Calendar, cur: real, t1: real, day: Day)
    requires forall u :: cur <= u < t1 ==> cal.dayKey(u) != day
    ensures LocalTime(cal, cur, t1, day) == 0.0
    decreases (if cur < t1 then 1 else 0), t1.Floor - cur.Floor
  {
    if cur < t1 {
      LocalTimeElsewhere(cal, NextSecond(cur, t1), t1, day);
    }
  }

  lemma {:induction false} LocalTimeAtMost(cal: Calendar, cur: real, t1: real, day: Day)
    requires cur <= t1
    ensures 0.0 <= LocalTime(cal, cur, t1, day) <= t1 - cur
    decreases (if cur < t1 then 1 else 0), t1.Floor - cur.Floor
  {
    if cur < t1 {
      LocalTimeAtMost(cal, NextSecond(cur, t1), t1, day);
    }
  }

  lemma {:induction false} DayTimeIsNonNegative(segs: seq<Segment>, t0: real, t1: real, d: Day)
    requires Partitions(segs, t0, t1)
    ensures DayTime(segs, d) >= 0.0
    decreases |segs|
  {
    if segs != [] {
      DayTimeIsNonNegative(segs[1..], segs[0].to, t1, d);
    }
  }

  /** The day's time in the segments is the job's overlap with that local day. */
  ghost predicate ExactFor(cal: Calendar, t0: real, t1: real, d: Day)
    requires NormalOn(cal, t0, t1)
  {
    DayTime(Split(cal, t0, t1), d) == LocalTime(cal, t0, t1, d)
  }

  ghost predicate Exact(cal: Calendar, t0: real, t1: real)
    requires NormalOn(cal, t0, t1)
  {
    forall d :: ExactFor(cal, t0, t1, d)
  }

  /** The first segment, cut off from the rest of the interval. */
  lemma FirstSegment(cal: Calendar, cur: real, t1: real, to: real, d: Day)
    requires NormalOn(cal, cur, t1) && cur < t1
    requires to == if t1 < DayEnd(cal, cur) then t1 else DayEnd(cal, cur)
    ensures NormalOn(cal, DayEnd(cal, cur), t1) && cur < to <= t1
    ensures DayTime(Split(cal, cur, t1), d) ==
      (if cal.dayKey(cur) == d then to - cur else 0.0) + DayTime(Split(cal, DayEnd(cal, cur), t1), d)
    ensures LocalTime(cal, cur, t1, d) == LocalTime(cal, cur, to, d) + LocalTime(cal, DayEnd(cal, cur), t1, d)
  {
    hide LocalTime;
    assert NormalAt(cal, cur);
    SplitStep(cal, cur, t1);
    var end := DayEnd(cal, cur);
    var s := Segment(cal.dayKey(cur), cur, to);
    assert ([s] + Split(cal, end, t1))[1..] == Split(cal, end, t1);
    if end <= t1 {
      LocalTimeCut(cal, cur, cal.dayStart(cur) + DAY_SECONDS, t1, d);
    } else {
      NoTimeLeft(cal, end, t1, d);
    }
  }

  lemma NoTimeLeft(cal: Calendar, cur: real, t1: real, d: Day)
    requires cur >= t1
    ensures LocalTime(cal, cur, t1, d) == 0.0
  {
  }

  /** A first segment that leaves its day counts for it more than it should, and
      the rest of the interval no longer belongs to that day. */
  lemma LeavingOverstates(cal: Calendar, cur: real, t1: real)
    requires DaysAreIntervals(cal) && KeysNameDays(cal) && NormalOn(cal, cur, t1) && cur < t1
    requires !InOneDay(cal, Segment(cal.dayKey(cur), cur, if t1 < DayEnd(cal, cur) then t1 else DayEnd(cal, cur)))
    ensures DayTime(Split(cal, cur, t1), cal.dayKey(cur)) > LocalTime(cal, cur, t1, cal.dayKey(cur))
  {
    hide LocalTime, Split, DayTime;
    var end, d := DayEnd(cal, cur), cal.dayKey(cur);
    var to := if t1 < end then t1 else end;
    FirstSegment(cal, cur, t1, to, d);
    var u :| cur <= u < to && cal.dayStart(u) != cal.dayStart(cur);
    var gone := cal.dayStart(u);
    assert cur < gone as real <= u;
    forall v | v >= gone as real ensures cal.dayKey(v) != d {
      assert cal.dayStart(gone as real) == gone && cal.dayStart(cur) as real <= cur;
      assert cal.dayStart(v) as real <= gone as real <= v ==> cal.dayStart(gone as real) == cal.dayStart(v);
    }
    LocalTimeCut(cal, cur, gone, to, d);
    LocalTimeElsewhere(cal, gone as real, to, d);
    LocalTimeAtMost(cal, cur, gone as real, d);
    LocalTimeElsewhere(cal, end, t1, d);
    if end < t1 {
      SplitPartitions(cal, end, t1);
      DayTimeIsNonNegative(Split(cal, end, t1), end, t1, d);
    } else {
      SplitEnds(cal, end, t1);
      NoSegments(d);
    }
  }

  lemma NoSegments(d: Day)
    ensures DayTime([], d) == 0.0
  {
  }

  lemma ExactStep(cal: Calendar, cur: real, t1: real)
    requires KeysNameDays(cal) && NormalOn(cal, cur, t1) && cur < t1
    requires InOneDay(cal, Segment(cal.dayKey(cur), cur, if t1 < DayEnd(cal, cur) then t1 else DayEnd(cal, cur)))
    ensures NormalOn(cal, DayEnd(cal, cur), t1) && (Exact(cal, cur, t1) <==> Exact(cal, DayEnd(cal, cur), t1))
  {
    hide LocalTime, Split, DayTime;
    var end := DayEnd(cal, cur);
    var to := if t1 < end then t1 else end;
    FirstSegment(cal, cur, t1, to, 0);
    forall d ensures ExactFor(cal, cur, t1, d) <==> ExactFor(cal, end, t1, d)
    {
      FirstSegment(cal, cur, t1, to, d);
      LocalTimeOfOneDay(cal, cur, to, cal.dayKey(cur), d);
    }
  }

  /** Every day's time in the segments is the job's overlap with that local day
      if and only if no local day it runs through is over too early. */
  lemma {:induction false} ExactIff(cal: Calendar, t0: real, t1: real)
    requires DaysAreIntervals(cal) && KeysNameDays(cal) && NormalOn(cal, t0, t1)
    ensures Exact(cal, t0, t1) <==> NoShortDay(cal, t0, t1)
    decreases (if t0 < t1 then 1 else 0), t1.Floor - cal.dayStart(t0)
  {
    hide Exact, InOneDay, NoShortDay;
    if t0 >= t1 {
      NothingToSplit(cal, t0, t1);
      NothingIsExact(cal, t0, t1);
    } else {
      var end := DayEnd(cal, t0);
      assert NormalAt(cal, t0) && (end < t1 ==> NormalAt(cal, end));
      ShortDayStep(cal, t0, t1);
      if InOneDay(cal, Segment(cal.dayKey(t0), t0, if t1 < end then t1 else end)) {
        ExactIff(cal, end, t1);
        ExactStep(cal, t0, t1);
      } else {
        LeavingOverstates(cal, t0, t1);
        NotExact(cal, t0, t1, cal.dayKey(t0));
      }
    }
  }

  lemma NothingIsExact(cal: Calendar, t0: real, t1: real)
    requires t0 >= t1
    ensures Exact(cal, t0, t1)
  {
  }

  lemma NotExact(cal: Calendar, t0: real, t1: real, d: Day)
    requires NormalOn(cal, t0, t1) && DayTime(Split(cal, t0, t1), d) != LocalTime(cal, t0, t1, d)
    ensures !Exact(cal, t0, t1)
  {
    assert !ExactFor(cal, t0, t1, d);
  }

  /** Local days of 24 hours, but for day 0, which has 23. */
  function SpringStart(t: real): int {
    if t < 82800.0 then t.Floor / DAY_SECONDS * DAY_SECONDS
    else 82800 + (t.Floor - 82800) / DAY_SECONDS * DAY_SECONDS
  }

  function SpringKey(t: real): Day {
    if t < 82800.0 then t.Floor / DAY_SECONDS else 1 + (t.Floor - 82800) / DAY_SECONDS
  }

  const SPRING := Calendar(SpringStart, SpringKey)

  lemma SpringDays(t: real)
    requires 0.0 <= t < 90000.0
    ensures SPRING.dayStart(t) == (if t < 82800.0 then 0 else 82800) && SPRING.dayKey(t) == (if t < 82800.0 then 0 else 1)
    ensures NormalAt(SPRING, t)
  {
    assert 0 <= t.Floor < 90000;
  }

  lemma SpringSplit()
    ensures NormalOn(SPRING, 0.0, 90000.0)
    ensures Split(SPRING, 0.0, 90000.0) == [Segment(0, 0.0, 86400.0), Segment(1, 86400.0, 90000.0)]
  {
    hide SpringStart, SpringKey;
    forall t | 0.0 <= t < 90000.0 ensures NormalAt(SPRING, t) {
      SpringDays(t);
    }
    SpringDays(0.0);
    SpringDays(86400.0);
    SplitStep(SPRING, 0.0, 90000.0);
    SplitStep(SPRING, 86400.0, 90000.0);
    SplitEnds(SPRING, DayEnd(SPRING, 86400.0), 90000.0);
  }

  lemma SpringLocalTime()
    ensures LocalTime(SPRING, 0.0, 90000.0, 0) == 82800.0
  {
    hide LocalTime, SpringStart, SpringKey;
    forall t | 0.0 <= t < 90000.0 ensures SPRING.dayKey(t) == if t < 82800.0 then 0 else 1 {
      SpringDays(t);
    }
    LocalTimeCut(SPRING, 0.0, 82800, 90000.0, 0);
    LocalTimeOfOneDay(SPRING, 0.0, 82800.0, 0, 0);
    LocalTimeElsewhere(SPRING, 82800.0, 90000.0, 0);
  }

  lemma TwoSegments(a: Segment, b: Segment, d: Day)
    requires a.day == d && b.day != d
    ensures DayTime([a, b], d) == a.to - a.from
  {
    assert [a, b][1..] == [b] && [b][1..] == [];
    assert DayTime([b], d) == DayTime([], d) == 0.0;
  }

  /** A job that runs through the 23-hour day and two hours more: the first of
      them is counted for the short day. */
  lemma ShortDaySpills()
    ensures NormalOn(SPRING, 0.0, 90000.0)
    ensures DayTime(Split(SPRING, 0.0, 90000.0), 0) == 86400.0
    ensures LocalTime(SPRING, 0.0, 90000.0, 0) == 82800.0
  {
    hide LocalTime, Split, DayTime, SpringStart, SpringKey;
    SpringSplit();
    TwoSegments(Segment(0, 0.0, 86400.0), Segment(1, 86400.0, 90000.0), 0);
    SpringLocalTime();
  }

  // ---------------------------------------------------------------------------
  // All jobs
  // ---------------------------------------------------------------------------

  type User = string
  type Days = map<Day, map<User, real>>

  /** One row of the database dump. */
  datatype Row = Row(complete: bool, user: User, gpus: nat, start: Option<real>, end: Option<real>) {
    /** A job without an end is still running. */
    function End(now: real): real {
      var e := if end.Some? && end.value != 0.0 then end.value else now;
      if e < now then e else now
    }

    predicate Counted(now: real) {
      complete && user != "" && gpus > 0 && start.Some? && start.value < End(now)
    }
  }

  /** A row of a GPU job that ran from `t0` until `t1`: until its end, or until
      now when it has none yet or one still to come. */
  ghost predicate RanFromTo(r: Row, now: real, t0: real, t1: real) {
    && r.complete && |r.user| > 0 && r.gpus >= 1
    && r.start == Some(t0) && t0 < t1 <= now
    && (r.end == None || r.end == Some(0.0) ==> t1 == now)
    && (forall e :: r.end == Some(e) && e != 0.0 ==> t1 == if e <= now then e else now)
  }

  /** A row is counted exactly when it is such a row, for the time it ran. */
  lemma CountedIff(r: Row, now: real, t0: real, t1: real)
    ensures r.Counted(now) && r.start.value == t0 && r.End(now) == t1 <==> RanFromTo(r, now, t0, t1)
  {
    if r.end.Some? {
      assert r.end == Some(r.end.value);
    }
  }

  /** The days a counted row runs through are normal while it runs. */
  ghost predicate RowNormal(cal: Calendar, r: Row, now: real) {
    r.Counted(now) ==> NormalOn(cal, r.start.value, r.End(now))
  }

  ghost predicate RowsNormal(cal: Calendar, rows: seq<Row>, now: real) {
    forall r :: r in rows ==> RowNormal(cal, r, now)
  }

  function Segments(cal: Calendar, r: Row, now: real): seq<Segment>
    requires RowNormal(cal, r, now)
  {
    if r.Counted(now) then Split(cal, r.start.value, r.End(now)) else []
  }

  /** GPU-seconds. */
  function GpuTime(gpus: nat, seconds: real): real {
    gpus as real * seconds
  }

  /** What the rows say about one user-day. */
  function Expected(cal: Calendar, rows: seq<Row>, now: real, cutoff: Day, d: Day, u: User): real
    requires RowsNormal(cal, rows, now)
  {
    if rows == [] then 0.0
    else
      var r := rows[|rows| - 1];
      Expected(cal, rows[..|rows| - 1], now, cutoff, d, u)
      + if r.user == u && d >= cutoff then GpuTime(r.gpus, DayTime(Segments(cal, r, now), d)) else 0.0
  }

  /** GPUs times kept time, over all jobs. */
  function KeptGpuTime(cal: Calendar, rows: seq<Row>, now: real, cutoff: Day): real
    requires RowsNormal(cal, rows, now)
  {
    if rows == [] then 0.0
    else
      var r := rows[|rows| - 1];
      KeptGpuTime(cal, rows[..|rows| - 1], now, cutoff) + GpuTime(r.gpus, KeptTime(Segments(cal, r, now), cutoff))
  }

  function Bucket(days: Days, d: Day): map<User, real> {
    if d in days then days[d] else map[]
  }

  function AmountIn(bucket: map<User, real>, u: User): real {
    if u in bucket then bucket[u] else 0.0
  }

  function Amount(days: Days, d: Day, u: User): real {
    AmountIn(Bucket(days, d), u)
  }

  /** `bucket = days.setdefault(d, {}); bucket[u] = bucket.get(u, 0.0) + x` */
  function Post(days: Days, d: Day, u: User, x: real): Days {
    days[d := Bucket(days, d)[u := Amount(days, d, u) + x]]
  }

  ghost function BucketTotal(bucket: map<User, real>): real {
    Sum(bucket.Keys, u => AmountIn(bucket, u))
  }

  ghost function GrandTotal(days: Days): real {
    Sum(days.Keys, d => BucketTotal(Bucket(days, d)))
  }

  lemma PostInBucket(bucket: map<User, real>, u: User, x: real)
    ensures BucketTotal(bucket[u := AmountIn(bucket, u) + x]) == BucketTotal(bucket) + x
  {
    var more := bucket[u := AmountIn(bucket, u) + x];
    assert more.Keys == bucket.Keys + {u};
    SumGrow(bucket.Keys, more.Keys, v => AmountIn(bucket, v));
    SumBump(more.Keys, v => AmountIn(bucket, v), v => AmountIn(more, v), u, x);
  }

  /** Posting an amount adds it to the grand total. */
  lemma PostAdds(days: Days, d: Day, u: User, x: real)
    ensures GrandTotal(Post(days, d, u, x)) == GrandTotal(days) + x
  {
    var more := Post(days, d, u, x);
    assert more.Keys == days.Keys + {d};
    SumZero({}, (v: User) => AmountIn(map[], v));
    SumGrow(days.Keys, more.Keys, e => BucketTotal(Bucket(days, e)));
    PostInBucket(Bucket(days, d), u, x);
    SumBump(more.Keys, e => BucketTotal(Bucket(days, e)), e => BucketTotal(Bucket(more, e)), d, x);
  }

  /** What posting the segments of one row does to the buckets. */
  ghost predicate JobPosted(r: Row, cutoff: Day, before: Days, after: Days, segs: seq<Segment>) {
    && (forall d, u :: Amount(after, d, u) ==
          Amount(before, d, u) + if u == r.user && d >= cutoff then GpuTime(r.gpus, DayTime(segs, d)) else 0.0)
    && GrandTotal(after) == GrandTotal(before) + GpuTime(r.gpus, KeptTime(segs, cutoff))
  }

  lemma GpuTimeIs(g: nat, x: real)
    ensures GpuTime(g, x) == g as real * x
  {
  }

  lemma GpuTimeAdds(g: nat, a: real, b: real)
    ensures GpuTime(g, a + b) == GpuTime(g, a) + GpuTime(g, b)
    ensures GpuTime(g, 0.0) == 0.0
  {
  }

  lemma PostAmount(days: Days, d: Day, u: User, x: real, e: Day, v: User)
    ensures Amount(Post(days, d, u, x), e, v) == Amount(days, e, v) + if e == d && v == u then x else 0.0
  {
  }

  lemma SkippedRow(r: Row, cutoff: Day, days: Days)
    ensures JobPosted(r, cutoff, days, days, [])
  {
    hide GrandTotal, Amount;
    assert forall d :: DayTime([], d) == 0.0;
    assert KeptTime([], cutoff) == 0.0;
    GpuTimeAdds(r.gpus, 0.0, 0.0);
  }

  /** Posting one segment, when its day is kept. */
  function PostKept(days: Days, r: Row, s: Segment, cutoff: Day): Days {
    if s.day >= cutoff then Post(days, s.day, r.user, GpuTime(r.gpus, s.to - s.from)) else days
  }

  lemma PostSegmentAmount(r: Row, cutoff: Day, before: Days, days: Days, segs: seq<Segment>, s: Segment, d: Day, u: User)
    requires Amount(days, d, u) ==
      Amount(before, d, u) + if u == r.user && d >= cutoff then GpuTime(r.gpus, DayTime(segs, d)) else 0.0
    ensures Amount(PostKept(days, r, s, cutoff), d, u) ==
      Amount(before, d, u) + if u == r.user && d >= cutoff then GpuTime(r.gpus, DayTime(segs + [s], d)) else 0.0
  {
    hide KeptTime, DayTime, Amount, Post, GpuTime;
    TimesAppend(segs, s, cutoff);
    PostAmount(days, s.day, r.user, GpuTime(r.gpus, s.to - s.from), d, u);
    GpuTimeAdds(r.gpus, DayTime(segs, d), s.to - s.from);
  }

  lemma PostSegmentTotal(r: Row, cutoff: Day, before: Days, days: Days, segs: seq<Segment>, s: Segment)
    requires GrandTotal(days) == GrandTotal(before) + GpuTime(r.gpus, KeptTime(segs, cutoff))
    ensures GrandTotal(PostKept(days, r, s, cutoff)) ==
            GrandTotal(before) + GpuTime(r.gpus, KeptTime(segs + [s], cutoff))
  {
    hide GrandTotal, KeptTime, DayTime, Amount, Post, GpuTime;
    TimesAppend(segs, s, cutoff);
    GpuTimeAdds(r.gpus, KeptTime(segs, cutoff), s.to - s.from);
    PostAdds(days, s.day, r.user, GpuTime(r.gpus, s.to - s.from));
  }

  lemma PostSegment(r: Row, cutoff: Day, before: Days, days: Days, segs: seq<Segment>, s: Segment)
    requires JobPosted(r, cutoff, before, days, segs)
    ensures JobPosted(r, cutoff, before, PostKept(days, r, s, cutoff), segs + [s])
  {
    hide GrandTotal, KeptTime, DayTime, Amount, Post, PostKept, GpuTime;
    PostSegmentTotal(r, cutoff, before, days, segs, s);
    forall d, u ensures Amount(PostKept(days, r, s, cutoff), d, u) ==
      Amount(before, d, u) + if u == r.user && d >= cutoff then GpuTime(r.gpus, DayTime(segs + [s], d)) else 0.0
    {
      PostSegmentAmount(r, cutoff, before, days, segs, s, d, u);
    }
  }

  lemma SplitStep(cal: Calendar, cur: real, t1: real)
    requires NormalOn(cal, cur, t1) && cur < t1
    ensures var end := DayEnd(cal, cur);
      NormalOn(cal, end, t1) && Split(cal, cur, t1) == [Segment(cal.dayKey(cur), cur, if t1 < end then t1 else end)] + Split(cal, end, t1)
  {
    assert NormalAt(cal, cur);
  }

  /** How far the loop is: what is posted so far, and that the rest is still to come. */
  ghost predicate Posting(cal: Calendar, r: Row, t0: real, t1: real, cutoff: Day, before: Days,
                          days: Days, posted: seq<Segment>, cur: real)
    requires NormalOn(cal, t0, t1)
  {
    NormalOn(cal, cur, t1) && posted + Split(cal, cur, t1) == Split(cal, t0, t1) && JobPosted(r, cutoff, before, days, posted)
  }

  lemma PostingStarts(cal: Calendar, r: Row, t0: real, t1: real, cutoff: Day, before: Days)
    requires NormalOn(cal, t0, t1)
    ensures Posting(cal, r, t0, t1, cutoff, before, before, [], t0)
  {
    hide JobPosted, Split;
    SkippedRow(r, cutoff, before);
    assert [] + Split(cal, t0, t1) == Split(cal, t0, t1);
  }

  lemma PostingStep(cal: Calendar, r: Row, t0: real, t1: real, cutoff: Day, before: Days,
                    days: Days, posted: seq<Segment>, cur: real, s: Segment)
    requires NormalOn(cal, t0, t1) && cur < t1 && Posting(cal, r, t0, t1, cutoff, before, days, posted, cur)
    requires s == Segment(cal.dayKey(cur), cur, if t1 < DayEnd(cal, cur) then t1 else DayEnd(cal, cur))
    ensures Posting(cal, r, t0, t1, cutoff, before, PostKept(days, r, s, cutoff), posted + [s], DayEnd(cal, cur))
    ensures |Split(cal, DayEnd(cal, cur), t1)| < |Split(cal, cur, t1)|
  {
    hide JobPosted, Split, NormalAt, NormalOn, PostKept, DayEnd;
    SplitStep(cal, cur, t1);
    PostSegment(r, cutoff, before, days, posted, s);
    var rest := Split(cal, DayEnd(cal, cur), t1);
    assert posted + ([s] + rest) == (posted + [s]) + rest;
  }

  lemma PostingEnds(cal: Calendar, r: Row, t0: real, t1: real, cutoff: Day, before: Days,
                    days: Days, posted: seq<Segment>, cur: real)
    requires NormalOn(cal, t0, t1) && cur >= t1 && Posting(cal, r, t0, t1, cutoff, before, days, posted, cur)
    ensures JobPosted(r, cutoff, before, days, Split(cal, t0, t1))
  {
    hide JobPosted, Split;
    SplitEnds(cal, cur, t1);
    assert posted + [] == posted;
  }

  /** The splitting loop for one job. */
  method SplitJob(cal: Calendar, r: Row, t0: real, t1: real, cutoff: Day, days: Days) returns (days': Days)
    requires NormalOn(cal, t0, t1)
    ensures JobPosted(r, cutoff, days, days', Split(cal, t0, t1))
  {
    hide JobPosted, Post, Split, NormalOn, NormalAt, GpuTime;
    days' := days;
    var cur := t0;
    ghost var posted: seq<Segment> := [];
    PostingStarts(cal, r, t0, t1, cutoff, days);
    while cur < t1
      invariant Posting(cal, r, t0, t1, cutoff, days, days', posted, cur)
      decreases |Split(cal, cur, t1)|
    {
      var dayEnd := (cal.dayStart(cur) + DAY_SECONDS) as real;
      var key := cal.dayKey(cur);
      var until := if t1 < dayEnd then t1 else dayEnd;
      ghost var s := Segment(key, cur, until);
      PostingStep(cal, r, t0, t1, cutoff, days, days', posted, cur, s);
      if key >= cutoff {
        days' := Post(days', key, r.user, GpuTime(r.gpus, until - cur));
      }
      posted := posted + [s];
      cur := dayEnd;
    }
    PostingEnds(cal, r, t0, t1, cutoff, days, days', posted, cur);
  }

  /** The buckets hold exactly what the rows say, and in all the GPUs times the
      time in segments keyed on or after the cutoff. */
  ghost predicate Backfilled(cal: Calendar, rows: seq<Row>, now: real, cutoff: Day, days: Days)
    requires RowsNormal(cal, rows, now)
  {
    && (forall d, u :: Amount(days, d, u) == Expected(cal, rows, now, cutoff, d, u))
    && GrandTotal(days) == KeptGpuTime(cal, rows, now, cutoff)
  }

  /** What the accounts are for: GPUs times each row's overlap with the local day. */
  function LocalGpuTime(cal: Calendar, rows: seq<Row>, now: real, d: Day, u: User): real {
    if rows == [] then 0.0
    else
      var r := rows[|rows| - 1];
      LocalGpuTime(cal, rows[..|rows| - 1], now, d, u)
      + if r.user == u && r.Counted(now) then r.gpus as real * LocalTime(cal, r.start.value, r.End(now), d) else 0.0
  }

  /** No counted row runs through a local day that is over too early. */
  ghost predicate NoShortDayIn(cal: Calendar, rows: seq<Row>, now: real) {
    forall r :: r in rows && r.Counted(now) ==> NoShortDay(cal, r.start.value, r.End(now))
  }

  lemma RowIsLocal(cal: Calendar, r: Row, now: real, d: Day)
    requires DaysAreIntervals(cal) && KeysNameDays(cal) && RowNormal(cal, r, now)
    requires r.Counted(now) ==> NoShortDay(cal, r.start.value, r.End(now))
    ensures DayTime(Segments(cal, r, now), d) ==
      if r.Counted(now) then LocalTime(cal, r.start.value, r.End(now), d) else 0.0
  {
    hide NoShortDay, NormalOn, LocalTime;
    if r.Counted(now) {
      ExactIff(cal, r.start.value, r.End(now));
      assert ExactFor(cal, r.start.value, r.End(now), d);
    }
  }

  /** Then every user-day on or after the cutoff holds GPUs times the overlap of
      the user's jobs with that local day. */
  lemma {:induction false} BucketsAreLocal(cal: Calendar, rows: seq<Row>, now: real, cutoff: Day, d: Day, u: User)
    requires DaysAreIntervals(cal) && KeysNameDays(cal) && RowsNormal(cal, rows, now) && NoShortDayIn(cal, rows, now)
    requires d >= cutoff
    ensures Expected(cal, rows, now, cutoff, d, u) == LocalGpuTime(cal, rows, now, d, u)
    decreases |rows|
  {
    hide LocalTime, DayTime, GpuTime, Segments, DaysAreIntervals, KeysNameDays, NoShortDay, RowNormal;
    if rows != [] {
      var r := rows[|rows| - 1];
      assert r in rows;
      BucketsAreLocal(cal, rows[..|rows| - 1], now, cutoff, d, u);
      RowIsLocal(cal, r, now, d);
      GpuTimeAdds(r.gpus, 0.0, 0.0);
      GpuTimeIs(r.gpus, DayTime(Segments(cal, r, now), d));
      assert Expected(cal, rows, now, cutoff, d, u) == Expected(cal, rows[..|rows| - 1], now, cutoff, d, u)
        + if r.user == u then GpuTime(r.gpus, DayTime(Segments(cal, r, now), d)) else 0.0;
    }
  }

  /** The day's bucket gained the job's GPUs times its overlap with that local day. */
  ghost predicate PostedExactly(cal: Calendar, r: Row, t0: real, t1: real, before: Days, after: Days, d: Day) {
    Amount(after, d, r.user) - Amount(before, d, r.user) == r.gpus as real * LocalTime(cal, t0, t1, d)
  }

  /** For one job with nothing cut off this is exact: its buckets are its GPUs
      times its overlap with each local day if and only if none is over too early. */
  lemma JobBucketsIff(cal: Calendar, r: Row, t0: real, t1: real, cutoff: Day, before: Days, after: Days)
    requires DaysAreIntervals(cal) && KeysNameDays(cal) && NormalOn(cal, t0, t1) && r.gpus > 0
    requires JobPosted(r, cutoff, before, after, Split(cal, t0, t1)) && forall t :: t0 <= t < t1 ==> cal.dayKey(t) >= cutoff
    ensures (forall d :: d >= cutoff ==> PostedExactly(cal, r, t0, t1, before, after, d)) <==> NoShortDay(cal, t0, t1)
  {
    hide LocalTime, DayTime, Split, GpuTime, Amount, GrandTotal, KeptTime, NoShortDay, NormalOn, DaysAreIntervals, KeysNameDays, Exact, ExactFor, PostedExactly, JobPosted;
    ExactIff(cal, t0, t1);
    ExactFromCutoff(cal, t0, t1, cutoff);
    forall d | d >= cutoff
      ensures PostedExactly(cal, r, t0, t1, before, after, d) <==> ExactFor(cal, t0, t1, d)
    {
      PostedIffExact(cal, r, t0, t1, cutoff, before, after, d);
    }
  }

  lemma PostedIffExact(cal: Calendar, r: Row, t0: real, t1: real, cutoff: Day, before: Days, after: Days, d: Day)
    requires NormalOn(cal, t0, t1) && r.gpus > 0 && d >= cutoff && JobPosted(r, cutoff, before, after, Split(cal, t0, t1))
    ensures PostedExactly(cal, r, t0, t1, before, after, d) <==> ExactFor(cal, t0, t1, d)
  {
    hide LocalTime, DayTime, Split, GpuTime, Amount, GrandTotal, KeptTime, NormalOn;
    assert Amount(after, d, r.user) == Amount(before, d, r.user) + GpuTime(r.gpus, DayTime(Split(cal, t0, t1), d));
    GpuTimeInjective(r.gpus, DayTime(Split(cal, t0, t1), d), LocalTime(cal, t0, t1, d));
    GpuTimeIs(r.gpus, LocalTime(cal, t0, t1, d));
  }

  lemma ExactFromCutoff(cal: Calendar, t0: real, t1: real, cutoff: Day)
    requires NormalOn(cal, t0, t1) && forall t :: t0 <= t < t1 ==> cal.dayKey(t) >= cutoff
    ensures Exact(cal, t0, t1) <==> forall d :: d >= cutoff ==> ExactFor(cal, t0, t1, d)
  {
    hide LocalTime, DayTime, Split;
    forall d | d < cutoff ensures ExactFor(cal, t0, t1, d) {
      LocalTimeElsewhere(cal, t0, t1, d);
      KeyedElsewhere(cal, t0, t1, d);
    }
  }

  lemma GpuTimeInjective(g: nat, a: real, b: real)
    requires g > 0
    ensures GpuTime(g, a) == GpuTime(g, b) <==> a == b
  {
    var x := g as real;
    assert x >= 1.0;
    if a < b {
      TimesPositive(x, b - a);
      assert x * (b - a) == x * b - x * a;
    } else if b < a {
      TimesPositive(x, a - b);
      assert x * (a - b) == x * a - x * b;
    }
  }

  lemma TimesPositive(x: real, y: real)
    requires x > 0.0 && y > 0.0
    ensures x * y > 0.0
  {
  }

  lemma {:induction false} KeyedElsewhere(cal: Calendar, t0: real, t1: real, d: Day)
    requires NormalOn(cal, t0, t1) && forall t :: t0 <= t < t1 ==> cal.dayKey(t) != d
    ensures DayTime(Split(cal, t0, t1), d) == 0.0
    decreases (if t0 < t1 then 1 else 0), t1.Floor - cal.dayStart(t0)
  {
    if t0 >= t1 {
      SplitEnds(cal, t0, t1);
    } else {
      var end := DayEnd(cal, t0);
      assert NormalAt(cal, t0) && (end < t1 ==> NormalAt(cal, end));
      FirstSegment(cal, t0, t1, if t1 < end then t1 else end, d);
      KeyedElsewhere(cal, end, t1, d);
    }
  }

  lemma BackfillStep(cal: Calendar, rows: seq<Row>, i: nat, now: real, cutoff: Day, days: Days, days': Days)
    requires RowsNormal(cal, rows, now) && i < |rows| && Backfilled(cal, rows[..i], now, cutoff, days)
    requires JobPosted(rows[i], cutoff, days, days', Segments(cal, rows[i], now))
    ensures Backfilled(cal, rows[..i + 1], now, cutoff, days')
  {
    hide GrandTotal, KeptTime, DayTime, Segments, Amount, GpuTime, RowNormal;
    var more := rows[..i + 1];
    assert more[..|more| - 1] == rows[..i] && more[|more| - 1] == rows[i];
    forall d, u ensures Amount(days', d, u) == Expected(cal, more, now, cutoff, d, u) {
      assert Amount(days, d, u) == Expected(cal, rows[..i], now, cutoff, d, u);
    }
  }

  method SacctBackfill(cal: Calendar, rows: seq<Row>, now: real, cutoff: Day) returns (days: Days)
    requires RowsNormal(cal, rows, now)
    ensures Backfilled(cal, rows, now, cutoff, days)
  {
    days := map[];
    EmptyTotal();
    assert Backfilled(cal, rows[..0], now, cutoff, days);
    hide Backfilled, JobPosted, Split, NormalOn;
    for i := 0 to |rows|
      invariant Backfilled(cal, rows[..i], now, cutoff, days)
    {
      var r := rows[i];
      ghost var was := days;
      SkippedRow(r, cutoff, days);
      if r.complete && r.user != "" && r.gpus > 0 {
        var t1 := if r.end.Some? && r.end.value != 0.0 then r.end.value else now;
        t1 := if t1 < now then t1 else now;
        if r.start.Some? && t1 > r.start.value {
          assert RowNormal(cal, r, now) && r.Counted(now) && r.End(now) == t1;
          days := SplitJob(cal, r, r.start.value, t1, cutoff, days);
        }
      }
      BackfillStep(cal, rows, i, now, cutoff, was, days);
    }
    assert rows[..|rows|] == rows;
  }

  lemma EmptyTotal()
    ensures GrandTotal(map[]) == 0.0
  {
  }
}