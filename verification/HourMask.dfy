/** The fifteen one-hour slots of a day, 7:00 to 22:00 (server/utils/TimeConverter.cpp). */
module HourModel {
  import opened ScheduleModel

  const SLOTS: nat := 15
  const FIRST_HOUR: int := 7

  /** Minutes since midnight. */
  function Minutes(hour: int, minute: int): int { 60 * hour + minute }

  function Floor60(m: int): int { m / 60 }
  function Ceil60(m: int): int { (m + 59) / 60 }

  /** The slots of an hour interval, cut to the grid. */
  function Interval(lo: int, hi: int): Mask {
    set i: nat | i < SLOTS && Within(i, lo, hi)
  }

  predicate Within(i: nat, lo: int, hi: int) { lo <= i < hi }

  /** Slot i meets the minutes from start up to end (half open). */
  predicate SlotMeets(i: nat, start: int, end: int) {
    start < 60 * (FIRST_HOUR + i + 1) && end > 60 * (FIRST_HOUR + i)
  }

  function SlotsOf(start: int, end: int): Mask { set i: nat | i < SLOTS && SlotMeets(i, start, end) }

  /** The slots met are exactly a whole-hour interval. */
  lemma SlotsAreInterval(start: int, end: int)
    ensures SlotsOf(start, end) == Interval(Floor60(start) - FIRST_HOUR, Ceil60(end) - FIRST_HOUR)
  {
    forall i: nat ensures SlotMeets(i, start, end) <==>
          Within(i, Floor60(start) - FIRST_HOUR, Ceil60(end) - FIRST_HOUR) {}
  }

  lemma {:induction false} IntervalSize(lo: nat, hi: nat)
    requires lo <= hi <= SLOTS
    ensures |Interval(lo, hi)| == hi - lo
    decreases hi
  {
    if lo < hi {
      IntervalSize(lo, hi - 1);
      assert Interval(lo, hi) == Interval(lo, hi - 1) + {hi - 1};
    } else {
      assert Interval(lo, hi) == {};
    }
  }

  /** Inside the grid the slots add up to the hours between the rounded ends. */
  lemma DurationOfTimes(start: int, end: int)
    requires 60 * FIRST_HOUR <= start < end <= 60 * (FIRST_HOUR + SLOTS)
    ensures |SlotsOf(start, end)| == Ceil60(end) - Floor60(start)
  {
    SlotsAreInterval(start, end);
    IntervalSize(Floor60(start) - FIRST_HOUR, Ceil60(end) - FIRST_HOUR);
  }

  /** Two times of day that share an instant of the grid have meeting masks; so disjoint masks prove
      that there is no conflict. */
  lemma SharedInstantMeets(start1: int, end1: int, start2: int, end2: int, t: int)
    requires 60 * FIRST_HOUR <= t < 60 * (FIRST_HOUR + SLOTS)
    requires start1 <= t < end1 && start2 <= t < end2
    ensures Meets(SlotsOf(start1, end1), SlotsOf(start2, end2))
  {
    var i: nat := t / 60 - FIRST_HOUR;
    assert i in SlotsOf(start1, end1) * SlotsOf(start2, end2);
  }

  /** Meeting masks are exactly a shared slot: for proper intervals on the grid the masks meet if and
      only if the intervals widened to whole hours overlap. */
  lemma MeetsIff(start1: int, end1: int, start2: int, end2: int)
    requires 60 * FIRST_HOUR <= start1 < end1 <= 60 * (FIRST_HOUR + SLOTS)
    requires 60 * FIRST_HOUR <= start2 < end2 <= 60 * (FIRST_HOUR + SLOTS)
    ensures Meets(SlotsOf(start1, end1), SlotsOf(start2, end2)) <==>
            Floor60(start1) < Ceil60(end2) && Floor60(start2) < Ceil60(end1)
  {
    SlotsAreInterval(start1, end1);
    SlotsAreInterval(start2, end2);
    var x, y := SlotsOf(start1, end1), SlotsOf(start2, end2);
    if Floor60(start1) < Ceil60(end2) && Floor60(start2) < Ceil60(end1) {
      var i: nat := (if Floor60(start1) < Floor60(start2) then Floor60(start2) else Floor60(start1)) - FIRST_HOUR;
      assert i in x * y;
    }
  }
}

/** The code computes with doubles; fl stands for their rounding. */
module HourObjects {
  import opened ScheduleModel
  import opened HourModel

  const INT_MAX: int := 0x7fff_ffff

  /** A number that sscanf stores in an int. */
  predicate IsInt(n: int) { -INT_MAX - 1 <= n <= INT_MAX }

  predicate InRange(x: real) { -8589934592.0 <= x <= 8589934592.0 }

  /** What is used of the rounding: up to 2^33 whole numbers are exact, and errors are below 0.001. A
      double with its 53 bits is far more precise than that. */
  ghost predicate Rounds(fl: real -> real) {
    forall x: real | InRange(x) :: x - 0.001 <= fl(x) <= x + 0.001 && (x == x.Floor as real ==> fl(x) == x)
  }

  /** hour + minute / 60.0 as the code computes it. */
  function Clock(fl: real -> real, hour: int, minute: int): real {
    fl(hour as real + fl(minute as real / 60.0))
  }

  /** calculateHourMask after sscanf has read the four numbers. Whatever the rounding, the mask is the
      one of exact arithmetic. */
  method CalculateHourMask(fl: real -> real, startHour: int, startMin: int, endHour: int, endMin: int)
        returns (mask: Mask)
    requires Rounds(fl) && IsInt(startHour) && IsInt(startMin) && IsInt(endHour) && IsInt(endMin)
    ensures mask == SlotsOf(Minutes(startHour, startMin), Minutes(endHour, endMin))
    ensures forall i: nat :: i in mask <==>
      i < 15 && 60 * startHour + startMin < 60 * (8 + i) && 60 * endHour + endMin > 60 * (7 + i)
  {
    mask := {};
    for i := 0 to SLOTS
      invariant mask == set k: nat | k < i && SlotMeets(k, Minutes(startHour, startMin), Minutes(endHour, endMin))
    {
      var slotStart := 7 + i;
      var slotEnd := slotStart + 1;
      var actStart := Clock(fl, startHour, startMin);
      var actEnd := Clock(fl, endHour, endMin);
      ClockAgainstSlot(fl, startHour, startMin, slotEnd);
      ClockAgainstSlot(fl, endHour, endMin, slotStart);
      if actStart < slotEnd as real && actEnd > slotStart as real {
        mask := mask + {i};
      }
    }
  }

  /** The rounded time lies before or after a slot boundary exactly when the minutes do. */
  lemma ClockAgainstSlot(fl: real -> real, hour: int, minute: int, slot: int)
    requires Rounds(fl) && IsInt(hour) && IsInt(minute) && 0 <= slot <= 24
    ensures Clock(fl, hour, minute) < slot as real <==> Minutes(hour, minute) < 60 * slot
    ensures Clock(fl, hour, minute) > slot as real <==> Minutes(hour, minute) > 60 * slot
  {
    var part := minute as real / 60.0;
    assert Minutes(hour, minute) as real == 60.0 * (hour as real + part);
    assert (60 * slot) as real == 60.0 * slot as real;
    assert InRange(part) && InRange(hour as real + fl(part));
    if Minutes(hour, minute) == 60 * slot {
      assert part == (slot - hour) as real;
      assert fl(part) == part && hour as real + fl(part) == slot as real;
      assert fl(slot as real) == slot as real;
    } else {
      WholeMinutesApart(hour, part, slot, Minutes(hour, minute));
    }
  }

  lemma WholeMinutesApart(hour: int, part: real, slot: int, minutes: int)
    requires minutes as real == 60.0 * (hour as real + part) && minutes != 60 * slot
    ensures minutes < 60 * slot ==> hour as real + part <= slot as real - 0.01
    ensures minutes > 60 * slot ==> hour as real + part >= slot as real + 0.01
  {
    assert (60 * slot - 1) as real == 60.0 * slot as real - 1.0 && (60 * slot + 1) as real == 60.0 * slot as real + 1.0;
    if minutes < 60 * slot {
      assert minutes as real <= (60 * slot - 1) as real;
    } else {
      assert minutes as real >= (60 * slot + 1) as real;
    }
  }

  /** One hour per slot of the mask. */
  method CalculateDurationByMask(hourMask: Mask) returns (hours: real)
    ensures hours == |hourMask * Interval(0, SLOTS)| as real
  {
    hours := 0.0;
    assert hourMask * Interval(0, 0) == {};
    for i := 0 to SLOTS
      invariant hours == |hourMask * Interval(0, i)| as real
    {
      assert hourMask * Interval(0, i + 1) == hourMask * Interval(0, i) + (if i in hourMask then {i} else {});
      if i in hourMask { hours := hours + 1.0; }
    }
  }

  /** The two conversions together: the hours credited for a stretch of the day. */
  method CreditedHours(fl: real -> real, startHour: int, startMin: int, endHour: int, endMin: int) returns (hours: real)
    requires Rounds(fl) && IsInt(startHour) && IsInt(startMin) && IsInt(endHour) && IsInt(endMin)
    requires 60 * FIRST_HOUR <= Minutes(startHour, startMin) < Minutes(endHour, endMin) <= 60 * (FIRST_HOUR + SLOTS)
    ensures hours == (Ceil60(Minutes(endHour, endMin)) - Floor60(Minutes(startHour, startMin))) as real
  {
    var mask := CalculateHourMask(fl, startHour, startMin, endHour, endMin);
    hours := CalculateDurationByMask(mask);
    DurationOfTimes(Minutes(startHour, startMin), Minutes(endHour, endMin));
    assert mask * Interval(0, SLOTS) == mask;
  }
}
