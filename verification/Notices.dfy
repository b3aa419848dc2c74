/**
 * The deadline search (packages/core/src/construction-notices.ts): counting calendar or working days
 * from a due date and rolling to a working day. Dates are day numbers counted from 1970-01-01.
 */
module Notices {
  import opened Prelude

  datatype DayCount = CalendarDays | WorkingDays
  datatype Calendar = Calendar(weekendDays: seq<int>, holidays: seq<int>)
  datatype Profile = Profile(offsetDays: int, dayCount: DayCount, rollsToWorking: bool, calendar: Option<Calendar>)

  /** The first and last day of the four-digit years. */
  const FIRST_DAY := -719528
  const LAST_DAY := 2932896

  predicate Dated(day: int) {
    FIRST_DAY <= day <= LAST_DAY
  }

  /** What the rule profile schema admits. */
  predicate ProfileOk(p: Profile) {
    && -366 <= p.offsetDays <= 366
    && (p.dayCount == WorkingDays || p.rollsToWorking ==> p.calendar.Some?)
    && (p.calendar.Some? ==>
          && |p.calendar.value.weekendDays| <= 6 && |p.calendar.value.holidays| <= 366
          && (forall w :: w in p.calendar.value.weekendDays ==> 0 <= w <= 6)
          && (forall h :: h in p.calendar.value.holidays ==> Dated(h)))
  }

  /** 1970-01-01 was a Thursday; Sunday is 0. */
  function Weekday(day: int): int {
    (day + 4) % 7
  }

  predicate Working(p: Profile, day: int) {
    p.calendar.Some? ==> Weekday(day) !in p.calendar.value.weekendDays && day !in p.calendar.value.holidays
  }

  predicate Counts(p: Profile, day: int) {
    p.dayCount == CalendarDays || Working(p, day)
  }

  // ----- what a deadline is -----

  /** How many days that count lie after one day and up to another. */
  function Counted(p: Profile, after: int, upTo: int): nat
    requires after <= upTo
    decreases upTo - after
  {
    if after == upTo then 0 else Counted(p, after, upTo - 1) + if Counts(p, upTo) then 1 else 0
  }

  /** The day reached by crossing as many counting days as the offset says, in its direction, and stopping on the last. */
  predicate Reached(p: Profile, due: int, day: int) {
    if p.offsetDays == 0 then day == due
    else if p.offsetDays > 0 then due < day && Counts(p, day) && Counted(p, due, day) == p.offsetDays
    else day < due && Counts(p, day) && Counted(p, day - 1, due - 1) == -p.offsetDays
  }

  /** The first working day on or after a day, where the profile rolls. */
  predicate Rolled(p: Profile, from: int, day: int) {
    if !p.rollsToWorking then day == from
    else from <= day && Working(p, day) && forall d :: from <= d < day ==> !Working(p, d)
  }

  ghost predicate IsDeadline(p: Profile, due: int, day: int) {
    exists from :: Reached(p, due, from) && Rolled(p, from, day)
  }

  // ----- a working day lies ahead -----

  lemma {:induction false} FewValues(s: seq<int>)
    ensures |set x | x in s| <= |s|
  {
    if s == [] {
      assert (set x | x in s) == {};
    } else {
      FewValues(s[1..]);
      assert (set x | x in s) == {s[0]} + (set x | x in s[1..]);
    }
  }

  /** At most six weekend days leave a weekday free. */
  lemma FreeWeekday(p: Profile) returns (w: int)
    requires ProfileOk(p)
    ensures 0 <= w <= 6 && (p.calendar.Some? ==> w !in p.calendar.value.weekendDays)
  {
    w := 0;
    if p.calendar.Some? {
      var weekend := p.calendar.value.weekendDays;
      FewValues(weekend);
      var all := {0, 1, 2, 3, 4, 5, 6};
      SubsetSmaller(all, set x | x in weekend);
      assert exists x :: x in all && x !in weekend;
      w :| w in all && w !in weekend;
    }
  }

  lemma SubsetSmaller(a: set<int>, b: set<int>)
    ensures a <= b ==> |a| <= |b|
  {
    if a <= b {
      assert b == a + (b - a);
    }
  }

  /** Beyond the last holiday every free weekday is worked, in either direction. */
  lemma WorkingAhead(p: Profile, day: int, direction: int) returns (n: nat)
    requires ProfileOk(p) && (direction == 1 || direction == -1)
    ensures Working(p, day + direction * n)
  {
    var w := FreeWeekday(p);
    var start := if direction == 1 then (if day > LAST_DAY then day else LAST_DAY + 1)
                 else (if day < FIRST_DAY then day else FIRST_DAY - 1);
    var k := if direction == 1 then (w - Weekday(start)) % 7 else (Weekday(start) - w) % 7;
    n := if direction == 1 then start + k - day else day - (start - k);
    assert day + direction * n == start + direction * k;
    assert Weekday(start + direction * k) == w;
  }

  /** A counting day lies ahead of any day, at least one step away. */
  lemma CountingAhead(p: Profile, day: int, direction: int) returns (n: nat)
    requires ProfileOk(p) && (direction == 1 || direction == -1)
    ensures n >= 1 && Counts(p, day + direction * n)
  {
    var k := WorkingAhead(p, day + direction, direction);
    n := k + 1;
    assert day + direction * n == day + direction + direction * k;
  }

  // ----- the search -----

  function Magnitude(n: int): nat {
    if n < 0 then -n else n
  }

  /** The counting days crossed on the way from the due date. */
  function Crossed(p: Profile, due: int, date: int, direction: int): nat
    requires direction == 1 ==> due <= date
    requires direction != 1 ==> date <= due
  {
    if direction == 1 then Counted(p, due, date) else Counted(p, date - 1, due - 1)
  }

  lemma {:induction false} CountedLow(p: Profile, after: int, upTo: int)
    requires after < upTo
    ensures Counted(p, after, upTo) == Counted(p, after + 1, upTo) + if Counts(p, after + 1) then 1 else 0
    decreases upTo - after
  {
    if after + 1 < upTo {
      CountedLow(p, after, upTo - 1);
    }
  }

  /** Steps day by day until the offset is crossed. */
  method Count(due: int, p: Profile) returns (date: int)
    requires ProfileOk(p)
    ensures Reached(p, due, date)
  {
    date := due;
    var direction: int := if p.offsetDays < 0 then -1 else 1;
    var remaining: int := Magnitude(p.offsetDays);
    ghost var ahead: nat := CountingAhead(p, date, direction);
    while remaining > 0
      invariant 0 <= remaining <= Magnitude(p.offsetDays)
      invariant if direction == 1 then due <= date else date <= due
      invariant Crossed(p, due, date, direction) + remaining == Magnitude(p.offsetDays)
      invariant date == due ==> remaining == Magnitude(p.offsetDays)
      invariant remaining > 0 ==> ahead >= 1 && Counts(p, date + direction * ahead)
      invariant remaining == 0 && date != due ==> Counts(p, date)
      decreases remaining, ahead
    {
      if direction == -1 {
        CountedLow(p, date - 2, due - 1);
      }
      date := date + direction;
      if Counts(p, date) {
        remaining := remaining - 1;
        ahead := CountingAhead(p, date, direction);
      } else {
        assert date + direction * (ahead - 1) == date - direction + direction * ahead;
        ahead := ahead - 1;
      }
    }
  }

  /** The deadline, or None when it falls outside the supported years. */
  method Deadline(due: int, p: Profile) returns (result: Option<int>, ghost day: int)
    requires ProfileOk(p)
    ensures IsDeadline(p, due, day)
    ensures result == if Dated(day) then Some(day) else None
  {
    var date := Count(due, p);
    ghost var from := date;
    if p.rollsToWorking {
      ghost var ahead: nat := WorkingAhead(p, date, 1);
      while !Working(p, date)
        invariant from <= date && Working(p, date + ahead)
        invariant forall d :: from <= d < date ==> !Working(p, d)
        decreases ahead
      {
        date := date + 1;
        ahead := ahead - 1;
      }
    }
    day := date;
    assert Reached(p, due, from) && Rolled(p, from, day);
    return if Dated(date) then Some(date) else None, day;
  }

  // ----- deadlines are determined, and keep the order of due dates -----

  lemma {:induction false} CountedSplit(p: Profile, a: int, b: int, c: int)
    requires a <= b <= c
    ensures Counted(p, a, c) == Counted(p, a, b) + Counted(p, b, c)
    decreases c - b
  {
    if b < c {
      CountedSplit(p, a, b, c - 1);
    }
  }

  lemma ReachedKeepsOrder(p: Profile, dueA: int, dueB: int, a: int, b: int)
    requires dueA <= dueB && Reached(p, dueA, a) && Reached(p, dueB, b)
    ensures a <= b
  {
    if b < a {
      if p.offsetDays > 0 {
        CountedSplit(p, dueA, dueB, b);
        CountedSplit(p, dueA, b, a - 1);
      } else {
        CountedSplit(p, b - 1, a - 1, dueA - 1);
        CountedSplit(p, b - 1, dueA - 1, dueB - 1);
        CountedLow(p, b - 1, a - 1);
      }
    }
  }

  lemma RolledKeepsOrder(p: Profile, fromA: int, fromB: int, a: int, b: int)
    requires fromA <= fromB && Rolled(p, fromA, a) && Rolled(p, fromB, b)
    ensures a <= b
  {
  }

  /** A later due date never has an earlier deadline; in particular a deadline is determined by its due date. */
  lemma DeadlineKeepsOrder(p: Profile, dueA: int, dueB: int, a: int, b: int)
    requires dueA <= dueB && IsDeadline(p, dueA, a) && IsDeadline(p, dueB, b)
    ensures a <= b && (dueA == dueB ==> a == b)
  {
    var fromA :| Reached(p, dueA, fromA) && Rolled(p, fromA, a);
    var fromB :| Reached(p, dueB, fromB) && Rolled(p, fromB, b);
    ReachedKeepsOrder(p, dueA, dueB, fromA, fromB);
    RolledKeepsOrder(p, fromA, fromB, a, b);
    if dueA == dueB {
      ReachedKeepsOrder(p, dueB, dueA, fromB, fromA);
      RolledKeepsOrder(p, fromB, fromA, b, a);
    }
  }

  /** In calendar days the deadline before rolling is simply the offset away. */
  lemma {:induction false} CalendarCounts(p: Profile, after: int, upTo: int)
    requires p.dayCount == CalendarDays && after <= upTo
    ensures Counted(p, after, upTo) == upTo - after
    decreases upTo - after
  {
    if after < upTo {
      CalendarCounts(p, after, upTo - 1);
    }
  }

  lemma CalendarDeadline(p: Profile, due: int, day: int)
    requires p.dayCount == CalendarDays && Reached(p, due, day)
    ensures day == due + p.offsetDays
  {
    if p.offsetDays > 0 {
      CalendarCounts(p, due, day);
    } else if p.offsetDays < 0 {
      CalendarCounts(p, day - 1, due - 1);
    }
  }

  // ----- dates -----

  function LeapsBefore(year: int): int
    requires year >= 1
  {
    (year - 1) / 4 - (year - 1) / 100 + (year - 1) / 400
  }

  predicate Leap(year: int) {
    year % 4 == 0 && (year % 100 != 0 || year % 400 == 0)
  }

  /** The days of a common year before each month. */
  const DAYS_BEFORE := [0, 31, 59, 90, 120, 151, 181, 212, 243, 273, 304, 334]

  /** The number of a day of the Gregorian calendar. */
  function DayOf(year: int, month: int, day: int): int
    requires year >= 1 && 1 <= month <= 12
  {
    365 * (year - 1970) + LeapsBefore(year) - LeapsBefore(1970) + DAYS_BEFORE[month - 1] + (if month > 2 && Leap(year) then 1 else 0) + day - 1
  }

  /** Days are counted from 1970-01-01, and the seven days from 2026-11-01 are a week from Sunday on. */
  lemma KnownDays()
    ensures DayOf(1970, 1, 1) == 0 && DayOf(9999, 12, 31) == LAST_DAY && DayOf(1, 1, 1) == FIRST_DAY + 366
    ensures forall k :: 1 <= k <= 7 ==> Weekday(DayOf(2026, 11, k)) == k - 1
  {
  }

  /** The fixture profiles: two working days after, and two calendar days before, the due date. */
  const FIXTURE_WORKING := Profile(2, WorkingDays, true, Some(Calendar([0, 6], [DayOf(2026, 11, 2)])))
  const FIXTURE_CALENDAR := Profile(-2, CalendarDays, false, None)

  /** The weekend and the holiday on Monday are free; Tuesday and Wednesday are worked. */
  lemma FixtureWeek()
    ensures var p, friday := FIXTURE_WORKING, DayOf(2026, 10, 30);
            && !Working(p, friday + 1) && !Working(p, friday + 2) && !Working(p, friday + 3)
            && Working(p, friday + 4) && Working(p, friday + 5)
  {
  }

  lemma FiveDays(p: Profile, due: int)
    requires p.dayCount == WorkingDays && !Working(p, due + 1) && !Working(p, due + 2) && !Working(p, due + 3)
    requires Working(p, due + 4) && Working(p, due + 5)
    ensures Counted(p, due, due + 5) == 2
  {
    assert Counted(p, due, due + 1) == 0 && Counted(p, due, due + 2) == 0 && Counted(p, due, due + 3) == 0;
    assert Counted(p, due, due + 4) == 1;
  }

  /** From Friday 2026-10-30 two working days lead to Wednesday. */
  lemma FixtureWorkingDeadline(day: int)
    ensures IsDeadline(FIXTURE_WORKING, DayOf(2026, 10, 30), day) <==> day == DayOf(2026, 11, 4)
  {
    var due := DayOf(2026, 10, 30);
    FixtureWeek();
    FiveDays(FIXTURE_WORKING, due);
    assert Reached(FIXTURE_WORKING, due, due + 5) && Rolled(FIXTURE_WORKING, due + 5, due + 5);
    if IsDeadline(FIXTURE_WORKING, due, day) {
      DeadlineKeepsOrder(FIXTURE_WORKING, due, due, day, due + 5);
    }
  }

  lemma FixtureCalendarDeadline(day: int)
    ensures IsDeadline(FIXTURE_CALENDAR, DayOf(2026, 11, 2), day) <==> day == DayOf(2026, 10, 31)
  {
    var p, due := FIXTURE_CALENDAR, DayOf(2026, 11, 2);
    assert Counted(p, due - 3, due - 2) == 1 && Counted(p, due - 3, due - 1) == 2;
    assert Reached(p, due, due - 2) && Rolled(p, due - 2, due - 2);
    if IsDeadline(p, due, day) {
      DeadlineKeepsOrder(p, due, due, day, due - 2);
    }
  }

  lemma RollsThree(p: Profile, due: int)
    requires p.offsetDays == 0 && p.rollsToWorking
    requires !Working(p, due) && !Working(p, due + 1) && !Working(p, due + 2) && Working(p, due + 3)
    ensures IsDeadline(p, due, due + 3)
  {
    assert Reached(p, due, due) && Rolled(p, due, due + 3);
  }

  lemma SameCalendar(p: Profile, q: Profile, day: int)
    requires q.calendar == p.calendar
    ensures Working(q, day) == Working(p, day)
  {
  }

  /** Rolling alone: from Saturday 2026-10-31 to Tuesday, past the holiday. */
  lemma FixtureRoll(day: int)
    ensures IsDeadline(FIXTURE_WORKING.(offsetDays := 0), DayOf(2026, 10, 31), day) <==> day == DayOf(2026, 11, 3)
  {
    var p, due := FIXTURE_WORKING.(offsetDays := 0), DayOf(2026, 10, 31);
    FixtureWeek();
    SameCalendar(FIXTURE_WORKING, p, due);
    SameCalendar(FIXTURE_WORKING, p, due + 1);
    SameCalendar(FIXTURE_WORKING, p, due + 2);
    SameCalendar(FIXTURE_WORKING, p, due + 3);
    RollsThree(p, due);
    if IsDeadline(p, due, day) {
      DeadlineKeepsOrder(p, due, due, day, due + 3);
    }
  }
}
