/** UTC civil time and the monthly billing anniversary. `Instant` is the number of
    nanoseconds on the proleptic Gregorian line, so "after" below means later in time. */
module Calendar {

  datatype Time = Time(year: int, month: int, day: int, nanos: int)

  const DAY_NANOS: int := 86_400_000_000_000

  predicate Leap(year: int) {
    year % 4 == 0 && (year % 100 != 0 || year % 400 == 0)
  }

  function DaysIn(year: int, month: int): int {
    if month == 2 then (if Leap(year) then 29 else 28)
    else if month in {4, 6, 9, 11} then 30
    else 31
  }

  ghost predicate Valid(t: Time) {
    && 1 <= t.month <= 12
    && 1 <= t.day <= DaysIn(t.year, t.month)
    && 0 <= t.nanos < DAY_NANOS
  }

  function DaysBeforeYear(year: int): int {
    var y := year - 1;
    365 * y + y / 4 - y / 100 + y / 400
  }

  function DaysBeforeMonth(year: int, month: int): int
    requires 1 <= month <= 12
    decreases month
  {
    if month == 1 then 0 else DaysBeforeMonth(year, month - 1) + DaysIn(year, month - 1)
  }

  function Instant(t: Time): int {
    (DaysBeforeYear(t.year) + (if 1 <= t.month <= 12 then DaysBeforeMonth(t.year, t.month) else 0)
     + t.day - 1) * DAY_NANOS + t.nanos
  }

  function Clamp(day: int): int {
    if day < 1 then 1 else if day > 28 then 28 else day
  }

  /** Adding a month to a date: the month wraps into the next year, and a day past the
      end of the target month spills into the month after it. */
  function AddMonth(t: Time): Time {
    var year := if t.month == 12 then t.year + 1 else t.year;
    var month := if t.month == 12 then 1 else t.month + 1;
    if t.day <= DaysIn(year, month) then Time(year, month, t.day, t.nanos)
    else
      var spill := t.day - DaysIn(year, month);
      Time(if month == 12 then year + 1 else year, if month == 12 then 1 else month + 1, spill, t.nanos)
  }

  function NextAnniversary(from: Time, day: int): Time {
    var d := Clamp(day);
    var candidate := Time(from.year, from.month, d, 0);
    if Instant(candidate) > Instant(from) then candidate else AddMonth(candidate)
  }

  // ---------- calendar order is time order ----------

  predicate Earlier(a: Time, b: Time) {
    || a.year < b.year
    || (a.year == b.year && a.month < b.month)
    || (a.year == b.year && a.month == b.month && a.day < b.day)
    || (a.year == b.year && a.month == b.month && a.day == b.day && a.nanos < b.nanos)
  }

  lemma {:induction false} MonthsAddUp(year: int, month: int, later: int)
    requires 1 <= month < later <= 12
    ensures DaysBeforeMonth(year, month) + DaysIn(year, month) <= DaysBeforeMonth(year, later)
    decreases later - month
  {
    if month + 1 < later {
      MonthsAddUp(year, month, later - 1);
    }
  }

  lemma MonthTable(year: int)
    ensures DaysBeforeMonth(year, 12) + 31 == if Leap(year) then 366 else 365
  {
    assert DaysBeforeMonth(year, 3) == 31 + DaysIn(year, 2);
    assert DaysBeforeMonth(year, 6) == DaysBeforeMonth(year, 3) + 92;
    assert DaysBeforeMonth(year, 9) == DaysBeforeMonth(year, 6) + 92;
    assert DaysBeforeMonth(year, 12) == DaysBeforeMonth(year, 9) + 91;
  }

  lemma YearTable(year: int)
    ensures DaysBeforeYear(year + 1) - DaysBeforeYear(year) == if Leap(year) then 366 else 365
  {
    FourYears(year - 1);
    HundredYears(year - 1);
    FourHundredYears(year - 1);
  }

  lemma FourYears(y: int)
    ensures (y + 1) / 4 == y / 4 + if (y + 1) % 4 == 0 then 1 else 0
  {
  }

  lemma HundredYears(y: int)
    ensures (y + 1) / 100 == y / 100 + if (y + 1) % 100 == 0 then 1 else 0
    ensures (y + 1) % 100 == 0 ==> (y + 1) % 4 == 0
  {
  }

  lemma FourHundredYears(y: int)
    ensures (y + 1) / 400 == y / 400 + if (y + 1) % 400 == 0 then 1 else 0
    ensures (y + 1) % 400 == 0 ==> (y + 1) % 100 == 0
  {
  }

  lemma {:induction false} YearsAddUp(year: int, later: int)
    requires year < later
    ensures DaysBeforeYear(year + 1) <= DaysBeforeYear(later)
    decreases later - year
  {
    if year + 1 < later {
      YearsAddUp(year, later - 1);
      YearTable(later - 1);
    }
  }

  lemma BeforeIsEarlier(a: Time, b: Time)
    requires Valid(a) && Valid(b) && Earlier(a, b)
    ensures Instant(a) < Instant(b)
  {
    MonthTable(a.year);
    YearTable(a.year);
    if a.month < 12 {
      MonthsAddUp(a.year, a.month, 12);
    }
    if a.year < b.year {
      YearsAddUp(a.year, b.year);
      if 1 < b.month {
        MonthsAddUp(b.year, 1, b.month);
      }
    } else if a.month < b.month {
      MonthsAddUp(a.year, a.month, b.month);
    }
  }

  /** Chronological order of valid times is the lexicographic order of their fields. */
  lemma InstantOrder(a: Time, b: Time)
    requires Valid(a) && Valid(b)
    ensures Instant(a) < Instant(b) <==> Earlier(a, b)
    ensures Instant(a) == Instant(b) <==> a == b
  {
    if Earlier(a, b) {
      BeforeIsEarlier(a, b);
    } else if a != b {
      BeforeIsEarlier(b, a);
    }
  }

  // ---------- the anniversary ----------

  /** A midnight on the anniversary's day of the month. */
  ghost predicate Anniversary(t: Time, day: int) {
    Valid(t) && t.day == Clamp(day) && t.nanos == 0
  }

  function MonthIndex(t: Time): int {
    12 * t.year + t.month
  }

  /** The next billing date is the least anniversary strictly after `from`. */
  lemma NextAnniversaryIsLeast(from: Time, day: int)
    requires Valid(from)
    ensures Anniversary(NextAnniversary(from, day), day)
    ensures Instant(NextAnniversary(from, day)) > Instant(from)
    ensures forall t: Time :: Anniversary(t, day) && Instant(t) > Instant(from)
              ==> Instant(NextAnniversary(from, day)) <= Instant(t)
  {
    var r := NextAnniversary(from, day);
    InstantOrder(from, Time(from.year, from.month, Clamp(day), 0));
    InstantOrder(from, r);
    forall t: Time | Anniversary(t, day) && Instant(t) > Instant(from)
      ensures Instant(r) <= Instant(t)
    {
      InstantOrder(from, t);
      InstantOrder(t, r);
    }
  }

  /** The n-th billing date after `from`. */
  function Nth(from: Time, day: int, n: nat): Time {
    if n == 0 then NextAnniversary(from, day) else NextAnniversary(Nth(from, day, n - 1), day)
  }

  /** Iterating falls in every consecutive month, one date each, whatever the month lengths. */
  lemma {:induction false} OneAnniversaryEachMonth(from: Time, day: int, n: nat)
    requires Valid(from)
    ensures Anniversary(Nth(from, day, n), day)
    ensures MonthIndex(Nth(from, day, n)) == MonthIndex(Nth(from, day, 0)) + n
  {
    if n == 0 {
      NextAnniversaryIsLeast(from, day);
    } else {
      OneAnniversaryEachMonth(from, day, n - 1);
      NextFromAnniversary(Nth(from, day, n - 1), day);
    }
  }

  lemma NextFromAnniversary(t: Time, day: int)
    requires Anniversary(t, day)
    ensures Anniversary(NextAnniversary(t, day), day)
    ensures MonthIndex(NextAnniversary(t, day)) == MonthIndex(t) + 1
  {
    assert t == Time(t.year, t.month, Clamp(day), 0);
  }

  /** No anniversary after `from` is skipped: each is the n-th for exactly the month distance n. */
  lemma EveryAnniversaryIsVisited(from: Time, day: int, t: Time)
    requires Valid(from) && Anniversary(t, day) && Instant(t) > Instant(from)
    ensures MonthIndex(t) >= MonthIndex(Nth(from, day, 0))
    ensures t == Nth(from, day, MonthIndex(t) - MonthIndex(Nth(from, day, 0)))
  {
    NextAnniversaryIsLeast(from, day);
    var first := Nth(from, day, 0);
    InstantOrder(t, first);
    assert MonthIndex(t) >= MonthIndex(first);
    var n := MonthIndex(t) - MonthIndex(first);
    OneAnniversaryEachMonth(from, day, n);
  }
}
