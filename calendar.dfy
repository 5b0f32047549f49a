/** Time as the verification app sees it: aware UTC instants with
    microsecond resolution, calendar days and Python's weekday numbering. */
module Calendar {

  /** Microseconds since midnight UTC at the start of 1 January of year 1 in
      the proleptic Gregorian calendar (the day Python's `toordinal` numbers 1). */
  type Instant = int

  const MicrosPerSecond: int := 1_000_000
  const MicrosPerDay: int := 86_400_000_000

  /** Days since 1 January of year 1; day 0 is a Monday. */
  function DayNumber(t: Instant): int {
    t / MicrosPerDay
  }

  function TimeOfDay(t: Instant): (r: int)
    ensures 0 <= r < MicrosPerDay
  {
    t % MicrosPerDay
  }

  /** `datetime.weekday()`: Monday is 0 and Sunday is 6. */
  function Weekday(t: Instant): (w: int)
    ensures 0 <= w < 7
  {
    DayNumber(t) % 7
  }

  predicate IsBusinessDay(t: Instant) {
    Weekday(t) < 5
  }

  /** `t + timedelta(days=k)`. */
  function AddDays(t: Instant, k: int): Instant {
    t + k * MicrosPerDay
  }

  /** Whole seconds since the origin: what `strftime("%Y-%m-%d %H:%M:%S")`
      shows of an instant (the microseconds are dropped). */
  function WholeSeconds(t: Instant): int {
    t / MicrosPerSecond
  }

  /** Adding k days moves the calendar day by exactly k, keeps the time of
      day and moves the weekday by k modulo 7. */
  lemma AddDaysShiftsCalendar(t: Instant, k: int)
    ensures DayNumber(AddDays(t, k)) == DayNumber(t) + k
    ensures TimeOfDay(AddDays(t, k)) == TimeOfDay(t)
    ensures Weekday(AddDays(t, k)) == (Weekday(t) + k) % 7
  {
    var q, r := t / MicrosPerDay, t % MicrosPerDay;
    assert t == q * MicrosPerDay + r;
    assert AddDays(t, k) == (q + k) * MicrosPerDay + r;
    DivModUnique(AddDays(t, k), q + k, r);
  }

  lemma DivModUnique(x: int, q: int, r: int)
    requires 0 <= r < MicrosPerDay && x == q * MicrosPerDay + r
    ensures x / MicrosPerDay == q && x % MicrosPerDay == r
  {
  }

  /** A calendar date as `datetime.date` holds it. */
  datatype Date = Date(year: int, month: int, day: int)

  predicate IsLeapYear(y: int) {
    y % 4 == 0 && (y % 100 != 0 || y % 400 == 0)
  }

  function DaysInMonth(y: int, m: int): (n: int)
    requires 1 <= m <= 12
    ensures 28 <= n <= 31
  {
    if m == 2 then (if IsLeapYear(y) then 29 else 28)
    else if m == 4 || m == 6 || m == 9 || m == 11 then 30
    else 31
  }

  /** What `datetime.datetime(year, month, day)` accepts: years 1 to 9999
      (MINYEAR and MAXYEAR) and a day that exists in that month. */
  predicate IsValidDate(d: Date) {
    && 1 <= d.year <= 9999
    && 1 <= d.month <= 12
    && 1 <= d.day <= DaysInMonth(d.year, d.month)
  }
}
