/** The part of Python's `datetime` that turns a `Due Date: YYYY-MM-DD` field
    into a whole number of days from "now": `strptime` validation, proleptic
    Gregorian ordinals, and `timedelta.days`, which rounds towards minus
    infinity. */
module Calendar {
  import opened Common
  import opened Text

  datatype Date = Date(year: int, month: int, day: int)

  /** A moment of local time: a date and the microseconds elapsed since its
      midnight (what `datetime.now()` returns, at microsecond resolution). */
  datatype Instant = Instant(date: Date, micros: int)

  const MICROS_PER_DAY: int := 86_400_000_000

  predicate IsLeapYear(y: int) {
    y % 4 == 0 && (y % 100 != 0 || y % 400 == 0)
  }

  function DaysInMonth(y: int, m: int): (n: int)
    requires 1 <= m <= 12
    ensures 28 <= n <= 31
  {
    if m == 2 then (if IsLeapYear(y) then 29 else 28)
    else if m == 4 || m == 6 || m == 9 || m == 11 then 30
    else 31
  }

  /** The dates `datetime` accepts: years 1 to 9999, a real month, a day that
      exists in that month. Anything else makes `strptime` raise ValueError. */
  predicate ValidDate(d: Date) {
    1 <= d.year <= 9999 && 1 <= d.month <= 12 && 1 <= d.day <= DaysInMonth(d.year, d.month)
  }

  predicate ValidInstant(t: Instant) {
    ValidDate(t.date) && 0 <= t.micros < MICROS_PER_DAY
  }

  /** Days in the years before `y`. */
  function DaysBeforeYear(y: int): int {
    var y1 := y - 1;
    y1 * 365 + y1 / 4 - y1 / 100 + y1 / 400
  }

  /** Days in year `y` before the first of month `m`. */
  function DaysBeforeMonth(y: int, m: int): int
    requires 1 <= m <= 12
  {
    var table := [0, 31, 59, 90, 120, 151, 181, 212, 243, 273, 304, 334];
    table[m - 1] + (if m > 2 && IsLeapYear(y) then 1 else 0)
  }

  /** `date.toordinal()`: 1 for 0001-01-01, counting every day since. */
  function Ordinal(d: Date): int
    requires 1 <= d.month <= 12
  {
    DaysBeforeYear(d.year) + DaysBeforeMonth(d.year, d.month) + d.day
  }

  /** The calendar day after `d`. */
  function NextDay(d: Date): (e: Date)
    requires ValidDate(d)
    ensures 1 <= e.month <= 12 && 1 <= e.day <= DaysInMonth(e.year, e.month)
  {
    if d.day < DaysInMonth(d.year, d.month) then Date(d.year, d.month, d.day + 1)
    else if d.month < 12 then Date(d.year, d.month + 1, 1)
    else Date(d.year + 1, 1, 1)
  }

  lemma YearLength(y: int)
    ensures DaysBeforeYear(y + 1) - DaysBeforeYear(y) == if IsLeapYear(y) then 366 else 365
  {
    QuarterStep(y);
    CenturyStep(y);
    QuadCenturyStep(y);
  }

  // Going from `y - 1` to `y`, the count of multiples of 4, 100 and 400
  // grows exactly when `y` is such a multiple.

  lemma QuarterStep(y: int)
    ensures y / 4 - (y - 1) / 4 == if y % 4 == 0 then 1 else 0
  {
  }

  lemma CenturyStep(y: int)
    ensures y / 100 - (y - 1) / 100 == if y % 100 == 0 then 1 else 0
  {
  }

  lemma QuadCenturyStep(y: int)
    ensures y / 400 - (y - 1) / 400 == if y % 400 == 0 then 1 else 0
  {
  }

  /** Ordinals number the days consecutively: the day after `d` has the next
      ordinal, across month and year boundaries and on leap days. */
  lemma NextDayOrdinal(d: Date)
    requires ValidDate(d)
    ensures Ordinal(NextDay(d)) == Ordinal(d) + 1
  {
    if d.day == DaysInMonth(d.year, d.month) && d.month == 12 {
      YearLength(d.year);
    }
  }

  /** `(datetime(due) - now).days`: the whole days from `now` to the midnight
      that starts `due`, rounded down. */
  function DaysUntil(due: Date, now: Instant): int
    requires 1 <= due.month <= 12 && 1 <= now.date.month <= 12
  {
    ((Ordinal(due) - Ordinal(now.date)) * MICROS_PER_DAY - now.micros) / MICROS_PER_DAY
  }

  lemma DivideExactly(a: int, q: int)
    requires q * MICROS_PER_DAY <= a < (q + 1) * MICROS_PER_DAY
    ensures a / MICROS_PER_DAY == q
  {
  }

  /** The day count is the calendar difference at midnight, and one less at
      every later moment of the day: an item due tomorrow, seen at 09:00,
      is 0 days away, and one due today is -1. */
  lemma {:induction false} DaysUntilCalendar(due: Date, now: Instant)
    requires ValidDate(due) && ValidInstant(now)
    ensures DaysUntil(due, now)
            == Ordinal(due) - Ordinal(now.date) - (if now.micros == 0 then 0 else 1)
  {
    var k := Ordinal(due) - Ordinal(now.date);
    if now.micros == 0 {
      DivideExactly(k * MICROS_PER_DAY, k);
    } else {
      DivideExactly(k * MICROS_PER_DAY - now.micros, k - 1);
    }
  }

  /** Later moments never see a deadline as further away. */
  lemma DaysUntilMonotone(due: Date, now: Instant, later: Instant)
    requires ValidDate(due) && ValidInstant(now) && ValidInstant(later)
    requires Ordinal(now.date) < Ordinal(later.date)
             || (now.date == later.date && now.micros <= later.micros)
    ensures DaysUntil(due, later) <= DaysUntil(due, now)
  {
    DaysUntilCalendar(due, now);
    DaysUntilCalendar(due, later);
  }

  /** The text the `Due Date:\s*(\d{4}-\d{2}-\d{2})` pattern captures. */
  predicate IsIsoDateText(t: string) {
    |t| == 10 && t[4] == '-' && t[7] == '-'
    && AllDigits(t[..4]) && AllDigits(t[5..7]) && AllDigits(t[8..])
  }

  /** `datetime.strptime(t, '%Y-%m-%d')`, or None where it raises ValueError. */
  function ParseIsoDate(t: string): (r: Option<Date>)
    ensures r.Some? ==> ValidDate(r.value)
  {
    if !IsIsoDateText(t) then None
    else
      var d := Date(DecimalValue(t[..4]), DecimalValue(t[5..7]), DecimalValue(t[8..]));
      if ValidDate(d) then Some(d) else None
  }

  /** `d.strftime('%Y-%m-%d')` */
  function FormatIsoDate(d: Date): string
    requires ValidDate(d)
  {
    Padded(d.year, 4) + "-" + Padded(d.month, 2) + "-" + Padded(d.day, 2)
  }

  /** Every date `datetime` can hold is accepted back from its ISO text, and
      only those dates: parsing never yields an invalid date. */
  lemma IsoDateRoundTrip(d: Date)
    requires ValidDate(d)
    ensures IsIsoDateText(FormatIsoDate(d))
    ensures ParseIsoDate(FormatIsoDate(d)) == Some(d)
  {
    PaddedRoundTrip(d.year, 4);
    PaddedRoundTrip(d.month, 2);
    PaddedRoundTrip(d.day, 2);
    var y, m, dd := Padded(d.year, 4), Padded(d.month, 2), Padded(d.day, 2);
    var t := FormatIsoDate(d);
    assert t[..4] == y;
    assert t[5..7] == m;
    assert t[8..] == dd;
  }
}
