/** Proleptic Gregorian dates as Python's `datetime` counts them (day 1 is 0001-01-01,
    a Monday), the timestamps the controllers store, and the week arithmetic behind the
    weekly buckets of the metrics endpoint (`semana_label`). */
module Calendar {
  import opened Common

  datatype CivilDate = CivilDate(year: int, month: int, day: int)

  predicate IsLeap(y: int) {
    y % 4 == 0 && (y % 100 != 0 || y % 400 == 0)
  }

  function DaysInYear(y: int): int {
    if IsLeap(y) then 366 else 365
  }

  function DaysInMonth(y: int, m: int): int
    requires 1 <= m <= 12
  {
    if m == 2 then (if IsLeap(y) then 29 else 28)
    else if m == 4 || m == 6 || m == 9 || m == 11 then 30
    else 31
  }

  predicate ValidDate(d: CivilDate) {
    d.year >= 1 && 1 <= d.month <= 12 && 1 <= d.day <= DaysInMonth(d.year, d.month)
  }

  /** A calendar date that exists. */
  type Date = d: CivilDate | ValidDate(d) witness CivilDate(1, 1, 1)

  datatype Timestamp = DateTime(date: Date, hour: int, minute: int, second: int)

  /** A timestamp as the controllers write it, "%Y-%m-%d %H:%M:%S". */
  type DateTime = t: Timestamp | 0 <= t.hour < 24 && 0 <= t.minute < 60 && 0 <= t.second < 60
    witness DateTime(CivilDate(1, 1, 1), 0, 0, 0)

  /** Days in the years before `y` (CPython's `_days_before_year`). */
  function DaysBeforeYear(y: int): int
    requires y >= 1
  {
    var p := y - 1;
    365 * p + p / 4 - p / 100 + p / 400
  }

  /** Days in the months of year `y` before month `m`. */
  function DaysBeforeMonth(y: int, m: int): int
    requires 1 <= m <= 12
  {
    var base :=
      if m == 1 then 0 else if m == 2 then 31 else if m == 3 then 59
      else if m == 4 then 90 else if m == 5 then 120 else if m == 6 then 151
      else if m == 7 then 181 else if m == 8 then 212 else if m == 9 then 243
      else if m == 10 then 273 else if m == 11 then 304 else 334;
    base + (if m > 2 && IsLeap(y) then 1 else 0)
  }

  lemma DaysBeforeYearStep(y: int)
    requires y >= 1
    ensures DaysBeforeYear(y + 1) == DaysBeforeYear(y) + DaysInYear(y)
  {
    var p := y - 1;
    assert y / 4 == p / 4 + (if y % 4 == 0 then 1 else 0);
    assert y / 100 == p / 100 + (if y % 100 == 0 then 1 else 0);
    assert y / 400 == p / 400 + (if y % 400 == 0 then 1 else 0);
  }

  /** `date.toordinal()`: 0001-01-01 is day 1. */
  function ToOrdinal(d: Date): (n: int)
    ensures n >= 1
  {
    DaysBeforeYear(d.year) + DaysBeforeMonth(d.year, d.month) + d.day
  }

  /** The day-`n` date of month `m` onwards in year `y`. */
  function LocateInYear(n: int, y: int, m: int): (d: Date)
    requires y >= 1 && 1 <= m <= 12
    requires 1 <= n <= DaysInYear(y) - DaysBeforeMonth(y, m)
    ensures d.year == y && m <= d.month
    ensures DaysBeforeMonth(y, d.month) + d.day == DaysBeforeMonth(y, m) + n
    decreases 12 - m
  {
    if n <= DaysInMonth(y, m) then CivilDate(y, m, n)
    else LocateInYear(n - DaysInMonth(y, m), y, m + 1)
  }

  /** The date that is day `n` counted from the start of year `y`. */
  function Locate(n: int, y: int): (d: Date)
    requires y >= 1 && n >= 1
    ensures d.year >= y
    ensures ToOrdinal(d) == DaysBeforeYear(y) + n
    decreases n
  {
    if n <= DaysInYear(y) then LocateInYear(n, y, 1)
    else
      DaysBeforeYearStep(y);
      Locate(n - DaysInYear(y), y + 1)
  }

  /** `date.fromordinal(n)`. */
  function FromOrdinal(n: int): (d: Date)
    requires n >= 1
    ensures ToOrdinal(d) == n
  {
    Locate(n, 1)
  }

  /** `date.weekday()`: Monday is 0, Sunday is 6. */
  function Weekday(d: Date): (w: int)
    ensures 0 <= w < 7
  {
    WeekdayOf(ToOrdinal(d))
  }

  function WeekdayOf(n: int): int {
    (n + 6) % 7
  }

  datatype Week = Week(start: Date, end: Date)

  /** The ordinal of the Monday on or before day `o`: going back `weekday` days. */
  function MondayOf(o: int): (s: int)
    requires o >= 1
    ensures 1 <= s <= o < s + 7 && WeekdayOf(s) == 0
  {
    var k := (o + 6) / 7;
    var r := (o + 6) % 7;
    assert o + 6 == 7 * k + r;
    assert o - r + 6 == 7 * k;
    o - r
  }

  /** The week that starts on day `s` and ends six days later. */
  function WeekAt(s: int): (w: Week)
    requires s >= 1
    ensures ToOrdinal(w.start) == s && ToOrdinal(w.end) == s + 6
  {
    Week(FromOrdinal(s), FromOrdinal(s + 6))
  }

  /** The Monday-to-Sunday week of `d`: `fecha - timedelta(days=fecha.weekday())` and six
      days after it. The start is the Monday on or before `d`. */
  function WeekOf(d: Date): (w: Week)
    ensures Weekday(w.start) == 0
    ensures ToOrdinal(w.start) <= ToOrdinal(d) < ToOrdinal(w.start) + 7
    ensures ToOrdinal(w.end) == ToOrdinal(w.start) + 6
  {
    WeekAt(MondayOf(ToOrdinal(d)))
  }

  function MonthName(m: int): string
    requires 1 <= m <= 12
  {
    if m == 1 then "enero" else if m == 2 then "febrero" else if m == 3 then "marzo"
    else if m == 4 then "abril" else if m == 5 then "mayo" else if m == 6 then "junio"
    else if m == 7 then "julio" else if m == 8 then "agosto" else if m == 9 then "septiembre"
    else if m == 10 then "octubre" else if m == 11 then "noviembre" else "diciembre"
  }

  /** The label of a week: "<start day>-<end day> <start month> <end year>", e.g.
      "10-16 marzo 2025". */
  function WeekLabel(w: Week): string {
    NatToString(w.start.day) + "-" + NatToString(w.end.day) + " "
      + MonthName(w.start.month) + " " + NatToString(w.end.year)
  }

  /** `semana_label(fecha)`. */
  function SemanaLabel(d: Date): string {
    WeekLabel(WeekOf(d))
  }

  /** Days from a Monday to the Sunday after it go back to that Monday. */
  lemma SameMonday(oa: int, ob: int)
    requires oa >= 1
    requires MondayOf(oa) <= ob <= MondayOf(oa) + 6
    ensures MondayOf(ob) == MondayOf(oa)
  {
    var s := MondayOf(oa);
    var k := (s + 6) / 7;
    assert s + 6 == 7 * k;
    var r := ob - s;
    assert ob + 6 == 7 * k + r;
  }

  /** Every date from a week's Monday to its Sunday has that week. */
  lemma SameWeek(a: Date, b: Date)
    requires ToOrdinal(WeekOf(a).start) <= ToOrdinal(b) <= ToOrdinal(WeekOf(a).end)
    ensures WeekOf(b) == WeekOf(a)
  {
    SameMonday(ToOrdinal(a), ToOrdinal(b));
  }

  /** So every date of a week gets the week's label: the weekly bucket of a date is its
      Monday-to-Sunday week. */
  lemma SameWeekSameLabel(a: Date, b: Date)
    requires ToOrdinal(WeekOf(a).start) <= ToOrdinal(b) <= ToOrdinal(WeekOf(a).end)
    ensures SemanaLabel(b) == SemanaLabel(a)
  {
    SameWeek(a, b);
  }

  /** "%Y", "%m", "%d": zero-padded fields. */
  function Pad(n: nat, w: nat): string {
    ZFill(NatToString(n), w)
  }

  /** `fecha.strftime("%Y-%m-%d")`. */
  function DayKey(d: Date): string {
    Pad(d.year, 4) + "-" + Pad(d.month, 2) + "-" + Pad(d.day, 2)
  }

  /** `fecha.strftime("%Y-%m")`. */
  function MonthKey(d: Date): string {
    Pad(d.year, 4) + "-" + Pad(d.month, 2)
  }

  /** `str(fecha.year)`. */
  function YearKey(d: Date): string {
    NatToString(d.year)
  }

  /** Seconds since the start of day 0: the position of a timestamp on the time line. */
  function Seconds(t: DateTime): int {
    ToOrdinal(t.date) * 86400 + t.hour * 3600 + t.minute * 60 + t.second
  }

  /** `a < b` on timestamps. */
  predicate Earlier(a: DateTime, b: DateTime) {
    Seconds(a) < Seconds(b)
  }

  /** `a > b` on calendar dates (`dt.date() > now.date()`). */
  predicate LaterDate(a: Date, b: Date) {
    ToOrdinal(a) > ToOrdinal(b)
  }
}
