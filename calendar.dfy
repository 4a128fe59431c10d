/** Proleptic Gregorian dates and local date-times at millisecond resolution, as JavaScript's
    `Date` handles them in a zone without offset changes: the month/day normalisation of
    `new Date(y, monthIndex, day, h, mi, s)`, adding milliseconds, and reading the fields back. */
module Calendar {

  predicate IsLeapYear(y: int) {
    (y % 4 == 0 && y % 100 != 0) || y % 400 == 0
  }

  /** Length of month `m` (1-based) of year `y`. */
  function DaysInMonth(y: int, m: int): (n: int)
    requires 1 <= m <= 12
    ensures 28 <= n <= 31
    ensures m == 2 ==> (n == 29 <==> IsLeapYear(y))
    ensures m != 2 ==> (n == 30 <==> m == 4 || m == 6 || m == 9 || m == 11)
  {
    if m == 2 then (if IsLeapYear(y) then 29 else 28)
    else if m == 4 || m == 6 || m == 9 || m == 11 then 30
    else 31
  }

  datatype Date = Date(year: int, month: int, day: int)

  predicate ValidDate(d: Date) {
    1 <= d.month <= 12 && 1 <= d.day <= DaysInMonth(d.year, d.month)
  }

  function NextDay(d: Date): (r: Date)
    requires ValidDate(d)
    ensures ValidDate(r)
  {
    if d.day < DaysInMonth(d.year, d.month) then Date(d.year, d.month, d.day + 1)
    else if d.month < 12 then Date(d.year, d.month + 1, 1)
    else Date(d.year + 1, 1, 1)
  }

  function PrevDay(d: Date): (r: Date)
    requires ValidDate(d)
    ensures ValidDate(r)
  {
    if d.day > 1 then Date(d.year, d.month, d.day - 1)
    else if d.month > 1 then Date(d.year, d.month - 1, DaysInMonth(d.year, d.month - 1))
    else Date(d.year - 1, 12, 31)
  }

  lemma NextPrevInverse(d: Date)
    requires ValidDate(d)
    ensures PrevDay(NextDay(d)) == d && NextDay(PrevDay(d)) == d
  {
  }

  function YearLength(y: int): int {
    if IsLeapYear(y) then 366 else 365
  }

  /** Days of year `y` before the first of month `m`; `m == 13` gives the whole year. */
  function DaysBeforeMonth(y: int, m: int): int
    requires 1 <= m <= 13
  {
    [0, 31, 59, 90, 120, 151, 181, 212, 243, 273, 304, 334, 365][m - 1]
    + (if IsLeapYear(y) && m > 2 then 1 else 0)
  }

  lemma DaysBeforeNextMonth(y: int, m: int)
    requires 1 <= m <= 12
    ensures DaysBeforeMonth(y, m + 1) == DaysBeforeMonth(y, m) + DaysInMonth(y, m)
    ensures DaysBeforeMonth(y, 13) == YearLength(y)
  {
  }

  /** Days from 1970-01-01 to the first of January of `y`. */
  function DaysBeforeYear(y: int): int
    decreases if y >= 1970 then y - 1970 else 1970 - y
  {
    if y == 1970 then 0
    else if y > 1970 then DaysBeforeYear(y - 1) + YearLength(y - 1)
    else DaysBeforeYear(y + 1) - YearLength(y)
  }

  lemma DaysBeforeNextYear(y: int)
    ensures DaysBeforeYear(y + 1) == DaysBeforeYear(y) + YearLength(y)
  {
  }

  /** The day number of `d`: days since 1970-01-01. */
  function DayIndex(d: Date): int
    requires ValidDate(d)
  {
    DaysBeforeYear(d.year) + DaysBeforeMonth(d.year, d.month) + d.day - 1
  }

  lemma NextDayIndex(d: Date)
    requires ValidDate(d)
    ensures DayIndex(NextDay(d)) == DayIndex(d) + 1
  {
    DaysBeforeNextMonth(d.year, d.month);
    DaysBeforeNextYear(d.year);
  }

  lemma PrevDayIndex(d: Date)
    requires ValidDate(d)
    ensures DayIndex(PrevDay(d)) == DayIndex(d) - 1
  {
    NextPrevInverse(d);
    NextDayIndex(PrevDay(d));
  }

  lemma {:induction false} DaysBeforeYearMonotone(a: int, b: int)
    requires a <= b
    ensures DaysBeforeYear(a) + (b - a) * 365 <= DaysBeforeYear(b)
    decreases b - a
  {
    if a < b {
      DaysBeforeYearMonotone(a, b - 1);
      DaysBeforeNextYear(b - 1);
    }
  }

  lemma DaysBeforeMonthMonotone(y: int, a: int, b: int)
    requires 1 <= a <= b <= 13
    ensures DaysBeforeMonth(y, a) + (b - a) * 28 <= DaysBeforeMonth(y, b)
  {
  }

  /** A valid date in an earlier year has a smaller day number. */
  lemma EarlierYearBelow(lo: Date, hi: Date)
    requires ValidDate(lo) && ValidDate(hi) && lo.year < hi.year
    ensures DayIndex(lo) < DayIndex(hi)
  {
    DaysBeforeYearMonotone(lo.year + 1, hi.year);
    DaysBeforeNextYear(lo.year);
    DaysBeforeMonthMonotone(lo.year, lo.month + 1, 13);
    DaysBeforeNextMonth(lo.year, lo.month);
  }

  /** A valid date in an earlier month of the same year has a smaller day number. */
  lemma EarlierMonthBelow(lo: Date, hi: Date)
    requires ValidDate(lo) && ValidDate(hi) && lo.year == hi.year && lo.month < hi.month
    ensures DayIndex(lo) < DayIndex(hi)
  {
    DaysBeforeNextMonth(lo.year, lo.month);
    DaysBeforeMonthMonotone(lo.year, lo.month + 1, hi.month);
  }

  /** Different valid dates have different day numbers. */
  lemma DayIndexInjective(a: Date, b: Date)
    requires ValidDate(a) && ValidDate(b) && DayIndex(a) == DayIndex(b)
    ensures a == b
  {
    if a.year < b.year {
      EarlierYearBelow(a, b);
      assert false;
    } else if b.year < a.year {
      EarlierYearBelow(b, a);
      assert false;
    } else if a.month < b.month {
      EarlierMonthBelow(a, b);
      assert false;
    } else if b.month < a.month {
      EarlierMonthBelow(b, a);
      assert false;
    }
  }

  /** `d` moved by `k` days. */
  function AddDays(d: Date, k: int): (r: Date)
    requires ValidDate(d)
    ensures ValidDate(r) && DayIndex(r) == DayIndex(d) + k
    decreases if k >= 0 then k else -k
  {
    if k == 0 then d
    else if k > 0 then (NextDayIndex(d); AddDays(NextDay(d), k - 1))
    else (PrevDayIndex(d); AddDays(PrevDay(d), k + 1))
  }

  lemma {:induction false} AddDaysWithinMonth(d: Date, k: nat)
    requires ValidDate(d) && d.day + k <= DaysInMonth(d.year, d.month)
    ensures AddDays(d, k) == Date(d.year, d.month, d.day + k)
    decreases k
  {
    if k > 0 {
      AddDaysWithinMonth(NextDay(d), k - 1);
    }
  }

  const MsPerDay: int := 86_400_000

  /** A local date and the milliseconds elapsed since its midnight. */
  datatype DateTime = DateTime(date: Date, ms: int)

  predicate ValidDateTime(t: DateTime) {
    ValidDate(t.date) && 0 <= t.ms < MsPerDay
  }

  function Hours(t: DateTime): int { t.ms / 3_600_000 }
  function Minutes(t: DateTime): int { t.ms / 60_000 % 60 }
  function Seconds(t: DateTime): int { t.ms / 1000 % 60 }

  lemma FieldRanges(t: DateTime)
    requires ValidDateTime(t)
    ensures 0 <= Hours(t) < 24 && 0 <= Minutes(t) < 60 && 0 <= Seconds(t) < 60
  {
  }

  /** Milliseconds since 1970-01-01 00:00: the instant `t` names. */
  function Timeline(t: DateTime): int
    requires ValidDateTime(t)
  {
    DayIndex(t.date) * MsPerDay + t.ms
  }

  /** `t` moved by `k` milliseconds, carrying into the date. */
  function AddMillis(t: DateTime, k: int): (r: DateTime)
    requires ValidDateTime(t)
    ensures ValidDateTime(r) && Timeline(r) == Timeline(t) + k
  {
    var total := t.ms + k;
    var days := total / MsPerDay;
    var rest := total % MsPerDay;
    assert total == days * MsPerDay + rest;
    DateTime(AddDays(t.date, days), rest)
  }

  /** `new Date(y, monthIndex, day, h, mi, s)`: a year in 0..99 means 1900 + y, the month index
      carries into the year and everything below the month is added as an offset. */
  function MakeDateTime(y: int, monthIndex: int, day: int, h: int, mi: int, s: int): (r: DateTime)
    ensures ValidDateTime(r)
  {
    var fullYear := if 0 <= y <= 99 then 1900 + y else y;
    var first := DateTime(Date(fullYear + monthIndex / 12, monthIndex % 12 + 1, 1), 0);
    AddMillis(first, (day - 1) * MsPerDay + h * 3_600_000 + mi * 60_000 + s * 1000)
  }

  /** For in-range fields `new Date(...)` keeps them as given. */
  lemma MakeDateTimeInRange(y: int, m: int, d: int, h: int, mi: int, s: int)
    requires !(0 <= y <= 99) && ValidDate(Date(y, m, d))
    requires 0 <= h < 24 && 0 <= mi < 60 && 0 <= s < 60
    ensures MakeDateTime(y, m - 1, d, h, mi, s)
            == DateTime(Date(y, m, d), h * 3_600_000 + mi * 60_000 + s * 1000)
    ensures var t := MakeDateTime(y, m - 1, d, h, mi, s);
            Hours(t) == h && Minutes(t) == mi && Seconds(t) == s
  {
    var ms := h * 3_600_000 + mi * 60_000 + s * 1000;
    ClockMillis(h, mi, s);
    assert (m - 1) / 12 == 0 && (m - 1) % 12 == m - 1;
    DivModOfDays(d - 1, ms);
    AddDaysWithinMonth(Date(y, m, 1), d - 1);
    assert MakeDateTime(y, m - 1, d, h, mi, s) == DateTime(AddDays(Date(y, m, 1), d - 1), ms);
  }

  /** The milliseconds of an in-range clock time lie within a day and give back its fields. */
  lemma ClockMillis(h: int, mi: int, s: int)
    requires 0 <= h < 24 && 0 <= mi < 60 && 0 <= s < 60
    ensures var t := DateTime(Date(0, 1, 1), h * 3_600_000 + mi * 60_000 + s * 1000);
      0 <= t.ms < MsPerDay && Hours(t) == h && Minutes(t) == mi && Seconds(t) == s
  {
    var ms := h * 3_600_000 + mi * 60_000 + s * 1000;
    assert ms / 3_600_000 == h;
    assert ms / 60_000 == h * 60 + mi;
    assert ms / 1000 == (h * 60 + mi) * 60 + s;
  }

  lemma DivModOfDays(q: int, r: int)
    requires 0 <= r < MsPerDay
    ensures (q * MsPerDay + r) / MsPerDay == q && (q * MsPerDay + r) % MsPerDay == r
  {
  }

  /** `new Date(y, m, 0).getDate()` is the length of month `m` (1-based). */
  lemma DayZeroIsMonthEnd(y: int, m: int)
    requires !(0 <= y <= 99) && 1 <= m <= 12
    ensures MakeDateTime(y, m, 0, 0, 0, 0).date == Date(y, m, DaysInMonth(y, m))
  {
    assert (-MsPerDay) / MsPerDay == -1 && (-MsPerDay) % MsPerDay == 0;
  }
}
