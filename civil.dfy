/**
 * Calendar dates as Python's `datetime` module has them: proleptic
 * Gregorian days from 0001-01-01 to 9999-12-31, numbered as
 * `date.toordinal() - 1`, and rendered by `strftime('%Y-%m-%d')`.
 */
module Civil {
  import opened Strings

  datatype CivilDate = CivilDate(year: int, month: int, day: int)

  predicate IsLeap(y: int) {
    y % 4 == 0 && (y % 100 != 0 || y % 400 == 0)
  }

  function DaysInMonth(y: int, m: int): int {
    if m == 2 then (if IsLeap(y) then 29 else 28)
    else if m == 4 || m == 6 || m == 9 || m == 11 then 30
    else 31
  }

  /** The dates `datetime` accepts: year 1 to 9999 and a day that exists in its month. */
  predicate IsValid(d: CivilDate) {
    && 1 <= d.year <= 9999
    && 1 <= d.month <= 12
    && 1 <= d.day <= DaysInMonth(d.year, d.month)
  }

  type Date = d: CivilDate | IsValid(d) witness CivilDate(1, 1, 1)

  type Hour = h: int | 0 <= h < 24

  /**
   * The reference time the date normalisers read with `datetime.now()`:
   * its calendar day and hour (nothing finer matters to them).
   */
  datatype Moment = Moment(date: Date, hour: Hour)

  /** `a <= b` on dates, as `datetime` compares them. */
  predicate LessEq(a: CivilDate, b: CivilDate) {
    || a.year < b.year
    || (a.year == b.year && (a.month < b.month || (a.month == b.month && a.day <= b.day)))
  }

  function DaysInYear(y: int): nat {
    if IsLeap(y) then 366 else 365
  }

  /** Python's `_days_before_year`. */
  function DaysBeforeYear(y: int): nat
    requires 1 <= y
  {
    var p := y - 1;
    p * 365 + p / 4 - p / 100 + p / 400
  }

  /** Python's `_days_before_month`; month 13 stands for the end of the year. */
  function DaysBeforeMonth(y: int, m: int): nat
    requires 1 <= m <= 13
  {
    var table := [0, 31, 59, 90, 120, 151, 181, 212, 243, 273, 304, 334, 365];
    table[m - 1] + (if m > 2 && IsLeap(y) then 1 else 0)
  }

  /** Days since 0001-01-01 (`toordinal() - 1`). */
  function DayNumber(d: Date): nat {
    DaysBeforeYear(d.year) + DaysBeforeMonth(d.year, d.month) + d.day - 1
  }

  /** One past the largest day number: the number of 9999-12-31 plus one. */
  function DayNumberLimit(): nat {
    DaysBeforeYear(10000)
  }

  lemma NextYear(y: int)
    requires 1 <= y
    ensures DaysBeforeYear(y + 1) == DaysBeforeYear(y) + DaysInYear(y)
  {
    var p := y - 1;
    assert y / 4 == p / 4 + (if y % 4 == 0 then 1 else 0);
    assert y / 100 == p / 100 + (if y % 100 == 0 then 1 else 0);
    assert y / 400 == p / 400 + (if y % 400 == 0 then 1 else 0);
  }

  lemma NextMonth(y: int, m: int)
    requires 1 <= m <= 12
    ensures DaysBeforeMonth(y, m + 1) == DaysBeforeMonth(y, m) + DaysInMonth(y, m)
    ensures DaysBeforeMonth(y, 13) == DaysInYear(y)
  {
  }

  lemma {:induction false} YearsIncrease(y: int, z: int)
    requires 1 <= y <= z
    ensures DaysBeforeYear(y) <= DaysBeforeYear(z)
    decreases z - y
  {
    if y < z {
      NextYear(y);
      YearsIncrease(y + 1, z);
    }
  }

  lemma DayNumberBound(d: Date)
    ensures DayNumber(d) < DayNumberLimit()
  {
    NextMonth(d.year, d.month);
    NextYear(d.year);
    YearsIncrease(d.year + 1, 10000);
  }

  /** The day `n` days into year `y` or a later year. */
  function YearFrom(n: nat, y: int): (d: Date)
    requires 1 <= y <= 9999 && DaysBeforeYear(y) + n < DayNumberLimit()
    decreases n
  {
    NextYear(y);
    if n < DaysInYear(y) then MonthFrom(n, y, 1)
    else YearFrom(n - DaysInYear(y), y + 1)
  }

  /** The day `n` days into month `m` of year `y` or a later month of that year. */
  function MonthFrom(n: nat, y: int, m: int): (d: Date)
    requires 1 <= y <= 9999 && 1 <= m <= 12
    requires DaysBeforeMonth(y, m) + n < DaysInYear(y)
    decreases 12 - m
  {
    NextMonth(y, m);
    if n < DaysInMonth(y, m) then CivilDate(y, m, n + 1)
    else MonthFrom(n - DaysInMonth(y, m), y, m + 1)
  }

  /** The date with day number `n` (`date.fromordinal(n + 1)`). */
  function FromDayNumber(n: nat): (d: Date)
    requires n < DayNumberLimit()
  {
    YearFrom(n, 1)
  }

  lemma {:induction false} MonthFromNumber(n: nat, y: int, m: int)
    requires 1 <= y <= 9999 && 1 <= m <= 12
    requires DaysBeforeMonth(y, m) + n < DaysInYear(y)
    ensures MonthFrom(n, y, m).year == y
    ensures DaysBeforeMonth(y, MonthFrom(n, y, m).month) + MonthFrom(n, y, m).day - 1 == DaysBeforeMonth(y, m) + n
    decreases 12 - m
  {
    NextMonth(y, m);
    if n >= DaysInMonth(y, m) {
      MonthFromNumber(n - DaysInMonth(y, m), y, m + 1);
    }
  }

  lemma {:induction false} YearFromNumber(n: nat, y: int)
    requires 1 <= y <= 9999 && DaysBeforeYear(y) + n < DayNumberLimit()
    ensures DayNumber(YearFrom(n, y)) == DaysBeforeYear(y) + n
    decreases n
  {
    NextYear(y);
    if n < DaysInYear(y) {
      MonthFromNumber(n, y, 1);
    } else {
      YearFromNumber(n - DaysInYear(y), y + 1);
    }
  }

  /** `FromDayNumber` inverts `DayNumber`: the date it gives has the number asked for. */
  lemma FromDayNumberInverse(n: nat)
    requires n < DayNumberLimit()
    ensures DayNumber(FromDayNumber(n)) == n
  {
    YearFromNumber(n, 1);
  }

  function Digits2(n: nat): (s: string)
    requires n < 100
    ensures |s| == 2 && AllDigits(s)
  {
    [DigitChar(n / 10), DigitChar(n % 10)]
  }

  function Digits4(n: nat): (s: string)
    requires n < 10000
    ensures |s| == 4 && AllDigits(s)
  {
    Digits2(n / 100) + Digits2(n % 100)
  }

  /** `strftime('%Y-%m-%d')`: the canonical form of a date. */
  function Iso(d: Date): (s: string)
    ensures |s| == 10 && s[4] == '-' && s[7] == '-'
    ensures forall i :: 0 <= i < 10 && i != 4 && i != 7 ==> IsDigit(s[i])
  {
    Digits4(d.year) + "-" + Digits2(d.month) + "-" + Digits2(d.day)
  }
}
