/** Settlement dates: one a month, on the goal's day or on the last day of a shorter month. */
module MonthlySchedule {
  import opened Prelude

  /** A UTC date; `month` counts from 0 and `millis` is the time of day. */
  datatype Date = Date(year: nat, month: nat, day: nat, millis: nat)

  predicate IsGregorianLeapYear(year: nat) {
    year % 4 == 0 && (year % 100 != 0 || year % 400 == 0)
  }

  function DaysInUtcMonth(year: nat, month: nat): (n: nat)
    ensures 28 <= n <= 31
  {
    if month == 1 then (if IsGregorianLeapYear(year) then 29 else 28)
    else if month == 3 || month == 5 || month == 8 || month == 10 then 30
    else 31
  }

  predicate ValidDate(d: Date) {
    d.month < 12 && 1 <= d.day <= DaysInUtcMonth(d.year, d.month) && d.millis < 24 * 60 * 60 * 1000
  }

  predicate Earlier(a: Date, b: Date) {
    || a.year < b.year
    || (a.year == b.year && a.month < b.month)
    || (a.year == b.year && a.month == b.month && a.day < b.day)
    || (a.year == b.year && a.month == b.month && a.day == b.day && a.millis < b.millis)
  }

  /** None stands for a range error. */
  function NextMonthlySettlementUtc(current: Date, settlementDay: int): Option<Date> {
    if current.millis != 0 || settlementDay < 1 || settlementDay > 31 then None
    else
      var nextMonth := (current.month + 1) % 12;
      var nextYear := current.year + if current.month == 11 then 1 else 0;
      var last := DaysInUtcMonth(nextYear, nextMonth);
      Some(Date(nextYear, nextMonth, if settlementDay < last then settlementDay else last, 0))
  }

  /** Months counted through, so that years do not matter. */
  function MonthNumber(d: Date): nat {
    d.year * 12 + d.month
  }

  /** The settlement of a month for a goal's day, whatever came before. */
  function Boundary(month: nat, settlementDay: nat): (d: Date)
    ensures MonthNumber(d) == month
  {
    var last := DaysInUtcMonth(month / 12, month % 12);
    Date(month / 12, month % 12, if settlementDay < last then settlementDay else last, 0)
  }

  function Settlements(first: Date, settlementDay: int, n: nat): Option<Date> {
    if n == 0 then Some(first)
    else
      var before := Settlements(first, settlementDay, n - 1);
      if before.None? then None else NextMonthlySettlementUtc(before.value, settlementDay)
  }

  lemma NextIsBoundary(d: Date, settlementDay: nat)
    requires ValidDate(d) && d.millis == 0 && 1 <= settlementDay <= 31
    ensures NextMonthlySettlementUtc(d, settlementDay) == Some(Boundary(MonthNumber(d) + 1, settlementDay))
    ensures ValidDate(Boundary(MonthNumber(d) + 1, settlementDay))
    ensures Earlier(d, Boundary(MonthNumber(d) + 1, settlementDay))
  {
    var m := MonthNumber(d) + 1;
    if d.month == 11 {
      assert m == (d.year + 1) * 12;
    } else {
      assert m == d.year * 12 + (d.month + 1);
    }
  }

  // ---- the calendar itself ----------------------------------------------------------------------

  /** The leap days of the years 1 to `year`. */
  function LeapDays(year: int): int {
    Times(year, 4) - Times(year, 100) + Times(year, 400)
  }

  function Times(n: int, k: nat): int
    requires k > 0
  {
    n / k
  }

  /** Days counted through, in closed form: years begin in March, so that a leap day is a year's last. */
  function DayNumber(d: Date): int {
    var y, m := if d.month < 2 then d.year - 1 else d.year, (d.month + 10) % 12;
    365 * y + LeapDays(y) + (153 * m + 2) / 5 + d.day
  }

  lemma EveryFourth(n: int)
    ensures Times(n, 4) - Times(n - 1, 4) == if n % 4 == 0 then 1 else 0
  {
  }

  lemma EveryHundredth(n: int)
    ensures Times(n, 100) - Times(n - 1, 100) == if n % 100 == 0 then 1 else 0
  {
  }

  lemma EveryFourHundredth(n: int)
    ensures Times(n, 400) - Times(n - 1, 400) == if n % 400 == 0 then 1 else 0
  {
  }

  lemma FourHundreds(n: int)
    requires n % 400 == 0
    ensures n % 100 == 0
  {
    assert n == 100 * (4 * (n / 400));
  }

  lemma Hundreds(n: int)
    requires n % 100 == 0
    ensures n % 4 == 0
  {
    assert n == 4 * (25 * (n / 100));
  }

  /** The leap-year rule adds a day exactly where the closed form does. */
  lemma LeapYearsAddADay(year: nat)
    ensures LeapDays(year) - LeapDays(year - 1) == if IsGregorianLeapYear(year) then 1 else 0
  {
    hide Times;
    EveryFourth(year);
    EveryHundredth(year);
    EveryFourHundredth(year);
    if year % 100 == 0 {
      Hundreds(year);
    }
    if year % 400 == 0 {
      FourHundreds(year);
    }
  }

  /** The month lengths are those of the Gregorian day count. */
  lemma MonthsFillTheCalendar(month: nat)
    ensures DayNumber(Date((month + 1) / 12, (month + 1) % 12, 1, 0)) - DayNumber(Date(month / 12, month % 12, 1, 0))
      == DaysInUtcMonth(month / 12, month % 12)
  {
    hide LeapDays, IsGregorianLeapYear;
    var y, m := month / 12, month % 12;
    if m == 11 {
      assert (month + 1) / 12 == y + 1 && (month + 1) % 12 == 0;
    } else {
      assert (month + 1) / 12 == y && (month + 1) % 12 == m + 1;
    }
    LeapYearsAddADay(y);
  }

  /** Settlements of a goal lie at least 28 and at most 31 days apart. */
  lemma SettlementsAreAMonthApart(month: nat, settlementDay: nat)
    requires 1 <= settlementDay <= 31
    ensures 28 <= DayNumber(Boundary(month + 1, settlementDay)) - DayNumber(Boundary(month, settlementDay)) <= 31
  {
    MonthsFillTheCalendar(month);
    FirstOfMonth(month, settlementDay);
    FirstOfMonth(month + 1, settlementDay);
  }

  lemma FirstOfMonth(month: nat, settlementDay: nat)
    requires 1 <= settlementDay <= 31
    ensures DayNumber(Boundary(month, settlementDay))
      == DayNumber(Date(month / 12, month % 12, 1, 0)) + Boundary(month, settlementDay).day - 1
  {
  }

  /** A short month does not move the day for good: every settlement is its own month's boundary. */
  lemma {:induction false} SettlementDayDoesNotDrift(first: Date, settlementDay: nat, n: nat)
    requires ValidDate(first) && first.millis == 0 && 1 <= settlementDay <= 31
    ensures Settlements(first, settlementDay, n) ==
      Some(if n == 0 then first else Boundary(MonthNumber(first) + n, settlementDay))
    ensures n > 0 ==> ValidDate(Boundary(MonthNumber(first) + n, settlementDay))
  {
    if n > 0 {
      SettlementDayDoesNotDrift(first, settlementDay, n - 1);
      var before := Settlements(first, settlementDay, n - 1).value;
      NextIsBoundary(before, settlementDay);
    }
  }
}
