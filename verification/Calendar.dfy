/** The closed-form Gregorian date of a day number, against the calendar that
    counts one day at a time, and the rendered timestamps built on it. */
module Calendar {
  import opened Arithmetic

  datatype Date = Date(year: int, month: int, day: int)

  // ---------- The closed form ----------

  const DAYS_PER_ERA := 146_097
  const EPOCH_SHIFT := 719_468

  function YearOfEra(dayOfEra: nat): nat
    requires dayOfEra < DAYS_PER_ERA
  {
    (dayOfEra - dayOfEra / 1_460 + dayOfEra / 36_524 - dayOfEra / 146_096) / 365
  }

  /** The date of a day of a year that starts in March. */
  function MarchDate(year: int, dayOfYear: int): Date {
    var monthPrime := (5 * dayOfYear + 2) / 153;
    var day := dayOfYear - (153 * monthPrime + 2) / 5 + 1;
    var month := monthPrime + if monthPrime < 10 then 3 else -9;
    Date(if month <= 2 then year + 1 else year, month, day)
  }

  function CivilDate(days: nat): Date {
    var shifted := days + EPOCH_SHIFT;
    var era := shifted / DAYS_PER_ERA;
    var dayOfEra := shifted - era * DAYS_PER_ERA;
    var yearOfEra := YearOfEra(dayOfEra);
    MarchDate(yearOfEra + era * 400, dayOfEra - (365 * yearOfEra + yearOfEra / 4 - yearOfEra / 100))
  }

  // ---------- The simple calendar ----------

  predicate Leap(year: int) { year % 4 == 0 && (year % 100 != 0 || year % 400 == 0) }

  function DaysInMonth(year: int, month: int): int {
    if month == 2 then (if Leap(year) then 29 else 28) else if month in {4, 6, 9, 11} then 30 else 31
  }

  predicate Valid(d: Date) { 1 <= d.month <= 12 && 1 <= d.day <= DaysInMonth(d.year, d.month) }

  function NextDay(d: Date): Date {
    if d.day < DaysInMonth(d.year, d.month) then d.(day := d.day + 1)
    else if d.month < 12 then Date(d.year, d.month + 1, 1)
    else Date(d.year + 1, 1, 1)
  }

  function NthDay(n: nat): Date { if n == 0 then Date(1970, 1, 1) else NextDay(NthDay(n - 1)) }

  // ---------- The closed form is the simple calendar ----------

  /** Days of an era before its year `y`; years start in March. */
  function YearStart(y: nat): nat { 365 * y + y / 4 - y / 100 + y / 400 }

  /** A day of an era as century, leap cycle and day of the cycle. */
  predicate Splits(dayOfEra: nat, c: nat, q: nat, t: nat) {
    && c <= 3 && q <= 24 && t <= 1460 && dayOfEra == 36_524 * c + 1_461 * q + t
    && (t == 1460 ==> q < 24 || c == 3)
  }

  lemma Split(dayOfEra: nat) returns (c: nat, q: nat, t: nat)
    requires dayOfEra < DAYS_PER_ERA
    ensures Splits(dayOfEra, c, q, t)
  {
    c := if dayOfEra == 146_096 then 3 else dayOfEra / 36_524;
    var r := dayOfEra - 36_524 * c;
    q, t := r / 1_461, r % 1_461;
  }

  /** The year inside its leap cycle; the fourth one takes the extra day. */
  function YearOfCycle(t: nat): nat { if t < 365 then 0 else if t < 730 then 1 else if t < 1095 then 2 else 3 }

  lemma YearOfEraIs(dayOfEra: nat, c: nat, q: nat, t: nat)
    requires dayOfEra < DAYS_PER_ERA && Splits(dayOfEra, c, q, t)
    ensures YearOfEra(dayOfEra) == 100 * c + 4 * q + YearOfCycle(t)
  {
    var carry := if 24 * c + q + t >= 1460 then 1 else 0;
    QuotientIs(dayOfEra, 1_460, 25 * c + q + carry);
    if dayOfEra == 146_096 {
      QuotientIs(dayOfEra, 36_524, 4);
      QuotientIs(dayOfEra, 146_096, 1);
    } else {
      QuotientIs(dayOfEra, 36_524, c);
      QuotientIs(dayOfEra, 146_096, 0);
    }
    QuotientIs(365 * (100 * c + 4 * q) + t - carry, 365, 100 * c + 4 * q + YearOfCycle(t));
  }

  lemma YearStartIs(c: nat, q: nat, k: nat)
    requires c <= 3 && q <= 24 && k <= 4
    ensures YearStart(100 * c + 4 * q + k) ==
      36_524 * c + 1_461 * q + 365 * k + (if k == 4 && (q < 24 || c == 3) then 1 else 0)
  {
    var y := 100 * c + 4 * q + k;
    QuotientIs(y, 4, 25 * c + q + if k == 4 then 1 else 0);
    QuotientIs(y, 100, c + if q == 24 && k == 4 then 1 else 0);
    QuotientIs(y, 400, if c == 3 && q == 24 && k == 4 then 1 else 0);
  }

  /** The closed form finds the year that contains the day. */
  lemma YearOfEraContains(dayOfEra: nat)
    requires dayOfEra < DAYS_PER_ERA
    ensures var y := YearOfEra(dayOfEra); y < 400 && YearStart(y) <= dayOfEra < YearStart(y + 1)
  {
    var c, q, t := Split(dayOfEra);
    YearOfEraIs(dayOfEra, c, q, t);
    YearStartIs(c, q, YearOfCycle(t));
    YearStartIs(c, q, YearOfCycle(t) + 1);
  }

  function MarchYearLength(year: int): nat { if Leap(year + 1) then 366 else 365 }

  lemma YearLengths(era: nat, y: nat)
    requires y < 400
    ensures YearStart(y + 1) - YearStart(y) == MarchYearLength(400 * era + y)
  {
    YearSteps(y);
    Periodic(y + 1, 100 * era, 4);
    Periodic(y + 1, 4 * era, 100);
    Periodic(y + 1, era, 400);
  }

  lemma Periodic(n: nat, k: nat, d: nat)
    requires d > 0
    ensures (k * d + n) % d == n % d
  {
    var q := n / d;
    assert n == q * d + n % d;
    assert (k + q) * d == k * d + q * d;
    QuotientIs(k * d + n, d, k + q);
  }

  lemma YearSteps(y: nat)
    ensures YearStart(y + 1) == YearStart(y) + 365 + (if Leap(y + 1) then 1 else 0)
  {
    StepsBy(y, 4);
    StepsBy(y, 100);
    StepsBy(y, 400);
    if (y + 1) % 100 == 0 { Periodic(0, (y + 1) / 100 * 25, 4); }
    if (y + 1) % 400 == 0 { Periodic(0, (y + 1) / 400 * 4, 100); }
  }

  lemma StepsBy(n: nat, d: nat)
    requires d > 0
    ensures (n + 1) / d == n / d + (if (n + 1) % d == 0 then 1 else 0)
  {
    var q, r := n / d, n % d;
    assert n == q * d + r;
    assert (q + 1) * d == q * d + d;
    QuotientIs(n + 1, d, if r + 1 == d then q + 1 else q);
  }

  lemma CivilIsMarch(days: nat) returns (era: nat, y: nat, dayOfYear: nat)
    ensures y < 400 && days + EPOCH_SHIFT == DAYS_PER_ERA * era + YearStart(y) + dayOfYear
    ensures dayOfYear < MarchYearLength(400 * era + y)
    ensures CivilDate(days) == MarchDate(400 * era + y, dayOfYear)
  {
    era := (days + EPOCH_SHIFT) / DAYS_PER_ERA;
    var dayOfEra: nat := (days + EPOCH_SHIFT) % DAYS_PER_ERA;
    y := YearOfEra(dayOfEra);
    YearOfEraContains(dayOfEra);
    YearLengths(era, y);
    QuotientIs(y, 400, 0);
    dayOfYear := dayOfEra - YearStart(y);
  }

  /** Inside a March-based year the month formula counts months of the right
      length. */
  lemma MarchDateAdvances(year: int, dayOfYear: nat)
    requires dayOfYear + 1 < MarchYearLength(year)
    ensures Valid(MarchDate(year, dayOfYear)) && NextDay(MarchDate(year, dayOfYear)) == MarchDate(year, dayOfYear + 1)
  { }

  lemma MarchYearEnds(year: int)
    ensures var last := MarchDate(year, MarchYearLength(year) - 1);
      Valid(last) && NextDay(last) == MarchDate(year + 1, 0) && Valid(MarchDate(year + 1, 0))
  { }

  /** Consecutive day numbers are consecutive days of the calendar. */
  lemma CivilDateAdvances(days: nat)
    ensures Valid(CivilDate(days)) && CivilDate(days + 1) == NextDay(CivilDate(days))
  {
    var era, y, d := CivilIsMarch(days);
    var nextEra, nextY, nextD := CivilIsMarch(days + 1);
    MarchSteps(CivilDate(days), CivilDate(days + 1), era, y, d, nextEra, nextY, nextD);
  }

  lemma MarchSteps(a: Date, b: Date, era: nat, y: nat, d: nat, nextEra: nat, nextY: nat, nextD: nat)
    requires y < 400 && nextY < 400 && d < MarchYearLength(400 * era + y)
    requires nextD < MarchYearLength(400 * nextEra + nextY)
    requires DAYS_PER_ERA * nextEra + YearStart(nextY) + nextD == DAYS_PER_ERA * era + YearStart(y) + d + 1
    requires a == MarchDate(400 * era + y, d) && b == MarchDate(400 * nextEra + nextY, nextD)
    ensures Valid(a) && b == NextDay(a)
  {
    NextDayNumber(era, y, d, nextEra, nextY, nextD);
    MarchAdvances(400 * era + y, d, 400 * nextEra + nextY, nextD);
  }

  lemma MarchAdvances(year: int, d: nat, nextYear: int, nextD: nat)
    requires d < MarchYearLength(year)
    requires if d + 1 < MarchYearLength(year) then nextYear == year && nextD == d + 1
      else nextYear == year + 1 && nextD == 0
    ensures Valid(MarchDate(year, d)) && MarchDate(nextYear, nextD) == NextDay(MarchDate(year, d))
  {
    if d + 1 < MarchYearLength(year) { MarchDateAdvances(year, d); } else { MarchYearEnds(year); }
  }

  /** Era, year and day are unique, so the next number is the next day of the
      year or the first day of the next one. */
  lemma NextDayNumber(era: nat, y: nat, d: nat, nextEra: nat, nextY: nat, nextD: nat)
    requires y < 400 && nextY < 400 && d < MarchYearLength(400 * era + y)
    requires nextD < MarchYearLength(400 * nextEra + nextY)
    requires DAYS_PER_ERA * nextEra + YearStart(nextY) + nextD == DAYS_PER_ERA * era + YearStart(y) + d + 1
    ensures if d + 1 < MarchYearLength(400 * era + y) then nextEra == era && nextY == y && nextD == d + 1
      else 400 * nextEra + nextY == 400 * era + y + 1 && nextD == 0
  {
    YearLengths(era, y);
    YearLengths(nextEra, nextY);
    StartsIncrease(y, 400);
    StartsIncrease(nextY, 400);
    StartsIncrease(y + 1, nextY);
    StartsIncrease(nextY + 1, y);
    StartsIncrease(nextY + 1, y + 1);
    StartsIncrease(0, y);
    StartsIncrease(0, nextY);
  }

  lemma {:induction false} StartsIncrease(a: nat, b: nat)
    ensures a <= b ==> YearStart(a) + 365 * (b - a) <= YearStart(b)
    ensures YearStart(400) == DAYS_PER_ERA && YearStart(0) == 0
    decreases b
  {
    if a < b {
      StartsIncrease(a, b - 1);
      YearSteps(b - 1);
    }
  }

  lemma {:induction false} FollowsCalendar(f: nat -> Date, n: nat)
    requires f(0) == Date(1970, 1, 1)
    requires forall k: nat :: k < n ==> f(k + 1) == NextDay(f(k))
    ensures f(n) == NthDay(n)
  {
    if n > 0 { FollowsCalendar(f, n - 1); }
  }

  /** The closed form is the calendar that counts one day at a time. */
  lemma CivilDateIsNthDay(days: nat)
    ensures CivilDate(days) == NthDay(days)
  {
    Epoch();
    var f := CivilDate;
    forall k: nat | k < days ensures f(k + 1) == NextDay(f(k)) { CivilDateAdvances(k); }
    FollowsCalendar(f, days);
  }

  lemma Epoch()
    ensures CivilDate(0) == Date(1970, 1, 1)
  {
    assert Splits(135_080, 3, 17, 671);
    YearOfEraIs(135_080, 3, 17, 671);
  }

  lemma NextDayStaysValid(d: Date)
    requires Valid(d)
    ensures Valid(NextDay(d)) && Before(d, NextDay(d))
  { }

  // ---------- Counting back ----------

  /** Days from the epoch to the start of a month, one month at a time. */
  function MonthStart(year: int, month: int): int
    requires year >= 1970 && 1 <= month <= 12
    decreases year, month
  {
    if month > 1 then MonthStart(year, month - 1) + DaysInMonth(year, month - 1)
    else if year > 1970 then MonthStart(year - 1, 12) + 31
    else 0
  }

  function DayNumber(d: Date): int
    requires Valid(d) && d.year >= 1970
  {
    MonthStart(d.year, d.month) + d.day - 1
  }

  lemma NextDayCounts(d: Date)
    requires Valid(d) && d.year >= 1970
    ensures Valid(NextDay(d)) && NextDay(d).year >= 1970 && DayNumber(NextDay(d)) == DayNumber(d) + 1
  { }

  lemma {:induction false} NthDayCounts(n: nat)
    ensures Valid(NthDay(n)) && NthDay(n).year >= 1970 && DayNumber(NthDay(n)) == n
  {
    if n > 0 {
      NthDayCounts(n - 1);
      NextDayCounts(NthDay(n - 1));
    }
  }

  /** Counting the days up to a rendered date gives the day number back. */
  lemma DayNumberInverts(days: nat)
    ensures var d := CivilDate(days); Valid(d) && d.year >= 1970 && DayNumber(d) == days
  {
    CivilDateIsNthDay(days);
    NthDayCounts(days);
  }

  // ---------- Order ----------

  predicate Before(a: Date, b: Date) {
    a.year < b.year || (a.year == b.year && (a.month < b.month || (a.month == b.month && a.day < b.day)))
  }

  lemma {:induction false} NthDaysIncrease(a: nat, b: nat)
    requires a < b
    ensures Before(NthDay(a), NthDay(b))
    decreases b
  {
    NthDayCounts(b - 1);
    NextDayStaysValid(NthDay(b - 1));
    if a < b - 1 { NthDaysIncrease(a, b - 1); }
  }

  lemma LaterDaysAreLaterDates(a: nat, b: nat)
    requires a < b
    ensures Before(CivilDate(a), CivilDate(b))
  {
    CivilDateIsNthDay(a);
    CivilDateIsNthDay(b);
    NthDaysIncrease(a, b);
  }
}
