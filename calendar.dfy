/**
 * Proleptic Gregorian calendar dates, as Python's `datetime.date` provides
 * them: construction that fails on a day that does not exist, comparison,
 * and adding or subtracting whole days.
 */
module Calendar {
  import opened Outcomes

  /** A year, month and day, not yet checked against the calendar. */
  datatype Ymd = Ymd(year: int, month: int, day: int)

  predicate IsLeapYear(y: int) {
    y % 4 == 0 && (y % 100 != 0 || y % 400 == 0)
  }

  function DaysInMonth(y: int, m: int): (n: int)
    requires 1 <= m <= 12
    ensures 28 <= n <= 31
    ensures n == 29 <==> m == 2 && IsLeapYear(y)
  {
    if m == 2 then (if IsLeapYear(y) then 29 else 28)
    else if m == 4 || m == 6 || m == 9 || m == 11 then 30
    else 31
  }

  predicate IsValid(d: Ymd) {
    1 <= d.month <= 12 && 1 <= d.day <= DaysInMonth(d.year, d.month)
  }

  /** A date that exists in the calendar; every Python `date` object is one. */
  type Date = d: Ymd | IsValid(d) witness Ymd(2000, 1, 1)

  /** `date(year, month, day)`: fails instead of normalising a day that does not exist. */
  function MakeDate(year: int, month: int, day: int): (r: Option<Date>)
    ensures r.Some? <==> 1 <= month <= 12 && 1 <= day <= DaysInMonth(year, month)
    ensures r.Some? ==> r.value.year == year && r.value.month == month && r.value.day == day
  {
    if IsValid(Ymd(year, month, day)) then Some(Ymd(year, month, day)) else None
  }

  /** `a < b` on dates: lexicographic on (year, month, day). */
  predicate Before(a: Ymd, b: Ymd) {
    a.year < b.year || (a.year == b.year && (a.month < b.month || (a.month == b.month && a.day < b.day)))
  }

  /** `a <= b` on dates. */
  predicate NotAfter(a: Ymd, b: Ymd) {
    !Before(b, a)
  }

  /** Months elapsed since January of year 0; a month step adds to it. */
  function MonthIndex(d: Ymd): int {
    12 * d.year + d.month - 1
  }

  /** A number per date, increasing with the calendar order; distances between ranks are not day counts. */
  function Rank(d: Ymd): int {
    32 * MonthIndex(d) + d.day
  }

  /** Date comparison agrees with comparing ranks. */
  lemma BeforeIsRankOrder(a: Date, b: Date)
    ensures Before(a, b) <==> Rank(a) < Rank(b)
  {
  }

  /** `d + timedelta(days=1)`. */
  function NextDay(d: Date): (r: Date)
    ensures Before(d, r)
  {
    if d.day < DaysInMonth(d.year, d.month) then Ymd(d.year, d.month, d.day + 1)
    else if d.month < 12 then Ymd(d.year, d.month + 1, 1)
    else Ymd(d.year + 1, 1, 1)
  }

  /** NextDay(d) is the earliest date after d: no date lies strictly between the two. */
  lemma NextDayIsSuccessor(d: Date, e: Date)
    ensures Before(d, e) <==> NotAfter(NextDay(d), e)
  {
  }

  /** `d - timedelta(days=1)`: the inverse of NextDay. */
  function PrevDay(d: Date): (r: Date)
    ensures NextDay(r) == d
  {
    if d.day > 1 then Ymd(d.year, d.month, d.day - 1)
    else if d.month > 1 then Ymd(d.year, d.month - 1, DaysInMonth(d.year, d.month - 1))
    else Ymd(d.year - 1, 12, 31)
  }

  lemma PrevDayUndoesNextDay(d: Date)
    ensures PrevDay(NextDay(d)) == d
  {
  }

  /** `d + timedelta(days=n)`: n successive calendar days. */
  function AddDays(d: Date, n: nat): (r: Date)
    ensures n > 0 ==> Before(d, r)
    ensures n == 0 ==> r == d
    decreases n
  {
    if n == 0 then d else NextDay(AddDays(d, n - 1))
  }

  /** Adding a days and then b days is adding a + b days. */
  lemma {:induction false} AddDaysAdditive(d: Date, a: nat, b: nat)
    ensures AddDays(AddDays(d, a), b) == AddDays(d, a + b)
    decreases b
  {
    if b > 0 {
      AddDaysAdditive(d, a, b - 1);
    }
  }
}
