/** Calendar days, as the liquidity page sees them once `parseISO` has produced a
    date: a (year, month, day) triple in the proleptic Gregorian calendar, compared
    day by day. Instants and time zones are not modelled. */
module Dates {

  datatype Date = Date(year: int, month: int, day: int)

  predicate IsLeapYear(y: int) {
    y % 4 == 0 && (y % 100 != 0 || y % 400 == 0)
  }

  function DaysInMonth(y: int, m: int): (n: int)
    requires 1 <= m <= 12
    ensures 28 <= n <= 31
    ensures m == 2 ==> (n == 29 <==> IsLeapYear(y))
  {
    if m == 2 then (if IsLeapYear(y) then 29 else 28)
    else if m == 4 || m == 6 || m == 9 || m == 11 then 30
    else 31
  }

  /** A real calendar day (what `isValid(parseISO(..))` accepts). */
  predicate Valid(d: Date) {
    1 <= d.month <= 12 && 1 <= d.day <= DaysInMonth(d.year, d.month)
  }

  /** Day-level `a <= b`: year, then month, then day. */
  predicate OnOrBefore(a: Date, b: Date) {
    a.year < b.year
    || (a.year == b.year && (a.month < b.month || (a.month == b.month && a.day <= b.day)))
  }

  /** Day-level `a > b`. */
  predicate After(a: Date, b: Date) {
    !OnOrBefore(a, b)
  }

  lemma {:induction false} OnOrBeforeTotal(a: Date, b: Date)
    ensures OnOrBefore(a, b) || OnOrBefore(b, a)
  {
  }

  lemma {:induction false} OnOrBeforeTransitive(a: Date, b: Date, c: Date)
    requires OnOrBefore(a, b) && OnOrBefore(b, c)
    ensures OnOrBefore(a, c)
  {
  }

  lemma {:induction false} OnOrBeforeAntisymmetric(a: Date, b: Date)
    requires OnOrBefore(a, b) && OnOrBefore(b, a)
    ensures a == b
  {
  }

  /** The calendar month a day falls in, as a running month number; two days are
      in the same month (`isSameMonth`) exactly when their indices agree. */
  function MonthIndex(d: Date): int {
    12 * d.year + (d.month - 1)
  }

  lemma {:induction false} SameMonthIff(a: Date, b: Date)
    requires Valid(a) && Valid(b)
    ensures MonthIndex(a) == MonthIndex(b) <==> a.year == b.year && a.month == b.month
  {
  }

  /** Days in an earlier month come before days in a later one. */
  lemma {:induction false} MonthIndexMonotone(a: Date, b: Date)
    requires Valid(a) && Valid(b)
    requires MonthIndex(a) < MonthIndex(b)
    ensures OnOrBefore(a, b) && a != b
  {
  }

  /** date-fns `addYears(d, n)`: same month and day `n` years on, with a day the
      target month lacks (only February 29) clamped to that month's last day. */
  function AddYears(d: Date, n: int): (r: Date)
    ensures r.year == d.year + n && r.month == d.month
    ensures Valid(d) ==> Valid(r) && r.day == Min(d.day, DaysInMonth(r.year, r.month))
  {
    var y := d.year + n;
    if d.month == 2 && d.day == 29 && !IsLeapYear(y) then Date(y, 2, 28) else Date(y, d.month, d.day)
  }

  function Min(a: int, b: int): int {
    if a <= b then a else b
  }

  /** Six years on from a leap day is never a leap year, so the study-fund rule
      turns February 29 into February 28. */
  lemma {:induction false} LeapDayPlusSixYears(y: int)
    requires IsLeapYear(y)
    ensures AddYears(Date(y, 2, 29), 6) == Date(y + 6, 2, 28)
  {
    assert (y + 6) % 4 == 2;
  }
}
