/** The proleptic Gregorian calendar: day counts in closed form and by a year loop, and the date of a day count. */
module Calendar {
  predicate Leap(year: int) {
    year % 4 == 0 && (year % 100 != 0 || year % 400 == 0)
  }

  function DaysIn(year: int): int {
    if Leap(year) then 366 else 365
  }

  function Months(year: int): (r: seq<int>)
    ensures |r| == 12 && forall i :: 0 <= i < 12 ==> 28 <= r[i] <= 31
  {
    [31, if Leap(year) then 29 else 28, 31, 30, 31, 30, 31, 31, 30, 31, 30, 31]
  }

  datatype Date = Date(year: int, month: int, day: int) {
    /** A date that the calendar has, in the years that four digits print. */
    predicate Exists() {
      1 <= year <= 9999 && 1 <= month <= 12 && 1 <= day <= Months(year)[month - 1]
    }

    predicate Before(other: Date) {
      || year < other.year
      || (year == other.year && month < other.month)
      || (year == other.year && month == other.month && day < other.day)
    }
  }

  /** Days before the first of January of a year, counted from the year 1. */
  function DaysBeforeYear(year: int): int {
    365 * (year - 1) + (year - 1) / 4 - (year - 1) / 100 + (year - 1) / 400
  }

  function SumFirst(lengths: seq<int>, count: nat): int
    requires count <= |lengths|
  {
    if count == 0 then 0 else SumFirst(lengths, count - 1) + lengths[count - 1]
  }

  const EPOCH := DaysBeforeYear(1970)

  /** Days since the first of January 1970. */
  function DaysOf(date: Date): int
    requires date.Exists()
  {
    DaysBeforeYear(date.year) + SumFirst(Months(date.year), date.month - 1) + date.day - 1 - EPOCH
  }

  lemma Quotient4(year: int)
    ensures year / 4 - (year - 1) / 4 == if year % 4 == 0 then 1 else 0
  {
  }

  lemma Quotient100(year: int)
    ensures year / 100 - (year - 1) / 100 == if year % 100 == 0 then 1 else 0
  {
  }

  lemma Quotient400(year: int)
    ensures year / 400 - (year - 1) / 400 == if year % 400 == 0 then 1 else 0
    ensures year % 400 == 0 ==> year % 100 == 0
    ensures year % 100 == 0 ==> year % 4 == 0
  {
  }

  /** Each year adds its own length to the closed form. */
  lemma YearAdds(year: int)
    requires 1 <= year
    ensures DaysBeforeYear(year + 1) == DaysBeforeYear(year) + DaysIn(year)
  {
    Quotient4(year);
    Quotient100(year);
    Quotient400(year);
  }

  lemma {:induction false} YearsAscend(a: int, b: int)
    requires 1 <= a < b
    ensures DaysBeforeYear(a) + DaysIn(a) <= DaysBeforeYear(b)
    decreases b
  {
    YearAdds(b - 1);
    if a < b - 1 { YearsAscend(a, b - 1); }
  }

  lemma {:induction false} MonthsAscend(year: int, a: nat, b: nat)
    requires a < b <= 12
    ensures SumFirst(Months(year), a) + Months(year)[a] <= SumFirst(Months(year), b)
  {
    if a < b - 1 { MonthsAscend(year, a, b - 1); }
  }

  lemma MonthsFill(year: int)
    ensures SumFirst(Months(year), 12) == DaysIn(year)
  {
    var lengths, february := Months(year), if Leap(year) then 29 else 28;
    assert SumFirst(lengths, 1) == 31;
    assert SumFirst(lengths, 2) == 31 + february;
    assert SumFirst(lengths, 4) == 92 + february;
    assert SumFirst(lengths, 6) == 153 + february;
    assert SumFirst(lengths, 8) == 215 + february;
    assert SumFirst(lengths, 10) == 276 + february;
  }

  /** A date's day count stays inside its year. */
  lemma WithinYear(date: Date)
    requires date.Exists()
    ensures DaysBeforeYear(date.year) <= DaysOf(date) + EPOCH < DaysBeforeYear(date.year) + DaysIn(date.year)
  {
    MonthsFill(date.year);
    MonthsAscend(date.year, date.month - 1, 12);
    if date.month > 1 { MonthsAscend(date.year, 0, date.month - 1); }
  }

  /** The day count orders dates as their components do. */
  lemma DaysOrder(a: Date, b: Date)
    requires a.Exists() && b.Exists()
    ensures DaysOf(a) < DaysOf(b) <==> a.Before(b)
  {
    if a.Before(b) { OrderOneWay(a, b); }
    if b.Before(a) { OrderOneWay(b, a); }
  }

  lemma OrderOneWay(a: Date, b: Date)
    requires a.Exists() && b.Exists() && a.Before(b)
    ensures DaysOf(a) < DaysOf(b)
  {
    WithinYear(a);
    WithinYear(b);
    if a.year < b.year {
      YearsAscend(a.year, b.year);
    } else if a.month < b.month {
      MonthsAscend(a.year, a.month - 1, b.month - 1);
    }
  }

  lemma DaysInjective(a: Date, b: Date)
    requires a.Exists() && b.Exists() && DaysOf(a) == DaysOf(b)
    ensures a == b
  {
    DaysOrder(a, b);
    DaysOrder(b, a);
  }

  // ---- the date of a day count ----

  function YearFrom(year: int, day: int): (r: int)
    requires 1 <= year <= 9999 && DaysBeforeYear(year) <= day < DaysBeforeYear(10000)
    ensures year <= r <= 9999 && DaysBeforeYear(r) <= day < DaysBeforeYear(r + 1)
    decreases 9999 - year
  {
    if day < DaysBeforeYear(year + 1) then year else YearFrom(year + 1, day)
  }

  function MonthFrom(year: int, month: int, day: int): (r: int)
    requires 1 <= month <= 12 && SumFirst(Months(year), month - 1) <= day < SumFirst(Months(year), 12)
    ensures month <= r <= 12 && SumFirst(Months(year), r - 1) <= day < SumFirst(Months(year), r)
    decreases 12 - month
  {
    if day < SumFirst(Months(year), month) then month else MonthFrom(year, month + 1, day)
  }

  /** The date that lies so many days after the epoch. */
  function DateOf(days: int): (r: Date)
    requires 0 <= days < DaysBeforeYear(10000) - EPOCH
    ensures r.Exists() && r.year >= 1970 && DaysOf(r) == days
  {
    var day := days + EPOCH;
    var year := YearFrom(1970, day);
    var left := day - DaysBeforeYear(year);
    YearAdds(year);
    MonthsFill(year);
    var month := MonthFrom(year, 1, left);
    Date(year, month, left - SumFirst(Months(year), month - 1) + 1)
  }

  /** Days from civil date and civil date from days are mutual inverses. */
  lemma DateOfDays(date: Date)
    requires date.Exists() && date.year >= 1970
    ensures 0 <= DaysOf(date) < DaysBeforeYear(10000) - EPOCH && DateOf(DaysOf(date)) == date
  {
    WithinYear(date);
    if date.year > 1970 { YearsAscend(1970, date.year); }
    YearsAscend(date.year, 10000);
    DaysInjective(DateOf(DaysOf(date)), date);
  }

  /** The loop that counts days year by year, then month by month. */
  method CountDays(date: Date) returns (days: nat)
    requires date.Exists() && date.year >= 1970
    ensures days == DaysOf(date)
  {
    DateOfDays(date);
    var count := 0;
    for previous := 1970 to date.year
      invariant count == DaysBeforeYear(previous) - EPOCH
    {
      YearAdds(previous);
      count := count + 365 + if Leap(previous) then 1 else 0;
    }
    var lengths := Months(date.year);
    for i := 0 to date.month - 1
      invariant count == DaysBeforeYear(date.year) - EPOCH + SumFirst(lengths, i)
    {
      count := count + lengths[i];
    }
    return count + (date.day - 1);
  }
}
