/**
 The Gregorian calendar as ECMA-262 section 21.4.1 counts it: days since 1 January 1970, every year on
 both sides of it, and the civil dates those days have.
 */
module Calendar {

  datatype Civil = Civil(year: int, month: int, day: int)

  predicate IsLeap(y: int) {
    y % 4 == 0 && (y % 100 != 0 || y % 400 == 0)
  }

  function YearLength(y: int): int {
    if IsLeap(y) then 366 else 365
  }

  function MonthLength(y: int, m: int): int {
    if m == 2 then (if IsLeap(y) then 29 else 28)
    else if m in {4, 6, 9, 11} then 30 else 31
  }

  predicate Real(c: Civil) {
    1 <= c.month <= 12 && 1 <= c.day <= MonthLength(c.year, c.month)
  }

  /** The day number of 1 January: whole years counted forward or back from 1970. */
  function DayFromYear(y: int): int
    decreases if y >= 1970 then y - 1970 else 1970 - y
  {
    if y == 1970 then 0
    else if y > 1970 then DayFromYear(y - 1) + YearLength(y - 1)
    else DayFromYear(y + 1) - YearLength(y)
  }

  /** Days of year y before month m; month 13 stands for the end of the year. */
  function MonthStart(y: int, m: int): int
    decreases m
  {
    if m <= 1 then 0 else MonthStart(y, m - 1) + MonthLength(y, m - 1)
  }

  function DayOf(c: Civil): int {
    DayFromYear(c.year) + MonthStart(c.year, c.month) + c.day - 1
  }

  // ---------- the inverse

  /** YearFromTime: the year whose days include day n, searched from a year that starts no later. */
  function YearUp(n: int, y: int): (r: int)
    requires DayFromYear(y) <= n
    ensures DayFromYear(r) <= n < DayFromYear(r + 1)
    decreases n - DayFromYear(y)
  {
    YearsFollow(y);
    if n < DayFromYear(y + 1) then y else YearUp(n, y + 1)
  }

  function YearDown(n: int, y: int): (r: int)
    requires n < DayFromYear(y + 1)
    ensures DayFromYear(r) <= n < DayFromYear(r + 1)
    decreases DayFromYear(y + 1) - n
  {
    YearsFollow(y);
    if DayFromYear(y) <= n then y else YearDown(n, y - 1)
  }

  function YearOf(n: int): (r: int)
    ensures DayFromYear(r) <= n < DayFromYear(r + 1)
  {
    if n < 0 then YearDown(n, 1969) else YearUp(n, 1970)
  }

  function MonthFrom(y: int, within: int, m: int): (r: int)
    requires 1 <= m <= 12 && MonthStart(y, m) <= within < MonthStart(y, 13)
    ensures 1 <= r <= 12 && MonthStart(y, r) <= within < MonthStart(y, r + 1)
    decreases 12 - m
  {
    if m == 12 || within < MonthStart(y, m + 1) then m else MonthFrom(y, within, m + 1)
  }

  function CivilOf(n: int): Civil {
    var y := YearOf(n);
    YearsFollow(y);
    MonthsFillYear(y);
    var m := MonthFrom(y, n - DayFromYear(y), 1);
    Civil(y, m, n - DayFromYear(y) - MonthStart(y, m) + 1)
  }

  // ---------- facts about years and months

  lemma YearsFollow(y: int)
    ensures DayFromYear(y + 1) == DayFromYear(y) + YearLength(y)
  {
  }

  /** The closed form of ECMA-262 for the day number of 1 January counts exactly the leap years in between. */
  lemma {:induction false} ClosedForm(y: int)
    ensures DayFromYear(y) == 365 * (y - 1970) + (y - 1969) / 4 - (y - 1901) / 100 + (y - 1601) / 400
    decreases if y >= 1970 then y - 1970 else 1970 - y
  {
    if y > 1970 {
      ClosedForm(y - 1);
      LeapCount(y - 1);
    } else if y < 1970 {
      ClosedForm(y + 1);
      LeapCount(y);
    }
  }

  lemma LeapCount(y: int)
    ensures (y - 1968) / 4 - (y - 1900) / 100 + (y - 1600) / 400
            == (y - 1969) / 4 - (y - 1901) / 100 + (y - 1601) / 400 + if IsLeap(y) then 1 else 0
  {
    Quarters(y);
    Centuries(y);
    Cycles(y);
  }

  lemma Quarters(y: int)
    ensures (y - 1968) / 4 == (y - 1969) / 4 + if y % 4 == 0 then 1 else 0
  {
  }

  lemma Centuries(y: int)
    ensures (y - 1900) / 100 == (y - 1901) / 100 + if y % 100 == 0 then 1 else 0
    ensures y % 100 == 0 ==> y % 4 == 0
  {
    var q, r := (y - 1901) / 100, (y - 1901) % 100;
    var carry := if r == 99 then 1 else 0;
    ByHundreds(y - 1900, q + carry, r + 1 - 100 * carry);
    ByHundreds(y, q + 19 + carry, r + 1 - 100 * carry);
    if y % 100 == 0 { CenturyIsEven(y); }
  }

  lemma ByHundreds(n: int, q: int, r: int)
    requires n == 100 * q + r && 0 <= r < 100
    ensures n / 100 == q && n % 100 == r
  {
  }

  lemma CenturyIsEven(y: int)
    requires y % 100 == 0
    ensures y % 4 == 0
  {
    assert y == 4 * (25 * (y / 100));
  }

  lemma Cycles(y: int)
    ensures (y - 1600) / 400 == (y - 1601) / 400 + if y % 400 == 0 then 1 else 0
    ensures y % 400 == 0 ==> y % 100 == 0
  {
    if y % 400 == 0 { CycleIsCentury(y); }
  }

  lemma CycleIsCentury(y: int)
    requires y % 400 == 0
    ensures y % 100 == 0
  {
    assert y == 100 * (4 * (y / 400));
  }

  lemma MonthsFillYear(y: int)
    ensures MonthStart(y, 13) == YearLength(y)
  {
    assert MonthStart(y, 4) == 90 + if IsLeap(y) then 1 else 0;
    assert MonthStart(y, 7) == MonthStart(y, 4) + 91;
    assert MonthStart(y, 10) == MonthStart(y, 7) + 92;
  }

  /** The month table of ECMA-262 in closed form: what precedes each month, and the whole year. */
  lemma MonthsClosedForm(y: int, m: int)
    requires 1 <= m <= 13
    ensures MonthStart(y, m) ==
      if m <= 2 then 31 * (m - 1)
      else 59 + (153 * (m - 3) + 2) / 5 + (if y % 4 == 0 && (y % 100 != 0 || y % 400 == 0) then 1 else 0)
  {
    if m > 3 {
      MonthsClosedForm(y, m - 1);
      MonthStep(m);
    } else {
      MonthsBegin(y);
    }
  }

  lemma MonthsBegin(y: int)
    ensures MonthStart(y, 1) == 0 && MonthStart(y, 2) == 31
    ensures MonthStart(y, 3) == 59 + if y % 4 == 0 && (y % 100 != 0 || y % 400 == 0) then 1 else 0
  {
  }

  lemma MonthStep(m: int)
    requires 4 <= m <= 13
    ensures (153 * (m - 3) + 2) / 5 == (153 * (m - 4) + 2) / 5 + if m - 1 in {4, 6, 9, 11} then 30 else 31
  {
    assert m == 4 || m == 5 || m == 6 || m == 7 || m == 8 || m == 9 || m == 10 || m == 11 || m == 12 || m == 13;
  }

  /** So the length of every month is the known one, in every year. */
  lemma MonthLengths(y: int, m: int)
    requires 1 <= m <= 12
    ensures MonthLength(y, m) ==
      [31, if y % 4 == 0 && (y % 100 != 0 || y % 400 == 0) then 29 else 28,
       31, 30, 31, 30, 31, 31, 30, 31, 30, 31][m - 1]
  {
  }

  /** The day number of any civil date as one expression. */
  lemma DayNumber(c: Civil)
    requires 1 <= c.month <= 12
    ensures var y := c.year;
            DayOf(c) ==
              365 * (y - 1970) + (y - 1969) / 4 - (y - 1901) / 100 + (y - 1601) / 400
              + (if c.month <= 2 then 31 * (c.month - 1)
                 else 59 + (153 * (c.month - 3) + 2) / 5
                      + (if y % 4 == 0 && (y % 100 != 0 || y % 400 == 0) then 1 else 0))
              + c.day - 1
  {
    ClosedForm(c.year);
    MonthsClosedForm(c.year, c.month);
  }

  lemma {:induction false} MonthsIncrease(y: int, a: int, b: int)
    requires 1 <= a <= b
    ensures MonthStart(y, a) <= MonthStart(y, b)
    decreases b - a
  {
    if a < b { MonthsIncrease(y, a, b - 1); }
  }

  lemma {:induction false} YearsIncrease(a: int, b: int)
    requires a <= b
    ensures DayFromYear(a) <= DayFromYear(b)
    decreases b - a
  {
    if a < b {
      YearsFollow(a);
      YearsIncrease(a + 1, b);
    }
  }

  // ---------- civil dates and day numbers are the same thing

  /** The two conversions are mutual inverses over all years. */
  lemma DayOfCivilOf(n: int)
    ensures Real(CivilOf(n)) && DayOf(CivilOf(n)) == n
  {
  }

  lemma CivilOfDayOf(c: Civil)
    requires Real(c)
    ensures CivilOf(DayOf(c)) == c
  {
    InsideYear(c);
    DayIsUnique(DayOf(c), c);
  }

  lemma DayIsUnique(n: int, c: Civil)
    requires n == DayOf(c) && 1 <= c.month <= 12
    requires 0 <= n - DayFromYear(c.year) < MonthStart(c.year, 13)
    requires MonthStart(c.year, c.month) <= n - DayFromYear(c.year) < MonthStart(c.year, c.month + 1)
    requires DayFromYear(c.year) <= n < DayFromYear(c.year + 1)
    ensures CivilOf(n) == c
  {
    YearIsUnique(n, c.year);
    MonthIsUnique(c.year, n - DayFromYear(c.year), c.month);
  }

  /** A real date lies in its month, and that in its year. */
  lemma InsideYear(c: Civil)
    requires Real(c)
    ensures 0 <= MonthStart(c.year, c.month) <= DayOf(c) - DayFromYear(c.year) < MonthStart(c.year, c.month + 1) <=
      MonthStart(c.year, 13)
    ensures DayFromYear(c.year + 1) == DayFromYear(c.year) + MonthStart(c.year, 13)
  {
    MonthsIncrease(c.year, 1, c.month);
    MonthsIncrease(c.year, c.month + 1, 13);
    MonthsFillYear(c.year);
    YearsFollow(c.year);
  }

  lemma YearIsUnique(n: int, y: int)
    requires DayFromYear(y) <= n < DayFromYear(y + 1)
    ensures YearOf(n) == y
  {
    var z := YearOf(n);
    if z < y {
      YearsIncrease(z + 1, y);
    } else if y < z {
      YearsIncrease(y + 1, z);
    }
  }

  lemma MonthIsUnique(y: int, within: int, m: int)
    requires 1 <= m <= 12 && MonthStart(y, m) <= within < MonthStart(y, m + 1)
    requires 0 <= within < MonthStart(y, 13)
    ensures MonthFrom(y, within, 1) == m
  {
    var r := MonthFrom(y, within, 1);
    if r < m {
      MonthsIncrease(y, r + 1, m);
    } else if m < r {
      MonthsIncrease(y, m + 1, r);
    }
  }

  // ---------- months

  datatype Month = Month(year: int, month: int)

  function MonthOf(c: Civil): Month {
    Month(c.year, c.month)
  }

  function Next(m: Month): Month {
    if m.month == 12 then Month(m.year + 1, 1) else Month(m.year, m.month + 1)
  }

  /** The n-th following month. */
  function Later(m: Month, n: nat): Month
    decreases n
  {
    if n == 0 then m else Later(Next(m), n - 1)
  }

  function Size(m: Month): int {
    MonthLength(m.year, m.month)
  }

  /** The day number of the first of the month. */
  function FirstDay(m: Month): int {
    DayFromYear(m.year) + MonthStart(m.year, m.month)
  }

  predicate RealMonth(m: Month) {
    1 <= m.month <= 12
  }

  lemma NextFirstDay(m: Month)
    requires RealMonth(m)
    ensures RealMonth(Next(m)) && FirstDay(Next(m)) == FirstDay(m) + Size(m) && 28 <= Size(m) <= 31
  {
    YearsFollow(m.year);
    MonthsFillYear(m.year);
  }

  lemma {:induction false} LaterIsLater(m: Month, n: nat)
    requires RealMonth(m)
    ensures RealMonth(Later(m, n)) && FirstDay(m) <= FirstDay(Later(m, n))
    ensures n > 0 ==> FirstDay(m) + Size(m) <= FirstDay(Later(m, n))
    decreases n
  {
    if n > 0 {
      NextFirstDay(m);
      LaterIsLater(Next(m), n - 1);
    }
  }

  lemma {:induction false} LaterAdds(m: Month, i: nat, j: nat)
    ensures Later(Later(m, i), j) == Later(m, i + j)
    decreases i
  {
    if i > 0 { LaterAdds(Next(m), i - 1, j); }
  }

  /** MakeDay's carry: year and a month counted from 0, of any size. */
  function Carried(year: int, month: int): Month {
    Month(year + month / 12, month % 12 + 1)
  }

  /** Carrying by division is the same as walking month by month. */
  lemma {:induction false} CarriedIsLater(m: Month, n: nat)
    requires RealMonth(m)
    ensures Carried(m.year, m.month - 1 + n) == Later(m, n)
    decreases n
  {
    if n > 0 { CarriedIsLater(Next(m), n - 1); }
  }
}
