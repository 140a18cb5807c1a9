/** installmentDate: due dates computed with the in-place setters of an ECMAScript Date in UTC. */
module DueDates {
  import opened Wrappers
  import opened Calendar
  import opened Decimal

  datatype Frequency = DAILY | WEEKLY | BIWEEKLY | MONTHLY | OTHER

  datatype DateError = BAD_DATE | BAD_FREQUENCY | INVALID_TIME

  /** A time value holds at most this many days on either side of 1970. */
  const MAX_DAY: int := 100_000_000

  // ---------- ECMA-262 operations, on whole days

  /** TimeClip: outside this range the time value is invalid. */
  predicate InRange(n: int) {
    -MAX_DAY <= n <= MAX_DAY
  }

  /** MakeDay(year, month, date), months counted from 0 and carried into the year. */
  function MakeDay(year: int, month: int, date: int): int {
    FirstDay(Carried(year, month)) + date - 1
  }

  /** Date.UTC: a year from 0 to 99 means the twentieth century. */
  function Utc(year: int, month: int, date: int): int {
    MakeDay(if 0 <= year <= 99 then 1900 + year else year, month, date)
  }

  // ---------- text

  function Iso(c: Civil): (s: string)
    requires 0 <= c.year && 0 <= c.month && 0 <= c.day
    ensures |s| == 10
  {
    LowDigits(c.year, 4) + "-" + LowDigits(c.month, 2) + "-" + LowDigits(c.day, 2)
  }

  /** toISOString().slice(0, 10): years outside 0 to 9999 have a sign and six digits, and lose the day. */
  function Sliced(c: Civil): string
    requires 0 <= c.month && 0 <= c.day
  {
    if 0 <= c.year <= 9999 then Iso(c)
    else if c.year < 0 then "-" + LowDigits(-c.year, 6) + "-" + LowDigits(c.month, 2)
    else "+" + LowDigits(c.year, 6) + "-" + LowDigits(c.month, 2)
  }

  /** The text pattern of a date; month and day may still be impossible. */
  function Parse(s: string): Option<Civil> {
    if |s| == 10 && s[4] == '-' && s[7] == '-' && AllDigits(s[..4]) && AllDigits(s[5..7]) && AllDigits(s[8..])
    then Some(Civil(Value(s[..4]), Value(s[5..7]), Value(s[8..])))
    else None
  }

  /** A four-two-two digit text that names a day of the Gregorian calendar. */
  predicate IsDate(s: string) {
    Parse(s).Some? && Real(Parse(s).value)
  }

  lemma {:induction false} DigitsOfValue(s: string)
    requires AllDigits(s)
    ensures LowDigits(Value(s), |s|) == s
  {
    if s != "" {
      var head, last := s[..|s| - 1], s[|s| - 1];
      assert s == head + [last];
      DigitsOfValue(head);
      ValueOfAppended(head, last);
      DigitAppended(Value(head), DigitValue(last), |head|);
    }
  }

  lemma DigitAppended(v: nat, d: nat, k: nat)
    requires d < 10
    ensures LowDigits(10 * v + d, k + 1) == LowDigits(v, k) + [DigitChar(d)]
  {
    assert (10 * v + d) / 10 == v && (10 * v + d) % 10 == d;
  }

  lemma Pieces(a: string, b: string, c: string)
    requires |a| == 4 && |b| == 2 && |c| == 2
    ensures var s := a + "-" + b + "-" + c;
            |s| == 10 && s[..4] == a && s[4] == '-' && s[5..7] == b && s[7] == '-' && s[8..] == c
  {
  }

  lemma PrintParses(c: Civil)
    requires 0 <= c.year <= 9999 && 0 <= c.month < 100 && 0 <= c.day < 100
    ensures Parse(Iso(c)) == Some(c)
  {
    Pieces(LowDigits(c.year, 4), LowDigits(c.month, 2), LowDigits(c.day, 2));
    FieldValue(c.year, 4, 10000);
    FieldValue(c.month, 2, 100);
    FieldValue(c.day, 2, 100);
  }

  lemma FieldValue(n: nat, k: nat, limit: nat)
    requires n < limit && ((k == 2 && limit == 100) || (k == 4 && limit == 10000))
    ensures Value(LowDigits(n, k)) == n
  {
    LowDigitsValue(n, k);
    assert Pow10(k) == limit by {
      SmallPowers();
      assert Pow10(4) == 10 * (10 * Pow10(2));
    }
    SmallMod(n, limit);
  }

  lemma ParsePrints(s: string)
    requires Parse(s).Some?
    ensures 0 <= Parse(s).value.year <= 9999 && Iso(Parse(s).value) == s
  {
    DigitsOfValue(s[..4]);
    DigitsOfValue(s[5..7]);
    DigitsOfValue(s[8..]);
    assert s == s[..4] + "-" + s[5..7] + "-" + s[8..];
    LowDigitsValue(Value(s[..4]), 4);
    ValueBound(s[..4]);
  }

  lemma ValueBound(s: string)
    requires AllDigits(s) && |s| == 4
    ensures Value(s) <= 9999
  {
    ValueFits(s);
    SmallPowers();
    assert Pow10(4) == 10 * (10 * Pow10(2));
  }

  lemma {:induction false} ValueFits(s: string)
    requires AllDigits(s)
    ensures Value(s) < Pow10(|s|)
  {
    if s != "" { ValueFits(s[..|s| - 1]); }
  }

  /** A real date prints as text s exactly when s spells it. */
  lemma SlicedSpells(s: string, c: Civil)
    requires Parse(s).Some? && Real(c)
    ensures Sliced(c) == s <==> c == Parse(s).value
  {
    ParsePrints(s);
    if 0 <= c.year <= 9999 { PrintParses(c); }
  }

  /** Of the dates a Date can show, only the one it was made from prints back as it was written. */
  lemma OnlyRealDatesPrintBack(s: string, c: Civil, shown: Civil)
    requires Parse(s) == Some(c) && 1 <= c.month <= 12 && 1 <= c.day <= 31
    requires shown == CivilOf(MakeDay(c.year, c.month - 1, c.day))
    ensures Real(shown) && (Sliced(shown) == s <==> Real(c)) && (Real(c) ==> shown == c)
  {
    ShownIsReal(c);
    SpelledBack(s, shown);
  }

  lemma SpelledBack(s: string, shown: Civil)
    requires Parse(s).Some? && Real(shown) && (Real(Parse(s).value) ==> shown == Parse(s).value)
    ensures Sliced(shown) == s <==> Real(Parse(s).value)
  {
    SlicedSpells(s, shown);
  }

  lemma ShownIsReal(c: Civil)
    requires 1 <= c.month <= 12
    ensures var shown := CivilOf(MakeDay(c.year, c.month - 1, c.day));
            Real(shown) && (Real(c) ==> shown == c)
  {
    MadeDay(c);
    DayOfCivilOf(DayOf(c));
    if Real(c) { CivilOfDayOf(c); }
  }

  // ---------- months

  lemma MadeDay(c: Civil)
    requires 1 <= c.month <= 12
    ensures MakeDay(c.year, c.month - 1, c.day) == DayOf(c)
  {
    CarriedIsLater(MonthOf(c), 0);
  }

  lemma CarriedFrom(m: Month, month: int)
    requires RealMonth(m) && month >= m.month - 1
    ensures Carried(m.year, month) == Later(m, month - (m.month - 1))
  {
    CarriedIsLater(m, month - (m.month - 1));
  }

  lemma DayInMonth(m: Month, d: int)
    requires RealMonth(m) && 1 <= d <= Size(m)
    ensures CivilOf(FirstDay(m) + d - 1) == Civil(m.year, m.month, d)
  {
    CivilOfDayOf(Civil(m.year, m.month, d));
  }

  lemma FirstShown(m: Month)
    requires RealMonth(m)
    ensures CivilOf(FirstDay(m)) == Civil(m.year, m.month, 1)
  {
    NextFirstDay(m);
    DayInMonth(m, 1);
  }

  /** Day 0 of the month after m is the last day of m. */
  lemma LastDay(m: Month)
    requires RealMonth(m)
    ensures MakeDay(m.year, m.month, 0) == FirstDay(m) + Size(m) - 1
    ensures CivilOf(MakeDay(m.year, m.month, 0)).day == Size(m)
  {
    CarriedIsLater(m, 1);
    assert Later(m, 1) == Next(m);
    NextFirstDay(m);
    DayInMonth(m, Size(m));
  }

  /** Nineteen hundred years later a month has the same length, February of the year 0 excepted. */
  lemma CenturyShift(m: Month)
    requires RealMonth(m) && 0 <= m.year <= 99
    ensures Size(Month(1900 + m.year, m.month)) == if m == Month(0, 2) then 28 else Size(m)
  {
  }

  lemma FirstDayBounds(m: Month)
    requires RealMonth(m) && 0 <= m.year
    ensures -800_000 <= FirstDay(m) <= 366 * m.year + 366
  {
    ClosedForm(m.year);
    MonthsIncrease(m.year, 1, m.month);
    MonthsIncrease(m.year, m.month, 13);
    MonthsFillYear(m.year);
  }

  // ---------- where each due date should fall

  function Step(f: Frequency): int
    requires f != MONTHLY && f != OTHER
  {
    match f case DAILY => 1 case WEEKLY => 7 case BIWEEKLY => 14
  }

  function Min(a: int, b: int): int {
    if a < b then a else b
  }

  /**
   Monthly: the index-th following month, on the start's day or the month's last. Otherwise a fixed number of days
   later.
   */
  function Due(c: Civil, f: Frequency, index: nat): Civil
    requires f != OTHER
  {
    if f == MONTHLY then
      var m := Later(MonthOf(c), index);
      Civil(m.year, m.month, Min(c.day, Size(m)))
    else CivilOf(DayOf(c) + Step(f) * index)
  }

  /** The one family of dates the code clamps wrongly: the leap day of the year 0. */
  predicate LeapYearZero(c: Civil, f: Frequency, index: nat) {
    f == MONTHLY && Later(MonthOf(c), index) == Month(0, 2) && c.day >= 29
  }

  lemma MonthlyIsReal(c: Civil, index: nat)
    requires Real(c)
    ensures Real(Due(c, MONTHLY, index))
      && DayOf(Due(c, MONTHLY, index)) == FirstDay(Later(MonthOf(c), index))
      + Min(c.day, Size(Later(MonthOf(c), index))) - 1
  {
    LaterIsLater(MonthOf(c), index);
    NextFirstDay(Later(MonthOf(c), index));
  }

  /** Schedules are real dates in strictly increasing order, starting on the start date. */
  lemma DueDatesIncrease(c: Civil, f: Frequency, i: nat, j: nat)
    requires Real(c) && f != OTHER && i < j
    ensures Real(Due(c, f, i)) && Real(Due(c, f, j)) && DayOf(Due(c, f, i)) < DayOf(Due(c, f, j))
    ensures Due(c, f, 0) == c
  {
    if f == MONTHLY {
      MonthlyIncreases(c, i, j);
    } else {
      FixedIncreases(c, f, i, j);
    }
  }

  lemma {:induction false} FixedIncreases(c: Civil, f: Frequency, i: nat, j: nat)
    requires Real(c) && f != MONTHLY && f != OTHER && i < j
    ensures Real(Due(c, f, i)) && Real(Due(c, f, j)) && DayOf(Due(c, f, i)) < DayOf(Due(c, f, j))
    ensures Due(c, f, 0) == c
  {
    StepsIncrease(f, i, j);
    FixedDue(c, f, i);
    FixedDue(c, f, j);
    FixedStart(c, f);
  }

  lemma FixedDue(c: Civil, f: Frequency, i: nat)
    requires f != MONTHLY && f != OTHER
    ensures Real(Due(c, f, i)) && DayOf(Due(c, f, i)) == DayOf(c) + Step(f) * i
  {
    DayOfCivilOf(DayOf(c) + Step(f) * i);
  }

  lemma FixedStart(c: Civil, f: Frequency)
    requires Real(c) && f != MONTHLY && f != OTHER
    ensures Due(c, f, 0) == c
  {
    CivilOfDayOf(c);
  }

  lemma StepsIncrease(f: Frequency, i: nat, j: nat)
    requires f != MONTHLY && f != OTHER && i < j
    ensures Step(f) * i < Step(f) * j && Step(f) * 0 == 0
  {
  }

  lemma MonthlyIncreases(c: Civil, i: nat, j: nat)
    requires Real(c) && i < j
    ensures Real(Due(c, MONTHLY, i)) && Real(Due(c, MONTHLY, j))
      && DayOf(Due(c, MONTHLY, i)) < DayOf(Due(c, MONTHLY, j))
    ensures Due(c, MONTHLY, 0) == c
  {
    MonthlyIsReal(c, i);
    MonthlyIsReal(c, j);
    LaterIsLater(MonthOf(c), i);
    LaterAdds(MonthOf(c), i, j - i);
    LaterIsLater(Later(MonthOf(c), i), j - i);
  }

  /** The fixed steps are 1, 7 and 14 days; the monthly step keeps the start day whenever the month has it. */
  lemma DueDatesAreExact(c: Civil, f: Frequency, index: nat)
    requires Real(c) && f != OTHER
    ensures f == DAILY ==> DayOf(Due(c, f, index)) == DayOf(c) + index
    ensures f == WEEKLY ==> DayOf(Due(c, f, index)) == DayOf(c) + 7 * index
    ensures f == BIWEEKLY ==> DayOf(Due(c, f, index)) == DayOf(c) + 14 * index
    ensures f == MONTHLY ==>
      var due := Due(c, f, index);
      && 12 * due.year + due.month == 12 * c.year + c.month + index && 1 <= due.month <= 12
      && due.day == Min(c.day, LastOf(due.year, due.month))
  {
    if f == MONTHLY {
      CarriedIsLater(MonthOf(c), index);
      MonthLengths(Due(c, f, index).year, Due(c, f, index).month);
    } else {
      DayOfCivilOf(DayOf(c) + Step(f) * index);
    }
  }

  /** The last day of each month, as everyone knows it. */
  function LastOf(year: int, month: int): int
    requires 1 <= month <= 12
  {
    [31, if year % 4 == 0 && (year % 100 != 0 || year % 400 == 0) then 29 else 28,
     31, 30, 31, 30, 31, 31, 30, 31, 30, 31][month - 1]
  }

  // ---------- the Date object

  class UtcDate {
    /** Whether the time value is valid, and if so its days since 1970. */
    var valid: bool
    var day: int

    constructor (c: Civil)
      ensures day == MakeDay(c.year, c.month - 1, c.day)
      ensures valid <==> 1 <= c.month <= 12 && 1 <= c.day <= 31 && InRange(day)
    {
      day := MakeDay(c.year, c.month - 1, c.day);
      valid := 1 <= c.month <= 12 && 1 <= c.day <= 31 && InRange(MakeDay(c.year, c.month - 1, c.day));
    }

    function Shown(): Civil
      reads this
      requires valid
    {
      CivilOf(day)
    }

    method SetUTCDate(date: int)
      requires valid
      modifies this
      ensures day == FirstDay(MonthOf(old(Shown()))) + date - 1
      ensures valid <==> InRange(day)
    {
      DayOfCivilOf(day);
      MadeDay(Shown().(day := date));
      day := MakeDay(Shown().year, Shown().month - 1, date);
      valid := InRange(day);
    }

    method SetUTCMonth(month: int)
      requires valid
      modifies this
      ensures month >= old(Shown()).month - 1 ==>
        day == FirstDay(Later(MonthOf(old(Shown())), month - (old(Shown()).month - 1))) + old(Shown()).day - 1
      ensures valid <==> InRange(day)
    {
      DayOfCivilOf(day);
      if month >= Shown().month - 1 { CarriedFrom(MonthOf(Shown()), month); }
      day := MakeDay(Shown().year, month, Shown().day);
      valid := InRange(day);
    }
  }

  /** The due day, or for MONTHLY the last day of its month, is one a time value can hold. */
  predicate Representable(c: Civil, f: Frequency, index: nat)
    requires f != OTHER
  {
    InRange(if f == MONTHLY then FirstDay(Later(MonthOf(c), index)) + Size(Later(MonthOf(c), index)) - 1
      else DayOf(c) + Step(f) * index)
  }

  /** The given day of month m, or the month's last day as the code reads it. */
  function Clamped(m: Month, day: int): Civil {
    Civil(m.year, m.month, Min(day, if m == Month(0, 2) then 28 else Size(m)))
  }

  /** What the setters leave: the due date, or the 28th where the code takes the year 0 for 1900. */
  function Landing(c: Civil, f: Frequency, index: nat): Civil
    requires f != OTHER
  {
    if LeapYearZero(c, f, index) then Due(c, f, index).(day := 28) else Due(c, f, index)
  }

  /** The setters of the MONTHLY branch: back to the first, on by `index` months, then out to the clamped day. */
  method MonthlySteps(date: UtcDate, ghost c: Civil, index: nat)
    requires Real(c) && 0 <= c.year && date.valid && date.day == DayOf(c) && InRange(date.day)
    modifies date
    ensures var m := Later(MonthOf(c), index);
            && (date.valid <==> InRange(FirstDay(m) + Size(m) - 1))
            && (date.valid ==> date.day == FirstDay(m) + Clamped(m, c.day).day - 1)
  {
    StartFacts(c, index);
    var day := DayBackToFirst(date, c);
    ForwardMonths(date, MonthOf(c), index);
    if date.valid { ClampTo(date, day, Later(MonthOf(c), index)); }
  }

  method DayBackToFirst(date: UtcDate, ghost c: Civil) returns (day: int)
    requires Real(c) && date.valid && date.day == DayOf(c)
    modifies date
    ensures day == c.day && date.day == FirstDay(MonthOf(c)) && (date.valid <==> InRange(date.day))
  {
    CivilOfDayOf(c);
    day := date.Shown().day;
    date.SetUTCDate(1);
  }

  /** The MONTHLY branch lands on the due date, the leap day of the year 0 excepted. */
  method Monthly(date: UtcDate, c: Civil, index: nat)
    requires Real(c) && 0 <= c.year && date.valid && date.day == DayOf(c) && InRange(date.day)
    modifies date
    ensures date.valid <==> Representable(c, MONTHLY, index)
    ensures date.valid ==> date.Shown() == Landing(c, MONTHLY, index) && Real(Due(c, MONTHLY, index))
  {
    StartFacts(c, index);
    MonthlyIsReal(c, index);
    ClampedShown(Later(MonthOf(c), index), c.day);
    MonthlySteps(date, c, index);
  }

  lemma StartFacts(c: Civil, index: nat)
    requires Real(c) && 0 <= c.year && InRange(DayOf(c))
    ensures InRange(FirstDay(MonthOf(c)))
    ensures var m := Later(MonthOf(c), index);
            && RealMonth(m) && 0 <= m.year && Landing(c, MONTHLY, index) == Clamped(m, c.day)
            && (Representable(c, MONTHLY, index) <==> InRange(FirstDay(m) + Size(m) - 1))
            && (InRange(FirstDay(m) + Size(m) - 1) ==> InRange(FirstDay(m)))
  {
    var m := Later(MonthOf(c), index);
    LaterIsLater(MonthOf(c), index);
    LaterYears(MonthOf(c), index);
    FirstDayBounds(MonthOf(c));
    FirstInRange(m);
    LandingIsClamped(c, index);
  }

  lemma FirstInRange(m: Month)
    requires RealMonth(m) && 0 <= m.year
    ensures InRange(FirstDay(m) + Size(m) - 1) ==> InRange(FirstDay(m))
  {
    FirstDayBounds(m);
    NextFirstDay(m);
  }

  lemma LandingIsClamped(c: Civil, index: nat)
    requires Real(c)
    ensures Landing(c, MONTHLY, index) == Clamped(Later(MonthOf(c), index), c.day)
  {
  }

  lemma {:induction false} LaterYears(m: Month, n: nat)
    requires RealMonth(m)
    ensures m.year <= Later(m, n).year
    decreases n
  {
    if n > 0 { LaterYears(Next(m), n - 1); }
  }

  /** setUTCMonth(getUTCMonth() + index), on the first of a month. */
  method ForwardMonths(date: UtcDate, ghost m: Month, index: nat)
    requires RealMonth(m) && date.valid && date.day == FirstDay(m)
    modifies date
    ensures date.day == FirstDay(Later(m, index)) && (date.valid <==> InRange(date.day))
  {
    FirstShown(m);
    date.SetUTCMonth(date.Shown().month - 1 + index);
  }

  /**
   new Date(Date.UTC(...)).getUTCDate(): the last day of month m as the code reads it, if a time value can hold it.
   */
  method LastOfMonth(date: UtcDate, ghost m: Month) returns (last: Option<int>)
    requires RealMonth(m) && 0 <= m.year && date.valid && date.day == FirstDay(m) && InRange(date.day)
    ensures last.Some? <==> InRange(FirstDay(m) + Size(m) - 1)
    ensures last.Some? ==> last.value == (if m == Month(0, 2) then 28 else Size(m)) && 28 <= last.value <= Size(m)
  {
    FirstShown(m);
    ClampDay(m);
    NextFirstDay(m);
    var shown := date.Shown();
    var lastDay := Utc(shown.year, shown.month, 0);
    last := if InRange(lastDay) then Some(CivilOf(lastDay).day) else None;
  }

  /** setUTCDate on the first of month m, to a day the month has. */
  method MoveWithin(date: UtcDate, ghost m: Month, d: int)
    requires RealMonth(m) && date.valid && date.day == FirstDay(m) && 1 <= d <= Size(m)
    modifies date
    ensures date.day == FirstDay(m) + d - 1 && (date.valid <==> InRange(date.day))
  {
    FirstShown(m);
    date.SetUTCDate(d);
  }

  /** The last lines of the branch, on the first of month m. */
  method ClampTo(date: UtcDate, day: int, ghost m: Month)
    requires RealMonth(m) && 0 <= m.year && 1 <= day && date.valid && date.day == FirstDay(m) && InRange(date.day)
    modifies date
    ensures date.valid <==> InRange(FirstDay(m) + Size(m) - 1)
    ensures date.valid ==> date.day == FirstDay(m) + Clamped(m, day).day - 1
  {
    var last := LastOfMonth(date, m);
    if last.None? {
      date.valid := false;
    } else {
      MoveWithin(date, m, Min(day, last.value));
    }
  }

  lemma ClampedShown(m: Month, day: int)
    requires RealMonth(m) && 1 <= day
    ensures CivilOf(FirstDay(m) + Clamped(m, day).day - 1) == Clamped(m, day)
  {
    NextFirstDay(m);
    DayInMonth(m, Clamped(m, day).day);
  }

  /** The day number the code reads as the end of month m, and the day of the month it stands for. */
  lemma ClampDay(m: Month)
    requires RealMonth(m) && 0 <= m.year && InRange(FirstDay(m))
    ensures InRange(Utc(m.year, m.month, 0)) <==> InRange(FirstDay(m) + Size(m) - 1)
    ensures CivilOf(Utc(m.year, m.month, 0)).day == if m == Month(0, 2) then 28 else Size(m)
    ensures CivilOf(Utc(m.year, m.month, 0)).day <= Size(m)
  {
    NextFirstDay(m);
    if m.year <= 99 {
      ShiftedDay(m);
    } else {
      LastDay(m);
    }
  }

  /**
   For the years 0 to 99 the code looks at the twentieth century, where every month end is a day a time value can hold.
   */
  lemma ShiftedDay(m: Month)
    requires RealMonth(m) && 0 <= m.year <= 99
    ensures InRange(MakeDay(1900 + m.year, m.month, 0)) && InRange(FirstDay(m) + Size(m) - 1)
    ensures CivilOf(MakeDay(1900 + m.year, m.month, 0)).day == if m == Month(0, 2) then 28 else Size(m)
  {
    LastDay(Month(1900 + m.year, m.month));
    CenturyShift(m);
    EndInRange(m);
    EndInRange(Month(1900 + m.year, m.month));
  }

  lemma EndInRange(m: Month)
    requires RealMonth(m) && 0 <= m.year <= 1999
    ensures InRange(FirstDay(m) + Size(m) - 1)
  {
    FirstDayBounds(m);
    NextFirstDay(m);
  }

  /** The other branches: setUTCDate carries any number of days into months and years. */
  method FixedStep(date: UtcDate, c: Civil, frequency: Frequency, index: nat)
    requires Real(c) && date.valid && date.day == DayOf(c)
    requires frequency != MONTHLY && frequency != OTHER
    modifies date
    ensures date.valid <==> Representable(c, frequency, index)
    ensures date.valid ==> date.Shown() == Due(c, frequency, index) && Real(Due(c, frequency, index))
  {
    CivilOfDayOf(c);
    date.SetUTCDate(date.Shown().day + Step(frequency) * index);
    DayOfCivilOf(DayOf(c) + Step(frequency) * index);
  }

  method InstallmentDate(start: string, frequency: Frequency, index: nat) returns (r: Result<string, DateError>)
    ensures r == Failure(BAD_DATE) <==> !IsDate(start)
    ensures r == Failure(BAD_FREQUENCY) <==> IsDate(start) && frequency == OTHER
    ensures IsDate(start) && frequency != OTHER ==>
      var c := Parse(start).value;
      && (r.Success? <==> Representable(c, frequency, index))
      && (r.Success? ==> Real(Due(c, frequency, index)) && r.value == Sliced(Landing(c, frequency, index)))
  {
    var parsed := Parse(start);
    if parsed.None? { return Failure(BAD_DATE); }
    var date := new UtcDate(parsed.value);
    ParsedInRange(start);
    if !date.valid { return Failure(BAD_DATE); }
    OnlyRealDatesPrintBack(start, parsed.value, date.Shown());
    if Sliced(date.Shown()) != start { return Failure(BAD_DATE); }
    var c := parsed.value;
    CivilOfDayOf(c);
    if frequency == OTHER { return Failure(BAD_FREQUENCY); }
    if frequency == MONTHLY {
      Monthly(date, c, index);
    } else {
      FixedStep(date, c, frequency, index);
    }
    if !date.valid { return Failure(INVALID_TIME); }
    return Success(Sliced(date.Shown()));
  }

  /** Text and date agree exactly for results up to the year 9999 outside the leap day of the year 0. */
  lemma ResultIsRight(c: Civil, f: Frequency, index: nat)
    requires Real(c) && 0 <= c.year && f != OTHER && Real(Due(c, f, index)) && 0 <= Due(c, f, index).year
    ensures Parse(Sliced(Landing(c, f, index))) == Some(Due(c, f, index)) <==>
      Due(c, f, index).year <= 9999 && !LeapYearZero(c, f, index)
  {
    var shown := Landing(c, f, index);
    if shown.year <= 9999 {
      PrintParses(shown);
    } else {
      SignIsNoDigit(Sliced(shown));
    }
    if LeapYearZero(c, f, index) {
      assert Due(c, f, index).day == 29;
    }
  }

  // The input that goes wrong: a monthly loan from 31 January of the year 0000, one month on.
  const JANUARY_ZERO: Civil := Civil(0, 1, 31)

  /** The due date is the leap day; the code prints the 28th. */
  lemma LeapDayIsMissed(start: string)
    requires start == "0000-01-31"
    ensures Parse(start) == Some(JANUARY_ZERO) && IsDate(start) && Representable(JANUARY_ZERO, MONTHLY, 1)
    ensures Due(JANUARY_ZERO, MONTHLY, 1) == Civil(0, 2, 29)
    ensures Landing(JANUARY_ZERO, MONTHLY, 1) == Civil(0, 2, 28)
    ensures Sliced(Landing(JANUARY_ZERO, MONTHLY, 1)) == "0000-02-28"
  {
    SpellOut();
    PrintParses(JANUARY_ZERO);
    assert Later(MonthOf(JANUARY_ZERO), 1) == Month(0, 2);
    EndInRange(Month(0, 2));
  }

  lemma SpellOut()
    ensures Iso(JANUARY_ZERO) == "0000-01-31" && Iso(Civil(0, 2, 28)) == "0000-02-28"
  {
    ZeroDigits(0, 4);
    TwoDigits(1, 0, 1);
    TwoDigits(31, 3, 1);
    TwoDigits(2, 0, 2);
    TwoDigits(28, 2, 8);
  }

  lemma TwoDigits(n: nat, d: nat, e: nat)
    requires d < 10 && e < 10 && n == 10 * d + e
    ensures LowDigits(n, 2) == [DigitChar(d), DigitChar(e)]
  {
    assert n / 10 == d && n % 10 == e;
    assert LowDigits(d, 1) == [DigitChar(d)];
  }

  lemma {:induction false} ZeroDigits(n: nat, k: nat)
    requires n == 0
    ensures forall i :: 0 <= i < k ==> LowDigits(n, k)[i] == '0'
  {
    if k > 0 { ZeroDigits(n / 10, k - 1); }
  }

  lemma SignIsNoDigit(s: string)
    requires |s| == 10 && !IsDigit(s[0])
    ensures Parse(s).None?
  {
    assert s[..4][0] == s[0];
  }

  lemma ParsedInRange(s: string)
    requires Parse(s).Some?
    ensures var c := Parse(s).value;
            1 <= c.month <= 12 && 1 <= c.day <= 31 ==>
              0 <= c.year && InRange(DayOf(c)) && MakeDay(c.year, c.month - 1, c.day) == DayOf(c)
  {
    ParsePrints(s);
    var c := Parse(s).value;
    if 1 <= c.month <= 12 {
      MadeDay(c);
      FirstDayBounds(MonthOf(c));
    }
  }
}
