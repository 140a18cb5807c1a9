/** The schedule createLoan builds before it writes anything: percentage terms, or the older flat installment amount. */
module Schedule {
  import opened Wrappers
  import opened Values
  import opened Calendar
  import opened LoanCalculation
  import opened DueDates

  datatype Row = Row(amount: nat, principal: nat, dueDate: string)

  datatype Terms = Terms(capital: real, interestRate: Option<real>, installmentAmount: Option<real>, count: int,
                         startDate: string, frequency: Frequency)

  /** The percentage used; without one, the flat path runs the same calculation at zero. */
  function Rate(t: Terms): real {
    if t.interestRate.Some? then t.interestRate.value else 0.0
  }

  /** The flat amount must be present, not zero, and cover the capital over all installments. */
  predicate FlatCovers(t: Terms) {
    t.installmentAmount.Some? && t.installmentAmount.value != 0.0
      && ToCents(t.installmentAmount.value) * t.count >= ToCents(t.capital)
  }

  /**
   Within the limits, with a cent of capital for each installment and a total the column can hold; without a percentage
   an amount that, rounded to cents, covers the capital over all installments; a real start date and a known frequency.
   */
  predicate Acceptable(t: Terms) {
    && InLimits(t.capital, Rate(t), t.count)
    && t.count <= Round(t.capital * 100.0) && TotalCents(t.capital, Rate(t)) <= 99_999_999_999 * t.count
    && (t.interestRate.None? ==>
          t.installmentAmount.Some?
            && Round(t.installmentAmount.value * 100.0) * t.count >= Round(t.capital * 100.0))
    && IsDate(t.startDate) && t.frequency != OTHER
  }

  lemma AcceptableWhen(t: Terms)
    ensures Acceptable(t) <==>
      && CalculateLoan(t.capital, Rate(t), t.count).Success? && (t.interestRate.None? ==> FlatCovers(t))
      && IsDate(t.startDate) && t.frequency != OTHER
  {
    AcceptedTerms(t.capital, Rate(t), t.count);
    if CalculateLoan(t.capital, Rate(t), t.count).Success? && t.installmentAmount.Some?
        && Round(t.installmentAmount.value * 100.0) * t.count >= Round(t.capital * 100.0)
    {
      FlatCoversWhen(t.installmentAmount.value, t.capital, t.count);
    }
  }

  /** An amount of zero covers nothing. */
  lemma FlatCoversWhen(amount: real, capital: real, count: int)
    requires 1 <= count <= Round(capital * 100.0) && Round(amount * 100.0) * count >= Round(capital * 100.0)
    ensures amount != 0.0
  {
    assert Round(0.0 * 100.0) == 0;
  }

  function Amounts(rows: seq<Row>): (xs: seq<nat>)
    ensures |xs| == |rows| && forall i :: 0 <= i < |rows| ==> xs[i] == rows[i].amount
  {
    seq(|rows|, i requires 0 <= i < |rows| => rows[i].amount)
  }

  function Principals(rows: seq<Row>): (xs: seq<nat>)
    ensures |xs| == |rows| && forall i :: 0 <= i < |rows| ==> xs[i] == rows[i].principal
  {
    seq(|rows|, i requires 0 <= i < |rows| => rows[i].principal)
  }

  /** What the installments table demands of a schedule, and what a lender would. */
  ghost predicate Admissible(rows: seq<Row>, t: Terms) {
    && |rows| == t.count
    && (forall i :: 0 <= i < |rows| ==> 1 <= rows[i].principal <= rows[i].amount)
    && Sum(Principals(rows)) == Round(t.capital * 100.0) <= Sum(Amounts(rows))
    && (t.interestRate.Some? ==>
          Sum(Amounts(rows)) == TotalCents(t.capital, t.interestRate.value) && Even(Amounts(rows)))
    && (t.interestRate.None? ==> t.installmentAmount.Some? && forall i :: 0 <= i < |rows| ==>
      rows[i].amount == Round(t.installmentAmount.value * 100.0))
  }

  /** The amount of installment i on either path. */
  function AmountOf(t: Terms, plan: Plan, i: nat): nat
    requires i < |plan.amounts|
    requires t.interestRate.None? ==> t.installmentAmount.Some? && ToCents(t.installmentAmount.value) >= 0
  {
    if t.interestRate.None? then ToCents(t.installmentAmount.value) else plan.amounts[i]
  }

  /** Both paths cover every principal, so the flat path's single check on the total bounds every row. */
  lemma BothPathsCover(t: Terms)
    requires CalculateLoan(t.capital, Rate(t), t.count).Success? && (t.interestRate.None? ==> FlatCovers(t))
    ensures t.interestRate.None? ==> ToCents(t.installmentAmount.value) >= 1
    ensures var plan := CalculateLoan(t.capital, Rate(t), t.count).value;
            && |plan.amounts| == |plan.principals| == t.count
            && forall i :: 0 <= i < t.count ==> 1 <= plan.principals[i] <= AmountOf(t, plan, i)
  {
    PlanIsExact(t.capital, Rate(t), t.count);
    PlanParts(t.capital, Rate(t), t.count);
    if t.interestRate.None? {
      FlatIsPositive(ToCents(t.installmentAmount.value), t.count);
      FlatAmountCovers(ToCents(t.installmentAmount.value), ToCents(t.capital), t.count);
    }
  }

  lemma FlatIsPositive(amount: int, count: nat)
    requires amount * count >= 1
    ensures amount >= 1
  {
  }

  lemma {:induction false} FlatSum(xs: seq<nat>, amount: nat)
    requires forall i :: 0 <= i < |xs| ==> xs[i] == amount
    ensures Sum(xs) == amount * |xs|
  {
    if xs != [] {
      FlatSum(xs[..|xs| - 1], amount);
      assert amount * |xs| == amount * (|xs| - 1) + amount;
    }
  }

  /** Row i shows what the plan and the chosen path give it, on its due date. */
  predicate RowFits(t: Terms, plan: Plan, i: nat, row: Row) {
    && i < |plan.amounts| && i < |plan.principals|
    && (t.interestRate.None? ==> t.installmentAmount.Some? && ToCents(t.installmentAmount.value) >= 0)
    && row.principal == plan.principals[i] && row.amount == AmountOf(t, plan, i)
    && DueAt(t, i, row.dueDate)
  }

  predicate DueAt(t: Terms, i: nat, text: string) {
    && IsDate(t.startDate) && t.frequency != OTHER
    && Real(Due(Parse(t.startDate).value, t.frequency, i))
    && text == Sliced(Landing(Parse(t.startDate).value, t.frequency, i))
  }

  lemma RowsAreAdmissible(t: Terms, plan: Plan, rows: seq<Row>)
    requires CalculateLoan(t.capital, Rate(t), t.count) == Success(plan) && (t.interestRate.None? ==> FlatCovers(t))
    requires |rows| == t.count
    requires forall i :: 0 <= i < |rows| ==> RowFits(t, plan, i, rows[i])
    ensures Admissible(rows, t)
  {
    PlanIsExact(t.capital, Rate(t), t.count);
    RowsCover(t, plan, rows);
    assert Principals(rows) == plan.principals;
    if t.interestRate.Some? {
      assert Amounts(rows) == plan.amounts;
    } else {
      FlatSum(Amounts(rows), ToCents(t.installmentAmount.value));
    }
  }

  lemma RowsCover(t: Terms, plan: Plan, rows: seq<Row>)
    requires CalculateLoan(t.capital, Rate(t), t.count) == Success(plan) && (t.interestRate.None? ==> FlatCovers(t))
    requires |rows| == t.count
    requires forall i :: 0 <= i < |rows| ==> RowFits(t, plan, i, rows[i])
    ensures forall i :: 0 <= i < |rows| ==> 1 <= rows[i].principal <= rows[i].amount
  {
    BothPathsCover(t);
    forall i | 0 <= i < |rows| ensures 1 <= rows[i].principal <= rows[i].amount {
      assert RowFits(t, plan, i, rows[i]);
    }
  }

  /** A loan has at most fifty-two installments, so no due date runs past what a Date can hold. */
  lemma SchedulesFit(start: string, f: Frequency, i: nat)
    requires IsDate(start) && f != OTHER && i < MAX_COUNT
    ensures Representable(Parse(start).value, f, i)
  {
    var c := Parse(start).value;
    ParsePrints(start);
    ParsedInRange(start);
    FirstDayBounds(MonthOf(c));
    if f == MONTHLY {
      YearsAhead(MonthOf(c), i);
      LaterIsLater(MonthOf(c), i);
      LaterYears(MonthOf(c), i);
      FirstDayBounds(Later(MonthOf(c), i));
      NextFirstDay(Later(MonthOf(c), i));
    }
  }

  lemma {:induction false} YearsAhead(m: Month, n: nat)
    requires RealMonth(m)
    ensures Later(m, n).year <= m.year + n
    decreases n
  {
    if n > 0 { YearsAhead(Next(m), n - 1); }
  }

  /** installmentDate for row i: it fails only for a bad start date or frequency. */
  method DueDate(t: Terms, i: nat) returns (r: Option<string>)
    requires i < MAX_COUNT
    ensures r.Some? <==> IsDate(t.startDate) && t.frequency != OTHER
    ensures r.Some? ==> DueAt(t, i, r.value)
  {
    if IsDate(t.startDate) && t.frequency != OTHER { SchedulesFit(t.startDate, t.frequency, i); }
    var due := InstallmentDate(t.startDate, t.frequency, i);
    return if due.Success? then Some(due.value) else None;
  }

  /**
   Every accepted schedule is admissible and carries the due dates in order; refusal happens exactly for the terms
   that fail a named check, before any row exists.
   */
  method BuildSchedule(t: Terms) returns (r: Option<seq<Row>>)
    ensures r.Some? <==> Acceptable(t)
    ensures r.Some? ==> Admissible(r.value, t) && forall i :: 0 <= i < t.count ==> DueAt(t, i, r.value[i].dueDate)
  {
    var calculated := CalculateLoan(t.capital, Rate(t), t.count);
    AcceptableWhen(t);
    if calculated.Failure? { return None; }
    if t.interestRate.None? && !FlatCovers(t) { return None; }
    BothPathsCover(t);
    PlanParts(t.capital, Rate(t), t.count);
    r := BuildRows(t, calculated.value);
    if r.Some? { RowsAreAdmissible(t, calculated.value, r.value); }
  }

  /** Every element fits its place. */
  predicate AllAt<T>(xs: seq<T>, fits: (nat, T) -> bool) {
    forall i: nat :: i < |xs| ==> fits(i, xs[i])
  }

  lemma OneMoreFits<T>(xs: seq<T>, x: T, fits: (nat, T) -> bool)
    requires AllAt(xs, fits) && fits(|xs|, x)
    ensures AllAt(xs + [x], fits)
  {
  }

  method BuildRow(t: Terms, plan: Plan, i: nat) returns (r: Option<Row>)
    requires i < MAX_COUNT && i < |plan.amounts| && i < |plan.principals|
    requires t.interestRate.None? ==> t.installmentAmount.Some? && ToCents(t.installmentAmount.value) >= 0
    ensures r.Some? <==> IsDate(t.startDate) && t.frequency != OTHER
    ensures r.Some? ==> RowFits(t, plan, i, r.value)
  {
    var due := DueDate(t, i);
    if due.None? { return None; }
    return Some(Row(AmountOf(t, plan, i), plan.principals[i], due.value));
  }

  method BuildRows(t: Terms, plan: Plan) returns (r: Option<seq<Row>>)
    requires 1 <= t.count <= MAX_COUNT && |plan.amounts| == |plan.principals| == t.count
    requires t.interestRate.None? ==> t.installmentAmount.Some? && ToCents(t.installmentAmount.value) >= 0
    ensures r.Some? <==> IsDate(t.startDate) && t.frequency != OTHER
    ensures r.Some? ==> |r.value| == t.count && forall i :: 0 <= i < t.count ==> RowFits(t, plan, i, r.value[i])
  {
    var rows: seq<Row> := [];
    ghost var fits := (i: nat, row: Row) => RowFits(t, plan, i, row);
    for i := 0 to t.count
      invariant |rows| == i && AllAt(rows, fits)
      invariant i > 0 ==> IsDate(t.startDate) && t.frequency != OTHER
    {
      var row := BuildRow(t, plan, i);
      if row.None? { return None; }
      OneMoreFits(rows, row.value, fits);
      rows := rows + [row.value];
    }
    forall i | 0 <= i < t.count ensures RowFits(t, plan, i, rows[i]) { assert fits(i, rows[i]); }
    return Some(rows);
  }
}
