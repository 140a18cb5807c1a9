/** The Libreta Reliability Index, and the three services that gather its inputs. */
module Lri {
  import opened Wrappers
  import opened Values
  import R = Registry
  import D = SettlementDb

  datatype Grade = INSUFFICIENT | FAIR | GOOD | VERY_GOOD | EXCELLENT

  datatype Score = Score(lri: real, punctuality: real, completedLoans: nat, repayment: real, grade: Grade)

  /** A row with its due date, a DATE column that the services read as midnight UTC of its day. */
  datatype Dated = Dated(row: D.Installment, dueDate: Instant)

  datatype Loan = Loan(key: LoanKey, capital: nat, completed: bool, installments: seq<Dated>)

  datatype Totals = Totals(onTime: nat, paid: nat, completed: nat, repaid: nat, disbursed: nat)

  // ---------- the calculator

  function Clamp(x: real): (r: real)
    ensures 0.0 <= r <= 1.0
  {
    var low := if x < 0.0 then 0.0 else x;
    if low > 1.0 then 1.0 else low
  }

  /** A clamped share; nothing out of nothing counts as zero. */
  function Share(part: nat, whole: nat): (r: real)
    ensures 0.0 <= r <= 1.0
  {
    if whole > 0 then Clamp(part as real / whole as real) else 0.0
  }

  function RawScore(t: Totals): real {
    (0.5 * Share(t.onTime, t.paid) + 0.3 * Share(t.completed, 3) + 0.2 * Share(t.repaid, t.disbursed)) * 100.0
  }

  function Tenths(raw: real): real {
    Round(raw * 10.0) as real / 10.0
  }

  function GradeOf(lri: real): Grade {
    if lri >= 90.0 then EXCELLENT
    else if lri >= 75.0 then VERY_GOOD
    else if lri >= 60.0 then GOOD
    else if lri >= 40.0 then FAIR
    else INSUFFICIENT
  }

  function Calculate(t: Totals): Score {
    var lri := Tenths(RawScore(t));
    Score(lri, Round(Share(t.onTime, t.paid) * 1000.0) as real / 1000.0, t.completed,
          Round(Share(t.repaid, t.disbursed) * 1000.0) as real / 1000.0, GradeOf(lri))
  }

  function Rank(g: Grade): nat {
    match g case INSUFFICIENT => 0 case FAIR => 1 case GOOD => 2 case VERY_GOOD => 3 case EXCELLENT => 4
  }

  /** Rounding keeps the score in range and in order, whatever the inputs. */
  lemma ScoreInRange(t: Totals)
    ensures 0.0 <= Calculate(t).lri <= 100.0
    ensures 0.0 <= RawScore(t) <= 100.0
  {
    var raw := RawScore(t);
    assert 0 <= Round(raw * 10.0) <= 1000;
  }

  lemma RoundingIsMonotone(a: real, b: real)
    requires a <= b
    ensures Tenths(a) <= Tenths(b) && Rank(GradeOf(Tenths(a))) <= Rank(GradeOf(Tenths(b)))
  {
    assert Round(a * 10.0) <= Round(b * 10.0);
  }

  /**
   The score in whole numbers: `tenths` is the nearest integer to 500 p + 300 c + 200 d, halves up, where p, c and d are
   the punctual payments out of all, the completed loans out of three, and the repaid capital out of the disbursed one,
   none of them above one; the two rates are shown to the nearest thousandth.
   */
  lemma ScoreIsExact(t: Totals)
      returns (tenths: int, punctual: int, repaid: int, p: real, c: real, d: real)
    requires t.onTime <= t.paid
    ensures p * t.paid as real == t.onTime as real && (t.paid == 0 ==> p == 0.0)
    ensures c * 3.0 == if t.completed < 3 then t.completed as real else 3.0
    ensures t.disbursed > 0 ==>
      d * t.disbursed as real == if t.repaid < t.disbursed then t.repaid as real else t.disbursed as real
    ensures t.disbursed == 0 ==> d == 0.0
    ensures tenths as real <= 500.0 * p + 300.0 * c + 200.0 * d + 0.5 < tenths as real + 1.0
    ensures punctual as real <= 1000.0 * p + 0.5 < punctual as real + 1.0
    ensures repaid as real <= 1000.0 * d + 0.5 < repaid as real + 1.0
    ensures Calculate(t).lri == tenths as real / 10.0 && Calculate(t).completedLoans == t.completed
    ensures Calculate(t).punctuality == punctual as real / 1000.0 && Calculate(t).repayment == repaid as real / 1000.0
  {
    p, c, d := Share(t.onTime, t.paid), Share(t.completed, 3), Share(t.repaid, t.disbursed);
    PunctualShare(t, p);
    CompletedShare(t, c);
    RepaidShare(t, d);
    tenths := Weights(t, p, c, d);
    punctual, repaid := Round(p * 1000.0), Round(d * 1000.0);
    Thousandths(p);
    Thousandths(d);
  }

  lemma PunctualShare(t: Totals, p: real)
    requires t.onTime <= t.paid && p == Share(t.onTime, t.paid)
    ensures p * t.paid as real == t.onTime as real && (t.paid == 0 ==> p == 0.0)
  {
    ShareIsExact(t.onTime, t.paid);
  }

  lemma CompletedShare(t: Totals, c: real)
    requires c == Share(t.completed, 3)
    ensures c * 3.0 == if t.completed < 3 then t.completed as real else 3.0
  {
    ShareIsExact(t.completed, 3);
  }

  lemma RepaidShare(t: Totals, d: real)
    requires d == Share(t.repaid, t.disbursed)
    ensures t.disbursed > 0 ==>
      d * t.disbursed as real == if t.repaid < t.disbursed then t.repaid as real else t.disbursed as real
    ensures t.disbursed == 0 ==> d == 0.0
  {
    ShareIsExact(t.repaid, t.disbursed);
  }

  lemma Weights(t: Totals, p: real, c: real, d: real) returns (tenths: int)
    requires p == Share(t.onTime, t.paid) && c == Share(t.completed, 3) && d == Share(t.repaid, t.disbursed)
    ensures tenths as real <= 500.0 * p + 300.0 * c + 200.0 * d + 0.5 < tenths as real + 1.0
    ensures Calculate(t).lri == tenths as real / 10.0
  {
    var raw := RawScore(t);
    assert raw * 10.0 == 500.0 * p + 300.0 * c + 200.0 * d;
    tenths := Round(raw * 10.0);
  }

  lemma Thousandths(x: real)
    ensures Round(x * 1000.0) as real <= 1000.0 * x + 0.5 < Round(x * 1000.0) as real + 1.0
  {
    assert x * 1000.0 == 1000.0 * x;
  }

  lemma ShareIsExact(part: nat, whole: nat)
    ensures whole > 0 ==> Share(part, whole) * whole as real == if part < whole then part as real else whole as real
    ensures whole == 0 ==> Share(part, whole) == 0.0
  {
    if whole > 0 { Quotient(part as real, whole as real); }
  }

  lemma Quotient(a: real, b: real)
    requires a >= 0.0 && b > 0.0
    ensures a / b * b == a && (a < b <==> a / b < 1.0) && a / b >= 0.0
  {
  }

  /** Ninety, seventy-five, sixty and forty points. */
  lemma GradeBounds(t: Totals)
    ensures Calculate(t).grade == EXCELLENT <==> Calculate(t).lri >= 90.0
    ensures Calculate(t).grade == VERY_GOOD <==> 75.0 <= Calculate(t).lri < 90.0
    ensures Calculate(t).grade == GOOD <==> 60.0 <= Calculate(t).lri < 75.0
    ensures Calculate(t).grade == FAIR <==> 40.0 <= Calculate(t).lri < 60.0
    ensures Calculate(t).grade == INSUFFICIENT <==> Calculate(t).lri < 40.0
  {
  }

  /** No history earns no points. */
  lemma NoHistoryScoresZero(t: Totals)
    requires t.paid == 0 && t.completed == 0 && t.repaid == 0
    ensures Calculate(t).lri == 0.0 && Calculate(t).grade == INSUFFICIENT
  {
    assert Share(0, 3) == 0.0;
    assert RawScore(t) == 0.0;
    assert Round(0.0) == 0;
  }

  // ---------- what the loops gather

  predicate PaidOnTime(i: Dated) {
    i.row.status == D.PAID && i.row.paidDate.Some? && i.row.paidDate.value <= i.dueDate
  }

  function Add(a: Totals, b: Totals): Totals {
    Totals(a.onTime + b.onTime, a.paid + b.paid, a.completed + b.completed, a.repaid + b.repaid,
      a.disbursed + b.disbursed)
  }

  function OfInstallment(i: Dated): Totals {
    Totals(if PaidOnTime(i) then 1 else 0, if i.row.status == D.PAID then 1 else 0, 0,
      if i.row.status == D.PAID then i.row.amount else 0, 0)
  }

  function OfInstallments(xs: seq<Dated>): Totals {
    if xs == [] then Totals(0, 0, 0, 0, 0) else Add(OfInstallments(xs[..|xs| - 1]), OfInstallment(xs[|xs| - 1]))
  }

  function OfLoan(l: Loan): Totals {
    Add(Totals(0, 0, if l.completed then 1 else 0, 0, l.capital), OfInstallments(l.installments))
  }

  /** Everything the index depends on, for a borrower's loans. */
  function Gathered(loans: seq<Loan>): Totals {
    if loans == [] then Totals(0, 0, 0, 0, 0) else Add(Gathered(loans[..|loans| - 1]), OfLoan(loans[|loans| - 1]))
  }

  function CompletedCount(loans: seq<Loan>): nat {
    if loans == [] then 0 else CompletedCount(loans[..|loans| - 1]) + if loans[|loans| - 1].completed then 1 else 0
  }

  lemma {:induction false} CompletedIsGathered(loans: seq<Loan>)
    ensures Gathered(loans).completed == CompletedCount(loans)
  {
    if loans != [] {
      CompletedIsGathered(loans[..|loans| - 1]);
      NoneCompleted(loans[|loans| - 1].installments);
    }
  }

  function CapitalOf(loans: seq<Loan>): nat {
    if loans == [] then 0 else CapitalOf(loans[..|loans| - 1]) + loans[|loans| - 1].capital
  }

  lemma {:induction false} CapitalIsGathered(loans: seq<Loan>)
    ensures Gathered(loans).disbursed == CapitalOf(loans)
  {
    if loans != [] {
      CapitalIsGathered(loans[..|loans| - 1]);
      NoneCompleted(loans[|loans| - 1].installments);
    }
  }

  lemma {:induction false} NoneCompleted(xs: seq<Dated>)
    ensures OfInstallments(xs).completed == 0 && OfInstallments(xs).disbursed == 0
      && OfInstallments(xs).onTime <= OfInstallments(xs).paid
  {
    if xs != [] { NoneCompleted(xs[..|xs| - 1]); }
  }

  lemma {:induction false} OnTimeIsPaid(loans: seq<Loan>)
    ensures Gathered(loans).onTime <= Gathered(loans).paid
  {
    if loans != [] {
      OnTimeIsPaid(loans[..|loans| - 1]);
      NoneCompleted(loans[|loans| - 1].installments);
    }
  }

  // ---------- monotonicity

  lemma ShareGrows(part: nat, whole: nat)
    requires part <= whole
    ensures Share(part, whole) <= Share(part + 1, whole + 1)
  {
    if whole > 0 {
      var a, b := part as real, whole as real;
      assert a * (b + 1.0) <= (a + 1.0) * b;
      Cross(a, b, a + 1.0, b + 1.0);
    }
  }

  lemma Cross(a: real, b: real, c: real, d: real)
    requires b > 0.0 && d > 0.0 && a * d <= c * b
    ensures a / b <= c / d
  {
    assert a / b - c / d == (a * d - c * b) / (b * d);
  }

  lemma ShareOfMore(part: nat, more: nat, whole: nat)
    requires part <= more
    ensures Share(part, whole) <= Share(more, whole)
  {
    if whole > 0 { Cross(part as real, whole as real, more as real, whole as real); }
  }

  /** One more payment on time, perhaps closing loans, never lowers the score or the grade. */
  lemma BetterTotals(t: Totals, u: Totals)
    requires t.onTime <= t.paid && u.onTime == t.onTime + 1 && u.paid == t.paid + 1
    requires t.completed <= u.completed && t.repaid <= u.repaid && t.disbursed == u.disbursed
    ensures Calculate(t).lri <= Calculate(u).lri && Rank(Calculate(t).grade) <= Rank(Calculate(u).grade)
  {
    ShareGrows(t.onTime, t.paid);
    ShareOfMore(t.completed, u.completed, 3);
    ShareOfMore(t.repaid, u.repaid, t.disbursed);
    RoundingIsMonotone(RawScore(t), RawScore(u));
  }

  /** Totals a with x taken in and y taken out are totals b. */
  predicate Exchanged(b: Totals, y: Totals, a: Totals, x: Totals) {
    && a.onTime + y.onTime == b.onTime + x.onTime && a.paid + y.paid == b.paid + x.paid
    && a.completed + y.completed == b.completed + x.completed
    && a.repaid + y.repaid == b.repaid + x.repaid && a.disbursed + y.disbursed == b.disbursed + x.disbursed
  }

  lemma {:induction false} InstallmentReplaced(xs: seq<Dated>, k: nat, j: Dated)
    requires k < |xs|
    ensures Exchanged(OfInstallments(xs), OfInstallment(xs[k]), OfInstallments(xs[k := j]), OfInstallment(j))
  {
    var n := |xs| - 1;
    if k < n {
      InstallmentReplaced(xs[..n], k, j);
      assert xs[k := j][..n] == xs[..n][k := j];
    } else {
      assert xs[k := j][..n] == xs[..n];
    }
  }

  lemma {:induction false} LoanReplaced(loans: seq<Loan>, k: nat, l: Loan)
    requires k < |loans|
    ensures Exchanged(Gathered(loans), OfLoan(loans[k]), Gathered(loans[k := l]), OfLoan(l))
  {
    var n := |loans| - 1;
    if k < n {
      LoanReplaced(loans[..n], k, l);
      assert loans[k := l][..n] == loans[..n][k := l];
    } else {
      assert loans[k := l][..n] == loans[..n];
    }
  }

  /** The loans after installment k of loan l was paid, which may have completed the loan. */
  function WithPayment(loans: seq<Loan>, l: nat, k: nat, paid: Dated, completed: bool): seq<Loan>
    requires l < |loans| && k < |loans[l].installments|
  {
    loans[l := loans[l].(installments := loans[l].installments[k := paid], completed := completed)]
  }

  /**
   Paying any one unpaid installment on time, which may complete its loan, never lowers the borrower's score or grade.
   */
  lemma PayingOnTimeNeverHurts(loans: seq<Loan>, l: nat, k: nat, paid: Dated, completed: bool)
    requires l < |loans| && k < |loans[l].installments|
    requires var i := loans[l].installments[k];
             i.row.status != D.PAID && PaidOnTime(paid) && paid.row.amount == i.row.amount
    requires loans[l].completed ==> completed
    ensures var after := WithPayment(loans, l, k, paid, completed);
            && Calculate(Gathered(loans)).lri <= Calculate(Gathered(after)).lri
            && Rank(Calculate(Gathered(loans)).grade) <= Rank(Calculate(Gathered(after)).grade)
  {
    PaidTotals(loans, l, k, paid, completed);
    OnTimeIsPaid(loans);
    BetterTotals(Gathered(loans), Gathered(WithPayment(loans, l, k, paid, completed)));
  }

  /** What one payment changes in the totals: nothing but its own share. */
  lemma PaidTotals(loans: seq<Loan>, l: nat, k: nat, paid: Dated, completed: bool)
    requires l < |loans| && k < |loans[l].installments|
    requires loans[l].installments[k].row.status != D.PAID && paid.row.status == D.PAID
    ensures var t := Gathered(loans);
            var u := Gathered(WithPayment(loans, l, k, paid, completed));
            var closed := (if completed then 1 else 0) - (if loans[l].completed then 1 else 0);
            && u.onTime == t.onTime + (if PaidOnTime(paid) then 1 else 0) && u.paid == t.paid + 1
            && u.repaid == t.repaid + paid.row.amount && u.disbursed == t.disbursed
            && u.completed == t.completed + closed
  {
    var before, after := loans[l], WithPayment(loans, l, k, paid, completed)[l];
    LoanReplaced(loans, l, after);
    LoanPaid(before, after, k, paid);
  }

  lemma LoanPaid(l: Loan, m: Loan, k: nat, paid: Dated)
    requires k < |l.installments| && l.installments[k].row.status != D.PAID && paid.row.status == D.PAID
    requires m.installments == l.installments[k := paid] && m.capital == l.capital
    ensures var t, u := OfLoan(l), OfLoan(m);
            && u.onTime == t.onTime + (if PaidOnTime(paid) then 1 else 0) && u.paid == t.paid + 1
            && u.repaid == t.repaid + paid.row.amount && u.disbursed == t.disbursed
            && u.completed == t.completed + (if m.completed then 1 else 0) - (if l.completed then 1 else 0)
  {
    InstallmentReplaced(l.installments, k, paid);
  }

  // ---------- late payments

  predicate PaidLate(i: Dated) {
    i.row.status == D.PAID && !PaidOnTime(i)
  }

  /**
   What one more late payment takes from the punctuality share: the share, spread over all payments with the new one.
   */
  function PunctualityLoss(t: Totals): real {
    Share(t.onTime, t.paid) / (t.paid + 1) as real
  }

  lemma LateShare(t: Totals)
    requires t.onTime <= t.paid
    ensures Share(t.onTime, t.paid + 1) == Share(t.onTime, t.paid) - PunctualityLoss(t)
    ensures PunctualityLoss(t) > 0.0 <==> t.onTime > 0
  {
    ShareTimesWhole(t.onTime, t.paid);
    ShareTimesWhole(t.onTime, t.paid + 1);
    Spread(t.onTime as real, t.paid as real, (t.paid + 1) as real, Share(t.onTime, t.paid),
      Share(t.onTime, t.paid + 1));
  }

  lemma ShareTimesWhole(part: nat, whole: nat)
    requires part <= whole
    ensures Share(part, whole) * whole as real == part as real
    ensures Share(part, whole) > 0.0 <==> part > 0
  {
    if whole > 0 { QuotientInUnit(part as real, whole as real); }
  }

  lemma QuotientInUnit(a: real, b: real)
    requires 0.0 <= a <= b && b > 0.0
    ensures 0.0 <= a / b <= 1.0 && a / b * b == a && (a / b > 0.0 <==> a > 0.0)
  {
  }

  lemma Spread(a: real, b: real, c: real, before: real, after: real)
    requires b >= 0.0 && c == b + 1.0 && before * b == a && after * c == a
    ensures after == before - before / c
    ensures before / c > 0.0 <==> before > 0.0
  {
    var loss := before / c;
    assert loss * c == before;
    assert (before - loss) * c == before * c - loss * c == a;
    Cancel(after, before - loss, c);
  }

  lemma Cancel(x: real, y: real, c: real)
    requires c > 0.0 && x * c == y * c
    ensures x == y
  {
    assert (x - y) * c == 0.0;
  }

  /**
   A late payment lowers the punctuality share exactly when some payment was on time, and the raw score exactly when
   that loss outweighs what the payment earns in completed loans and repaid capital.
   */
  lemma PayingLateHurtsWhen(loans: seq<Loan>, l: nat, k: nat, late: Dated, completed: bool)
    requires l < |loans| && k < |loans[l].installments|
    requires loans[l].installments[k].row.status != D.PAID && PaidLate(late)
    ensures var t, u := Gathered(loans), Gathered(WithPayment(loans, l, k, late, completed));
            && (Share(u.onTime, u.paid) < Share(t.onTime, t.paid) <==> t.onTime > 0)
            && (RawScore(u) < RawScore(t) <==>
                  0.5 * PunctualityLoss(t) >
                  0.3 * (Share(u.completed, 3) - Share(t.completed, 3))
                  + 0.2 * (Share(t.repaid + late.row.amount, t.disbursed) - Share(t.repaid, t.disbursed)))
  {
    PaidTotals(loans, l, k, late, completed);
    OnTimeIsPaid(loans);
    LateTotals(Gathered(loans), Gathered(WithPayment(loans, l, k, late, completed)), late.row.amount);
  }

  lemma LateTotals(t: Totals, u: Totals, amount: nat)
    requires t.onTime <= t.paid && u.onTime == t.onTime && u.paid == t.paid + 1
    requires u.repaid == t.repaid + amount && u.disbursed == t.disbursed
    ensures Share(u.onTime, u.paid) < Share(t.onTime, t.paid) <==> t.onTime > 0
    ensures RawScore(u) < RawScore(t) <==>
      0.5 * PunctualityLoss(t) >
      0.3 * (Share(u.completed, 3) - Share(t.completed, 3))
      + 0.2 * (Share(t.repaid + amount, t.disbursed) - Share(t.repaid, t.disbursed))
  {
    LateShare(t);
    RawChanges(t, u, PunctualityLoss(t));
  }

  lemma RawChanges(t: Totals, u: Totals, loss: real)
    requires Share(u.onTime, u.paid) == Share(t.onTime, t.paid) - loss
    ensures RawScore(u) < RawScore(t) <==>
      0.5 * loss > 0.3 * (Share(u.completed, 3) - Share(t.completed, 3))
                   + 0.2 * (Share(u.repaid, u.disbursed) - Share(t.repaid, t.disbursed))
  {
    Weighed(Share(t.onTime, t.paid), Share(t.completed, 3), Share(t.repaid, t.disbursed),
            Share(u.onTime, u.paid), Share(u.completed, 3), Share(u.repaid, u.disbursed));
  }

  lemma Weighed(a: real, b: real, c: real, x: real, y: real, z: real)
    ensures (0.5 * x + 0.3 * y + 0.2 * z) * 100.0 < (0.5 * a + 0.3 * b + 0.2 * c) * 100.0 <==>
      0.5 * (a - x) > 0.3 * (y - b) + 0.2 * (z - c)
  {
  }

  // One loan repaid on time and completed, and one open installment of another, both due at instant 0.
  const PAID_ROW: D.Installment :=
    D.Installment(1, 1, 1_00, D.PAID, Some(0), Some(D.CASH), Some(D.BY_CASH), None, Some(CashReceipt(1, 1, 1_00, 7, 0)),
      D.SYNCED)
  const OPEN_ROW: D.Installment := D.Installment(2, 1, 1_00, D.PENDING, None, None, None, None, None, D.SYNC_PENDING)
  const REPAID: Loan := Loan(1, 50_00, true, [Dated(PAID_ROW, 0)])
  const RUNNING: Loan := Loan(2, 50_00, false, [Dated(OPEN_ROW, 0)])

  /** The open installment, paid at the given instant. */
  function PaidAfter(at: Instant): Dated {
    Dated(PAID_ROW.(loanId := 2, paidDate := Some(at), receiptHash := Some(CashReceipt(2, 1, 1_00, 8, at))), 0)
  }

  /** One late payment can cost two grades, however little it is late. */
  lemma PayingLateMayHurt(loans: seq<Loan>, at: Instant)
    requires |loans| == 2 && loans[0] == REPAID && loans[1] == RUNNING && at > 0
    ensures PaidLate(PaidAfter(at)) && loans[1].installments[0] == Dated(OPEN_ROW, 0)
    ensures var before := Calculate(Gathered(loans));
            before.lri == 60.2 && before.grade == GOOD
    ensures var after := Calculate(Gathered(WithPayment(loans, 1, 0, PaidAfter(at), false)));
            after.lri == 35.4 && after.grade == INSUFFICIENT
  {
    ExampleTotals(loans, at);
    assert RawScore(Totals(1, 1, 1, 1_00, 100_00)) == 60.2;
    assert RawScore(Totals(1, 2, 1, 2_00, 100_00)) == 35.4;
    assert Round(602.0) == 602 && Round(354.0) == 354;
  }

  lemma ExampleTotals(loans: seq<Loan>, at: Instant)
    requires |loans| == 2 && loans[0] == REPAID && loans[1] == RUNNING && at > 0
    ensures Gathered(loans) == Totals(1, 1, 1, 1_00, 100_00)
    ensures Gathered(WithPayment(loans, 1, 0, PaidAfter(at), false)) == Totals(1, 2, 1, 2_00, 100_00)
  {
    TwoLoans(loans, Dated(PAID_ROW, 0), Dated(OPEN_ROW, 0));
    ExampleInstallments(at);
    PaidTotals(loans, 1, 0, PaidAfter(at), false);
  }

  lemma ExampleInstallments(at: Instant)
    requires at > 0
    ensures OfInstallment(Dated(PAID_ROW, 0)) == Totals(1, 1, 0, 1_00, 0)
    ensures OfInstallment(Dated(OPEN_ROW, 0)) == Totals(0, 0, 0, 0, 0)
    ensures PaidLate(PaidAfter(at)) && PaidAfter(at).row.amount == 1_00
  {
  }

  // ---------- the due day itself

  const DAY_MS: int := 86_400_000

  /** What the documentation counts: paid on the due date or before, whatever the hour. */
  predicate OnOrBefore(i: Dated) {
    i.row.status == D.PAID && i.row.paidDate.Some? && i.row.paidDate.value / DAY_MS <= i.dueDate / DAY_MS
  }

  /** The code agrees with the documentation exactly for payments that were not made on the due day after 00:00 UTC. */
  lemma OnTimeAsDocumented(i: Dated)
    requires i.dueDate % DAY_MS == 0
    ensures PaidOnTime(i) ==> OnOrBefore(i)
    ensures (PaidOnTime(i) <==> OnOrBefore(i)) <==>
      !(i.row.status == D.PAID && i.row.paidDate.Some? && i.dueDate < i.row.paidDate.value < i.dueDate + DAY_MS)
  {
    if i.row.paidDate.Some? { SameDay(i.row.paidDate.value, i.dueDate); }
  }

  lemma SameDay(paid: int, due: int)
    requires due % DAY_MS == 0
    ensures paid / DAY_MS <= due / DAY_MS <==> paid < due + DAY_MS
  {
    var p, r, d := paid / DAY_MS, paid % DAY_MS, due / DAY_MS;
    assert paid == DAY_MS * p + r && 0 <= r < DAY_MS && due == DAY_MS * d;
  }

  /** A payment at noon of the due day counts as late and can cost two grades. */
  lemma NoonOfTheDueDay(loans: seq<Loan>)
    requires |loans| == 2 && loans[0] == REPAID && loans[1] == RUNNING
    ensures var noon := PaidAfter(DAY_MS / 2);
            && OnOrBefore(noon) && PaidLate(noon)
            && Rank(Calculate(Gathered(WithPayment(loans, 1, 0, noon, false))).grade) + 2 ==
              Rank(Calculate(Gathered(loans)).grade)
  {
    PayingLateMayHurt(loans, DAY_MS / 2);
  }

  lemma TwoLoans(loans: seq<Loan>, i: Dated, j: Dated)
    requires |loans| == 2 && loans[0].installments == [i] && loans[1].installments == [j]
    ensures var t, x, y := Gathered(loans), OfInstallment(i), OfInstallment(j);
            && t.onTime == x.onTime + y.onTime && t.paid == x.paid + y.paid && t.repaid == x.repaid + y.repaid
            && t.completed == (if loans[0].completed then 1 else 0) + (if loans[1].completed then 1 else 0)
            && t.disbursed == loans[0].capital + loans[1].capital
  {
    OneInstallment(loans[0], i);
    OneInstallment(loans[1], j);
    var first := loans[..1];
    assert first[..0] == [] && Gathered(first[..0]) == Totals(0, 0, 0, 0, 0);
    assert Gathered(first) == OfLoan(loans[0]);
  }

  lemma OneInstallment(l: Loan, i: Dated)
    requires l.installments == [i]
    ensures OfLoan(l) == Add(Totals(0, 0, if l.completed then 1 else 0, 0, l.capital), OfInstallment(i))
  {
    assert l.installments[..0] == [];
    assert OfInstallments(l.installments) == OfInstallment(i);
  }

  lemma OneMoreInstallment(xs: seq<Dated>, b: nat)
    requires b < |xs|
    ensures OfInstallments(xs[..b + 1]) == Add(OfInstallments(xs[..b]), OfInstallment(xs[b]))
  {
    assert xs[..b + 1][..b] == xs[..b];
  }

  lemma OneMoreLoan(loans: seq<Loan>, a: nat)
    requires a < |loans|
    ensures loans[..a + 1][..a] == loans[..a] && loans[..a + 1][a] == loans[a]
    ensures var t, u := Gathered(loans[..a]), OfInstallments(loans[a].installments);
            Gathered(loans[..a + 1]) == Totals(t.onTime + u.onTime, t.paid + u.paid, CompletedCount(loans[..a + 1]),
                                               t.repaid + u.repaid, t.disbursed + loans[a].capital)
  {
    assert loans[..a + 1][..a] == loans[..a];
    NoneCompleted(loans[a].installments);
    CompletedIsGathered(loans[..a + 1]);
  }

  // ---------- BorrowerService.getPassport

  method GetPassport(loans: seq<Loan>) returns (score: Score)
    ensures score == Calculate(Gathered(loans))
    ensures 0.0 <= score.lri <= 100.0
  {
    var totalPaid: nat, onTimePaid: nat, repaidCapital: nat, disbursedCapital: nat := 0, 0, 0, 0;
    for a := 0 to |loans|
      invariant Gathered(loans[..a]) ==
        Totals(onTimePaid, totalPaid, CompletedCount(loans[..a]), repaidCapital, disbursedCapital)
    {
      ghost var base := Gathered(loans[..a]);
      disbursedCapital := disbursedCapital + loans[a].capital;
      var insts := loans[a].installments;
      for b := 0 to |insts|
        invariant var t := OfInstallments(insts[..b]);
                  && onTimePaid == base.onTime + t.onTime && totalPaid == base.paid + t.paid
                  && repaidCapital == base.repaid + t.repaid
      {
        OneMoreInstallment(insts, b);
        var inst := insts[b];
        if inst.row.status == D.PAID {
          totalPaid := totalPaid + 1;
          repaidCapital := repaidCapital + inst.row.amount;
          if inst.row.paidDate.Some? && inst.row.paidDate.value <= inst.dueDate {
            onTimePaid := onTimePaid + 1;
          }
        }
      }
      assert insts[..|insts|] == insts;
      OneMoreLoan(loans, a);
    }
    assert loans[..|loans|] == loans;
    score := Calculate(Totals(onTimePaid, totalPaid, CompletedCount(loans), repaidCapital, disbursedCapital));
    ScoreInRange(Gathered(loans));
  }

  // ---------- PassportsService.getSummary

  predicate Late(i: Dated, now: Instant) {
    if i.row.status == D.PAID then !PaidOnTime(i) else i.row.status == D.OVERDUE || i.dueDate < now
  }

  // The source reads the clock once for each installment; clock(a, b) is what it shows for installment b of loan a.

  function LateInstallments(xs: seq<Dated>, a: nat, clock: (nat, nat) -> Instant): nat {
    if xs == [] then 0
    else LateInstallments(xs[..|xs| - 1], a, clock) + if Late(xs[|xs| - 1], clock(a, |xs| - 1)) then 1 else 0
  }

  function LateCount(loans: seq<Loan>, clock: (nat, nat) -> Instant): nat {
    if loans == [] then 0
    else LateCount(loans[..|loans| - 1], clock) + LateInstallments(loans[|loans| - 1].installments, |loans| - 1, clock)
  }

  /** A later clock never counts fewer: the result lies between the counts at the first and the last reading. */
  lemma {:induction false} LateCountGrows(loans: seq<Loan>, early: (nat, nat) -> Instant, late: (nat, nat) -> Instant)
    requires forall a: nat, b: nat :: early(a, b) <= late(a, b)
    ensures LateCount(loans, early) <= LateCount(loans, late)
  {
    if loans != [] {
      LateCountGrows(loans[..|loans| - 1], early, late);
      LateInstallmentsGrow(loans[|loans| - 1].installments, |loans| - 1, early, late);
    }
  }

  lemma {:induction false} LateInstallmentsGrow(
      xs: seq<Dated>, a: nat, early: (nat, nat) -> Instant, late: (nat, nat) -> Instant)
    requires forall b: nat :: early(a, b) <= late(a, b)
    ensures LateInstallments(xs, a, early) <= LateInstallments(xs, a, late)
  {
    if xs != [] {
      LateInstallmentsGrow(xs[..|xs| - 1], a, early, late);
      assert early(a, |xs| - 1) <= late(a, |xs| - 1);
    }
  }

  lemma OneMoreLate(xs: seq<Dated>, b: nat, a: nat, clock: (nat, nat) -> Instant)
    requires b < |xs|
    ensures LateInstallments(xs[..b + 1], a, clock) == LateInstallments(xs[..b], a, clock)
      + if Late(xs[b], clock(a, b)) then 1 else 0
  {
    assert xs[..b + 1][..b] == xs[..b];
  }

  lemma LateCountStep(loans: seq<Loan>, a: nat, clock: (nat, nat) -> Instant)
    requires a < |loans|
    ensures LateCount(loans[..a + 1], clock) == LateCount(loans[..a], clock)
      + LateInstallments(loans[a].installments, a, clock)
  {
    assert loans[..a + 1][..a] == loans[..a];
  }

  /** Unpaid installments that are marked OVERDUE or whose due date has passed when the clock is read for them. */
  function OpenLate(xs: seq<Dated>, a: nat, clock: (nat, nat) -> Instant): nat {
    if xs == [] then 0
    else
      var b := |xs| - 1;
      OpenLate(xs[..b], a, clock)
      + if xs[b].row.status != D.PAID && (xs[b].row.status == D.OVERDUE || xs[b].dueDate < clock(a, b)) then 1 else 0
  }

  function OpenLateOf(loans: seq<Loan>, clock: (nat, nat) -> Instant): nat {
    if loans == [] then 0
    else OpenLateOf(loans[..|loans| - 1], clock) + OpenLate(loans[|loans| - 1].installments, |loans| - 1, clock)
  }

  /** The late installments are the payments that were not on time and the open ones that are overdue. */
  lemma {:induction false} LateIsUnpunctualOrOverdue(loans: seq<Loan>, clock: (nat, nat) -> Instant)
    ensures LateCount(loans, clock) == Gathered(loans).paid - Gathered(loans).onTime + OpenLateOf(loans, clock)
  {
    if loans != [] {
      var n := |loans| - 1;
      LateIsUnpunctualOrOverdue(loans[..n], clock);
      LateOfLoan(loans[n].installments, n, clock);
    }
  }

  lemma {:induction false} LateOfLoan(xs: seq<Dated>, a: nat, clock: (nat, nat) -> Instant)
    ensures LateInstallments(xs, a, clock) ==
      OfInstallments(xs).paid - OfInstallments(xs).onTime + OpenLate(xs, a, clock)
  {
    if xs != [] { LateOfLoan(xs[..|xs| - 1], a, clock); }
  }

  /** Each PAID row counts once, with its amount, and as punctual when it was paid by its due instant. */
  lemma {:induction false} CountsOneByOne(xs: seq<Dated>)
    ensures var t := OfInstallments(xs);
            && t.paid == |PaidOf(xs)| && t.onTime == |OnTimeOf(xs)| && t.repaid == SumOf(PaidOf(xs))
            && t.completed == 0 && t.disbursed == 0
  {
    if xs != [] {
      CountsOneByOne(xs[..|xs| - 1]);
      SumOfMore(PaidOf(xs[..|xs| - 1]), xs[|xs| - 1]);
    }
  }

  lemma SumOfMore(xs: seq<Dated>, last: Dated)
    ensures SumOf(xs + [last]) == SumOf(xs) + last.row.amount && xs + [] == xs
  {
    assert (xs + [last])[..|xs|] == xs;
  }

  function PaidOf(xs: seq<Dated>): seq<Dated> {
    if xs == [] then []
    else PaidOf(xs[..|xs| - 1]) + if xs[|xs| - 1].row.status == D.PAID then [xs[|xs| - 1]] else []
  }

  function OnTimeOf(xs: seq<Dated>): seq<Dated> {
    if xs == [] then []
    else
      var last := xs[|xs| - 1];
      OnTimeOf(xs[..|xs| - 1])
      + if last.row.status == D.PAID && last.row.paidDate.Some? && last.row.paidDate.value <= last.dueDate then [last]
        else []
  }

  function SumOf(xs: seq<Dated>): nat {
    if xs == [] then 0 else SumOf(xs[..|xs| - 1]) + xs[|xs| - 1].row.amount
  }

  method GetSummary(loans: seq<Loan>, clock: (nat, nat) -> Instant)
    returns (score: Score, totalPaid: nat, overdueCount: nat)
    ensures score == Calculate(Gathered(loans))
    ensures totalPaid == Gathered(loans).paid && overdueCount == LateCount(loans, clock)
  {
    var onTimePaid: nat, totalRepaid: nat, totalFinanced: nat := 0, 0, 0;
    totalPaid, overdueCount := 0, 0;
    for a := 0 to |loans|
      invariant Gathered(loans[..a]) ==
        Totals(onTimePaid, totalPaid, CompletedCount(loans[..a]), totalRepaid, totalFinanced)
      invariant overdueCount == LateCount(loans[..a], clock)
    {
      ghost var base, late := Gathered(loans[..a]), overdueCount;
      totalFinanced := totalFinanced + loans[a].capital;
      var insts := loans[a].installments;
      for b := 0 to |insts|
        invariant var t := OfInstallments(insts[..b]);
                  && onTimePaid == base.onTime + t.onTime && totalPaid == base.paid + t.paid
                  && totalRepaid == base.repaid + t.repaid
        invariant overdueCount == late + LateInstallments(insts[..b], a, clock)
      {
        OneMoreInstallment(insts, b);
        OneMoreLate(insts, b, a, clock);
        var inst := insts[b];
        if inst.row.status == D.PAID {
          totalPaid := totalPaid + 1;
          totalRepaid := totalRepaid + inst.row.amount;
          if inst.row.paidDate.Some? && inst.row.paidDate.value <= inst.dueDate {
            onTimePaid := onTimePaid + 1;
          } else {
            overdueCount := overdueCount + 1;
          }
        } else if inst.row.status == D.OVERDUE || inst.dueDate < clock(a, b) {
          overdueCount := overdueCount + 1;
        }
      }
      assert insts[..|insts|] == insts;
      OneMoreLoan(loans, a);
      LateCountStep(loans, a, clock);
    }
    assert loans[..|loans|] == loans;
    score := Calculate(Totals(onTimePaid, totalPaid, CompletedCount(loans), totalRepaid, totalFinanced));
  }

  // ---------- PassportsService.getAuditDossier

  datatype DossierLine = DossierLine(
    number: nat, receiptHash: Option<Digest>, isDigital: bool, stellarTxHash: Option<StellarHash>,
    paidDate: Option<Instant>, hskTimestamp: Option<nat>, hskVerified: bool)

  function LineOf(i: Dated, chain: seq<R.Proof>): DossierLine {
    var found := R.FindProof(chain, i.row.number);
    DossierLine(i.row.number,
                if i.row.receiptHash.Some? then i.row.receiptHash
                else if found.Some? then Some(found.value.receiptHash) else None,
                i.row.paymentMethod == Some(D.BY_POLLAR_USDC), i.row.pollarTxHash, i.row.paidDate,
                if found.Some? then Some(found.value.timestamp) else None,
                found.Some? && i.row.receiptHash == Some(found.value.receiptHash))
  }

  function LinesOf(xs: seq<Dated>, chain: seq<R.Proof>): seq<DossierLine> {
    if xs == [] then []
    else LinesOf(xs[..|xs| - 1], chain) + if xs[|xs| - 1].row.status == D.PAID then [LineOf(xs[|xs| - 1], chain)]
      else []
  }

  // The source reads the proofs loan by loan, an await apart; view(a) is what the chain shows for loan a.

  function Dossier(loans: seq<Loan>, view: nat -> R.Storage): seq<DossierLine> {
    if loans == [] then []
    else
      var last := loans[|loans| - 1];
      Dossier(loans[..|loans| - 1], view) + LinesOf(last.installments, R.ProofsAt(view(|loans| - 1), last.key))
  }

  lemma {:induction false} LinesCount(xs: seq<Dated>, chain: seq<R.Proof>)
    ensures |LinesOf(xs, chain)| == OfInstallments(xs).paid
  {
    if xs != [] { LinesCount(xs[..|xs| - 1], chain); }
  }

  /** The dossier shows one line for each paid installment. */
  lemma {:induction false} DossierCount(loans: seq<Loan>, view: nat -> R.Storage)
    ensures |Dossier(loans, view)| == Gathered(loans).paid
  {
    if loans != [] {
      DossierCount(loans[..|loans| - 1], view);
      LinesCount(loans[|loans| - 1].installments, R.ProofsAt(view(|loans| - 1), loans[|loans| - 1].key));
    }
  }

  /**
   What a dossier line shows: the row's own number, rail, Stellar hash and payment date, the time of the proof in the
   row's place on chain, and the row's receipt or else that proof's. It is verified exactly when the chain holds this
   installment's number with this receipt.
   */
  lemma VerifiedLine(i: Dated, chain: R.Storage, key: LoanKey)
    requires R.Valid(chain)
    ensures var proofs, line := R.ProofsAt(chain, key), LineOf(i, R.ProofsAt(chain, key));
            && (line.hskVerified <==>
                  1 <= i.row.number <= |proofs| && i.row.receiptHash == Some(proofs[i.row.number - 1].receiptHash))
            && line.number == i.row.number && line.paidDate == i.row.paidDate
            && line.stellarTxHash == i.row.pollarTxHash
            && (line.isDigital <==> i.row.paymentMethod == Some(D.BY_POLLAR_USDC))
            && (1 <= i.row.number <= |proofs| ==> line.hskTimestamp == Some(proofs[i.row.number - 1].timestamp))
            && (!(1 <= i.row.number <= |proofs|) ==> line.hskTimestamp.None?)
            && (i.row.receiptHash.Some? ==> line.receiptHash == i.row.receiptHash)
            && (i.row.receiptHash.None? && 1 <= i.row.number <= |proofs| ==>
                  line.receiptHash == Some(proofs[i.row.number - 1].receiptHash))
            && (i.row.receiptHash.None? && !(1 <= i.row.number <= |proofs|) ==> line.receiptHash.None?)
  {
    var proofs := R.ProofsAt(chain, key);
    if key in chain.loans { assert R.LoanValid(chain.loans[key], proofs); }
    R.FoundProof(proofs, i.row.number, 0);
  }

  /** A line marked verified has its proof at its place on chain. */
  ghost predicate LineHolds(line: DossierLine, chain: R.Storage) {
    line.hskVerified ==>
      exists key: LoanKey ::
        && 1 <= line.number <= |R.ProofsAt(chain, key)|
        && line.receiptHash == Some(R.ProofsAt(chain, key)[line.number - 1].receiptHash)
  }

  lemma {:induction false} LinesHold(xs: seq<Dated>, proofs: seq<R.Proof>, chain: R.Storage, key: LoanKey)
    requires R.Valid(chain) && proofs <= R.ProofsAt(chain, key)
    ensures forall k :: 0 <= k < |LinesOf(xs, proofs)| ==> LineHolds(LinesOf(xs, proofs)[k], chain)
  {
    if xs != [] {
      LinesHold(xs[..|xs| - 1], proofs, chain, key);
      LineStillHolds(xs[|xs| - 1], proofs, chain, key);
    }
  }

  lemma LineStillHolds(i: Dated, proofs: seq<R.Proof>, chain: R.Storage, key: LoanKey)
    requires R.Valid(chain) && proofs <= R.ProofsAt(chain, key)
    ensures LineHolds(LineOf(i, proofs), chain)
  {
    if key in chain.loans { assert R.LoanValid(chain.loans[key], R.ProofsAt(chain, key)); }
    R.FoundProof(proofs, i.row.number, 0);
  }

  /** However far apart the loans were read, every line marked verified holds of the chain when the dossier is done. */
  lemma {:induction false} DossierHolds(loans: seq<Loan>, view: nat -> R.Storage, chain: R.Storage)
    requires R.Valid(chain) && forall a: nat :: a < |loans| ==> R.Extends(view(a), chain)
    ensures forall k :: 0 <= k < |Dossier(loans, view)| ==> LineHolds(Dossier(loans, view)[k], chain)
  {
    if loans != [] {
      var n := |loans| - 1;
      DossierHolds(loans[..n], view, chain);
      assert R.Extends(view(n), chain);
      LinesHold(loans[n].installments, R.ProofsAt(view(n), loans[n].key), chain, loans[n].key);
    }
  }

  lemma LinesStep(xs: seq<Dated>, b: nat, chain: seq<R.Proof>)
    requires b < |xs|
    ensures LinesOf(xs[..b + 1], chain) == LinesOf(xs[..b], chain) + if xs[b].row.status == D.PAID then
      [LineOf(xs[b], chain)] else []
  {
    assert xs[..b + 1][..b] == xs[..b];
  }

  method GetAuditDossier(loans: seq<Loan>, view: nat -> R.Storage) returns (score: Score, proofs: seq<DossierLine>)
    ensures score == Calculate(Gathered(loans))
    ensures proofs == Dossier(loans, view)
  {
    var totalPaid: nat, onTimePaid: nat, totalRepaid: nat, totalFinanced: nat := 0, 0, 0, 0;
    proofs := [];
    for a := 0 to |loans|
      invariant Gathered(loans[..a]) ==
        Totals(onTimePaid, totalPaid, CompletedCount(loans[..a]), totalRepaid, totalFinanced)
      invariant proofs == Dossier(loans[..a], view)
    {
      ghost var base, lines := Gathered(loans[..a]), proofs;
      totalFinanced := totalFinanced + loans[a].capital;
      var onChainProofs := R.ProofsAt(view(a), loans[a].key);
      var insts := loans[a].installments;
      for b := 0 to |insts|
        invariant var t := OfInstallments(insts[..b]);
                  && onTimePaid == base.onTime + t.onTime && totalPaid == base.paid + t.paid
                  && totalRepaid == base.repaid + t.repaid
        invariant proofs == lines + LinesOf(insts[..b], onChainProofs)
      {
        OneMoreInstallment(insts, b);
        LinesStep(insts, b, onChainProofs);
        var inst := insts[b];
        if inst.row.status == D.PAID {
          totalPaid := totalPaid + 1;
          totalRepaid := totalRepaid + inst.row.amount;
          if inst.row.paidDate.Some? && inst.row.paidDate.value <= inst.dueDate {
            onTimePaid := onTimePaid + 1;
          }
          proofs := proofs + [LineOf(inst, onChainProofs)];
        }
      }
      assert insts[..|insts|] == insts;
      OneMoreLoan(loans, a);
      assert Dossier(loans[..a + 1], view) == lines + LinesOf(insts, onChainProofs);
    }
    assert loans[..|loans|] == loans;
    score := Calculate(Totals(onTimePaid, totalPaid, CompletedCount(loans), totalRepaid, totalFinanced));
  }
}
