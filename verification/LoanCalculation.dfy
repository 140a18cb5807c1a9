/** Splitting a loan into installments, in integer cents. Monetary inputs are reals; rounding is Math.round. */
module LoanCalculation {
  import opened Wrappers
  import opened Values

  datatype TermsError = BAD_TERMS | CAPITAL_TOO_SMALL | INSTALLMENT_TOO_LARGE

  /** Every amount is a whole number of cents. */
  datatype Plan = Plan(interest: nat, total: nat, amounts: seq<nat>, principals: seq<nat>)

  const MAX_COUNT: nat := 52
  const MAX_CENTS: nat := 99_999_999_999
  const TWO_TO_53: nat := 0x20_0000_0000_0000

  function ToCents(x: real): int {
    Round(x * 100.0)
  }

  predicate TermsOk(capital: real, interestRate: real, count: int) {
    0.0 < capital <= 999999999.99 && 0.0 <= interestRate <= 1000.0 && 1 <= count <= MAX_COUNT
  }

  function InterestOn(cents: nat, rate: nat): nat {
    (cents * rate + 5000) / 10000
  }

  /** The percentage itself: rate is in hundredths of a percent. */
  function Percentage(cents: nat, rate: nat): real {
    cents as real * rate as real / 10000.0
  }

  /** The first `total % n` installments get the spare cents. */
  function Split(total: nat, n: nat): (parts: seq<nat>)
    requires n > 0
  {
    seq(n, i requires 0 <= i < n => total / n + if i < total % n then 1 else 0)
  }

  function CalculateLoan(capital: real, interestRate: real, count: int): Result<Plan, TermsError> {
    if !TermsOk(capital, interestRate, count) then Failure(BAD_TERMS)
    else
      var cents, rate := ToCents(capital), ToCents(interestRate);
      if cents < count then Failure(CAPITAL_TOO_SMALL)
      else
        var interest := InterestOn(cents, rate);
        var amounts := Split(cents + interest, count);
        if amounts[0] > MAX_CENTS then Failure(INSTALLMENT_TOO_LARGE)
        else Success(Plan(interest, cents + interest, amounts, Split(cents, count)))
  }

  // ---------- what a fair split is

  function Sum(xs: seq<nat>): nat {
    if xs == [] then 0 else Sum(xs[..|xs| - 1]) + xs[|xs| - 1]
  }

  /** Non-increasing, and no two parts more than a cent apart. */
  ghost predicate Even(xs: seq<nat>) {
    forall i, j :: 0 <= i <= j < |xs| ==> xs[j] <= xs[i] <= xs[j] + 1
  }

  /** A list that starts with k parts of m + 1 and goes on with parts of m. */
  ghost predicate Stepped(xs: seq<nat>, m: nat, k: nat) {
    forall i :: 0 <= i < |xs| ==> xs[i] == m + if i < k then 1 else 0
  }

  lemma {:induction false} SteppedSum(xs: seq<nat>, m: nat, k: nat)
    requires Stepped(xs, m, k)
    ensures Sum(xs) == m * |xs| + if k < |xs| then k else |xs|
  {
    if xs != [] {
      var rest := xs[..|xs| - 1];
      assert Stepped(rest, m, k);
      SteppedSum(rest, m, k);
      assert m * |xs| == m * |rest| + m;
    }
  }

  /** Conservation: no cent is lost or invented, and the parts are as even as cents allow. */
  lemma SplitIsExact(total: nat, n: nat)
    requires n > 0
    ensures Sum(Split(total, n)) == total
    ensures |Split(total, n)| == n && Even(Split(total, n))
  {
    assert Stepped(Split(total, n), total / n, total % n);
    SteppedSum(Split(total, n), total / n, total % n);
    assert total == (total / n) * n + total % n;
  }

  /** The split is the only even way to share the total. */
  lemma SplitIsTheOnly(xs: seq<nat>)
    requires |xs| > 0 && Even(xs)
    ensures xs == Split(Sum(xs), |xs|)
  {
    var m := xs[|xs| - 1];
    var k := StepOf(xs, m);
    SteppedSum(xs, m, k);
    QuotientIs(Sum(xs), |xs|, m, k);
  }

  lemma {:induction false} StepOf(xs: seq<nat>, m: nat) returns (k: nat)
    requires forall i, j :: 0 <= i <= j < |xs| ==> xs[j] <= xs[i]
    requires forall i :: 0 <= i < |xs| ==> m <= xs[i] <= m + 1
    ensures k <= |xs| && Stepped(xs, m, k)
    ensures xs != [] && xs[|xs| - 1] == m ==> k < |xs|
  {
    if xs == [] || xs[|xs| - 1] == m + 1 {
      k := |xs|;
    } else {
      k := StepOf(xs[..|xs| - 1], m);
    }
  }

  lemma Scaled(a: nat, b: nat, n: nat)
    ensures a <= b ==> a * n <= b * n
  {
  }

  lemma QuotientIs(t: nat, n: nat, m: nat, k: nat)
    requires k < n && t == m * n + k
    ensures t / n == m && t % n == k
  {
    assert (t / n) * n + t % n == t;
    Scaled(m + 1, t / n, n);
    Scaled(t / n + 1, m, n);
  }

  /** A larger total never gives a smaller part. */
  lemma SplitMonotone(a: nat, b: nat, n: nat)
    requires n > 0 && a <= b
    ensures forall i :: 0 <= i < n ==> Split(a, n)[i] <= Split(b, n)[i]
  {
    QuotientMonotone(a, b, n);
  }

  lemma QuotientMonotone(a: nat, b: nat, n: nat)
    requires n > 0 && a <= b
    ensures a / n < b / n || (a / n == b / n && a % n <= b % n)
  {
    assert a == (a / n) * n + a % n && b == (b / n) * n + b % n;
    Scaled(b / n + 1, a / n, n);
  }

  /** An amount that covers the total over n installments covers every part. */
  lemma FlatAmountCovers(amount: nat, total: nat, n: nat)
    requires n > 0 && amount * n >= total
    ensures forall i :: 0 <= i < n ==> Split(total, n)[i] <= amount
  {
    assert total == (total / n) * n + total % n;
    Scaled(amount + 1, total / n, n);
    assert (amount + 1) * n == amount * n + n;
    assert total / n <= amount;
    assert total / n == amount ==> (total / n) * n == amount * n;
  }

  // ---------- the plan

  /** Interest is the exact percentage of capital rounded to the nearest cent, halves up. */
  lemma InterestIsHalfUp(cents: nat, rate: nat)
    ensures InterestOn(cents, rate) == Round(Percentage(cents, rate))
    ensures 10000 * InterestOn(cents, rate) - 5000 <= cents * rate < 10000 * InterestOn(cents, rate) + 5000
  {
    var product := cents * rate;
    assert cents as real * rate as real == product as real;
    var x := product as real / 10000.0 + 0.5;
    assert x == (product + 5000) as real / 10000.0;
  }

  /** Up to 999,999,999.99 at 0 to 1000 percent, in 1 to 52 installments. */
  predicate InLimits(capital: real, interestRate: real, count: int) {
    0.0 < capital <= 999999999.99 && 0.0 <= interestRate <= 1000.0 && 1 <= count <= 52
  }

  /** Capital and interest in cents, the interest a percentage of the capital rounded half up. */
  function TotalCents(capital: real, interestRate: real): int {
    Round(capital * 100.0)
    + Round(Round(capital * 100.0) as real * Round(interestRate * 100.0) as real / 10000.0)
  }

  /** Exactly which terms are accepted, and what each refusal stands for. */
  lemma AcceptedTerms(capital: real, interestRate: real, count: int)
    ensures CalculateLoan(capital, interestRate, count).Success? <==>
      && InLimits(capital, interestRate, count)
      && count <= Round(capital * 100.0) && TotalCents(capital, interestRate) <= 99_999_999_999 * count
    ensures CalculateLoan(capital, interestRate, count) == Failure(BAD_TERMS) <==>
      !InLimits(capital, interestRate, count)
    ensures CalculateLoan(capital, interestRate, count) == Failure(CAPITAL_TOO_SMALL) <==>
      InLimits(capital, interestRate, count) && Round(capital * 100.0) < count
  {
    if TermsOk(capital, interestRate, count) && count <= ToCents(capital) {
      var total := ToCents(capital) + InterestOn(ToCents(capital), ToCents(interestRate));
      InterestIsHalfUp(ToCents(capital), ToCents(interestRate));
      FirstPartBound(total, count, MAX_CENTS);
    }
  }

  /** Cents are the nearest ones, halves up. */
  lemma CentsAreNearest(x: real)
    ensures ToCents(x) as real <= x * 100.0 + 0.5 < ToCents(x) as real + 1.0
  {
  }

  lemma FirstPartBound(total: nat, n: nat, limit: nat)
    requires n > 0
    ensures Split(total, n)[0] <= limit <==> total <= limit * n
  {
    assert total == (total / n) * n + total % n;
    if total <= limit * n {
      FlatAmountCovers(limit, total, n);
    } else if Split(total, n)[0] <= limit {
      SplitIsExact(total, n);
      SumBound(Split(total, n), limit);
    }
  }

  lemma {:induction false} SumBound(xs: seq<nat>, limit: nat)
    requires forall i :: 0 <= i < |xs| ==> xs[i] <= limit
    ensures Sum(xs) <= limit * |xs|
  {
    if xs != [] {
      SumBound(xs[..|xs| - 1], limit);
      assert limit * |xs| == limit * (|xs| - 1) + limit;
    }
  }

  /** Every accepted plan: exact sums, even parts, and one check on the first installment that bounds them all. */
  lemma PlanIsExact(capital: real, interestRate: real, count: int)
    requires CalculateLoan(capital, interestRate, count).Success?
    ensures var plan := CalculateLoan(capital, interestRate, count).value;
            var cents := Round(capital * 100.0);
            && 0 <= cents && 0 <= Round(interestRate * 100.0)
            && |plan.amounts| == |plan.principals| == count
            && plan.total == cents + plan.interest == Sum(plan.amounts) && Sum(plan.principals) == cents
            && plan.interest == Round(cents as real * Round(interestRate * 100.0) as real / 10000.0)
            && plan.total == TotalCents(capital, interestRate)
            && Even(plan.amounts) && Even(plan.principals)
            && (forall i :: 0 <= i < count ==> 1 <= plan.principals[i] <= plan.amounts[i] <= 99_999_999_999)
  {
    PlanParts(capital, interestRate, count);
    InterestIsHalfUp(ToCents(capital), ToCents(interestRate));
    SharesFit(ToCents(capital), InterestOn(ToCents(capital), ToCents(interestRate)), count);
  }

  lemma PlanParts(capital: real, interestRate: real, count: int)
    requires CalculateLoan(capital, interestRate, count).Success?
    ensures 1 <= count <= ToCents(capital) && 0 <= ToCents(interestRate)
    ensures var cents, interest := ToCents(capital), InterestOn(ToCents(capital), ToCents(interestRate));
            && Split(cents + interest, count)[0] <= MAX_CENTS
            && CalculateLoan(capital, interestRate, count).value ==
              Plan(interest, cents + interest, Split(cents + interest, count), Split(cents, count))
  {
  }

  lemma SharesFit(cents: nat, interest: nat, n: nat)
    requires 1 <= n <= cents && Split(cents + interest, n)[0] <= MAX_CENTS
    ensures var amounts, principals := Split(cents + interest, n), Split(cents, n);
            && |amounts| == |principals| == n
            && Sum(amounts) == cents + interest && Sum(principals) == cents && Even(amounts) && Even(principals)
            && forall i :: 0 <= i < n ==> 1 <= principals[i] <= amounts[i] <= MAX_CENTS
  {
    SplitIsExact(cents + interest, n);
    SplitIsExact(cents, n);
    SplitMonotone(cents, cents + interest, n);
    SplitMonotone(n, cents, n);
    QuotientIs(n, n, 1, 0);
    forall i | 0 <= i < n ensures 1 <= Split(cents, n)[i] && Split(cents + interest, n)[i] <= MAX_CENTS {
      assert Split(cents + interest, n)[i] <= Split(cents + interest, n)[0];
      assert Split(n, n)[i] == 1;
    }
  }

  /** Number() of any of the big integers is exact. */
  lemma NoPrecisionIsLost(capital: real, interestRate: real, count: int)
    requires TermsOk(capital, interestRate, count)
    ensures 0 <= ToCents(capital) <= MAX_CENTS && 0 <= ToCents(interestRate) <= 100_000
    ensures ToCents(capital) + InterestOn(ToCents(capital), ToCents(interestRate)) < TWO_TO_53
  {
    var cents, rate := ToCents(capital), ToCents(interestRate);
    assert cents * rate <= MAX_CENTS * 100_000 by {
      assert cents * rate <= cents * 100_000;
    }
    InterestIsHalfUp(cents, rate);
  }
}
