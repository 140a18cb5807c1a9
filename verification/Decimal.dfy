/** Decimal numerals: the seven-decimal parser of PollarService and the printers whose output it reads. */
module Decimal {
  import opened Wrappers

  function Pow10(k: nat): (p: nat)
    ensures p > 0
  {
    if k == 0 then 1 else 10 * Pow10(k - 1)
  }

  /** n followed by k zeros. */
  function Shift(n: nat, k: nat): nat {
    if k == 0 then n else 10 * Shift(n, k - 1)
  }

  lemma {:induction false} ShiftScales(n: nat, k: nat)
    ensures Shift(n, k) == n * Pow10(k)
  {
    if k > 0 {
      ShiftScales(n, k - 1);
      assert 10 * (n * Pow10(k - 1)) == n * (10 * Pow10(k - 1));
    }
  }

  predicate IsDigit(c: char) {
    '0' <= c <= '9'
  }

  predicate AllDigits(s: string) {
    forall k :: 0 <= k < |s| ==> IsDigit(s[k])
  }

  function DigitValue(c: char): nat
    requires IsDigit(c)
  {
    c as int - '0' as int
  }

  function DigitChar(d: nat): (c: char)
    requires d < 10
    ensures IsDigit(c) && DigitValue(c) == d
  {
    ('0' as int + d) as char
  }

  function Value(s: string): nat
    requires AllDigits(s)
  {
    if s == "" then 0 else 10 * Value(s[..|s| - 1]) + DigitValue(s[|s| - 1])
  }

  // ---------- the parser: /^(?:0|[1-9]\d{0,8})(?:\.\d{1,7})?$/

  /** padEnd with zeros. */
  function Pad(s: string, k: nat): (p: string)
    ensures |p| == |s| + k
    ensures AllDigits(s) ==> AllDigits(p)
  {
    if k == 0 then s else Pad(s, k - 1) + ['0']
  }

  /** The position of the first point, or the length when there is none. */
  function Point(s: string): (p: nat)
    ensures p <= |s|
    ensures forall k :: 0 <= k < p ==> s[k] != '.'
    ensures p < |s| ==> s[p] == '.'
  {
    if s == "" || s[0] == '.' then 0 else 1 + Point(s[1..])
  }

  /** The numeral cut at its first point. */
  function Cut(s: string): (string, Option<string>) {
    (s[..Point(s)], if Point(s) < |s| then Some(s[Point(s) + 1..]) else None)
  }

  function Fraction(f: Option<string>): string {
    if f.Some? then f.value else ""
  }

  predicate AcceptedParts(w: string, f: Option<string>) {
    && 1 <= |w| <= 9 && AllDigits(w) && (w[0] == '0' ==> |w| == 1)
    && (f.Some? ==> 1 <= |f.value| <= 7 && AllDigits(f.value))
  }

  /** BigInt(whole) * 10_000_000n + BigInt(fraction) */
  function InUnits(whole: nat, fraction: nat): nat {
    whole * 10_000_000 + fraction
  }

  function UnitsOfParts(w: string, f: Option<string>): Option<nat> {
    if !AcceptedParts(w, f) then None
    else Some(InUnits(Value(w), Value(Pad(Fraction(f), 7 - |Fraction(f)|))))
  }

  predicate Accepted(s: string) {
    AcceptedParts(Cut(s).0, Cut(s).1)
  }

  /** `units`: the numeral in ten-millionths, or nothing when the format is refused. */
  function Units(s: string): Option<nat> {
    UnitsOfParts(Cut(s).0, Cut(s).1)
  }

  /** The rational number an accepted numeral denotes. */
  ghost function Denotes(s: string): real
    requires Accepted(s)
  {
    var f := Fraction(Cut(s).1);
    Value(Cut(s).0) as real + Value(f) as real / Pow10(|f|) as real
  }

  lemma {:induction false} ValueOfPadded(s: string, k: nat)
    requires AllDigits(s)
    ensures Value(Pad(s, k)) == Shift(Value(s), k)
  {
    if k > 0 {
      ValueOfPadded(s, k - 1);
      ValueOfAppended(Pad(s, k - 1), '0');
    }
  }

  lemma ValueOfAppended(s: string, c: char)
    requires AllDigits(s) && IsDigit(c)
    ensures AllDigits(s + [c]) && Value(s + [c]) == 10 * Value(s) + DigitValue(c)
  {
    var t := s + [c];
    assert t[..|t| - 1] == s;
  }

  /** Parsing scales the denoted number by ten million and loses nothing. */
  lemma UnitsAreExact(s: string)
    requires Accepted(s)
    ensures Units(s).value as real == Denotes(s) * 10_000_000.0
  {
    var f := Fraction(Cut(s).1);
    var v, p, q := Value(f), Pow10(|f|), Pow10(7 - |f|);
    assert Value(Pad(f, 7 - |f|)) == v * q by {
      ValueOfPadded(f, 7 - |f|);
      ShiftScales(v, 7 - |f|);
    }
    assert p * q == 10_000_000 by {
      PowSplit(|f|, 7 - |f|);
      assert Pow10(7) == 10_000_000;
    }
    ScaledQuotient(v, p, q);
  }

  lemma ScaledQuotient(v: nat, p: nat, q: nat)
    requires p > 0
    ensures v as real / p as real * (p * q) as real == (v * q) as real
  {
    assert v as real / p as real * p as real == v as real;
    assert (p * q) as real == p as real * q as real && (v * q) as real == v as real * q as real;
  }

  lemma {:induction false} PowSplit(a: nat, b: nat)
    ensures Pow10(a) * Pow10(b) == Pow10(a + b)
  {
    if a > 0 {
      PowSplit(a - 1, b);
    }
  }

  /** Two accepted numerals compare equal exactly when they denote the same rational. */
  lemma SameUnitsSameNumber(s: string, t: string)
    requires Accepted(s) && Accepted(t)
    ensures Units(s) == Units(t) <==> Denotes(s) == Denotes(t)
  {
    UnitsAreExact(s);
    UnitsAreExact(t);
    EquallyScaled(Units(s).value, Units(t).value, Denotes(s), Denotes(t));
  }

  lemma EquallyScaled(m: nat, n: nat, a: real, b: real)
    requires m as real == a * 10_000_000.0 && n as real == b * 10_000_000.0
    ensures m == n <==> a == b
  {
  }

  // ---------- the printers

  /** A natural number without leading zeros. */
  function Numeral(n: nat): (s: string)
    ensures |s| >= 1 && AllDigits(s) && (s[0] == '0' ==> |s| == 1)
  {
    if n < 10 then [DigitChar(n)] else Numeral(n / 10) + [DigitChar(n % 10)]
  }

  /** The last k digits of n, zero padded. */
  function LowDigits(n: nat, k: nat): (s: string)
    ensures |s| == k && AllDigits(s)
  {
    if k == 0 then "" else LowDigits(n / 10, k - 1) + [DigitChar(n % 10)]
  }

  /** String(cents / 100): a database amount with trailing zeros dropped. */
  function PrintCents(cents: nat): string {
    WithCents(Numeral(cents / 100), cents % 100)
  }

  function WithCents(whole: string, cents: nat): string {
    if cents == 0 then whole
    else whole + "." + CentDigits(cents)
  }

  function CentDigits(cents: nat): string {
    if cents % 10 == 0 then LowDigits(cents / 10, 1) else LowDigits(cents, 2)
  }

  /** Horizon's rendering: always seven decimals. */
  function PrintHorizon(units: nat): string {
    Numeral(units / 10_000_000) + "." + LowDigits(units % 10_000_000, 7)
  }

  lemma {:induction false} NumeralValue(n: nat)
    ensures Value(Numeral(n)) == n
  {
    if n >= 10 {
      NumeralValue(n / 10);
      ValueOfAppended(Numeral(n / 10), DigitChar(n % 10));
    } else {
      assert Value([DigitChar(n)][..0]) == 0;
    }
  }

  lemma {:induction false} NumeralLength(n: nat, k: nat)
    requires k >= 1
    ensures |Numeral(n)| <= k <==> n < Pow10(k)
  {
    if k == 1 {
      assert Pow10(1) == 10;
    } else if n >= 10 {
      NumeralLength(n / 10, k - 1);
    } else {
      assert Pow10(k) >= 10;
    }
  }

  lemma {:induction false} LowDigitsValue(n: nat, k: nat)
    ensures Value(LowDigits(n, k)) == n % Pow10(k)
  {
    if k > 0 {
      LowDigitsValue(n / 10, k - 1);
      ValueOfAppended(LowDigits(n / 10, k - 1), DigitChar(n % 10));
      ModStep(n, Pow10(k - 1));
    }
  }

  lemma ModStep(n: nat, p: nat)
    requires p > 0
    ensures n % (10 * p) == 10 * ((n / 10) % p) + n % 10
  {
    var q, r := n / 10 / p, (n / 10) % p;
    assert n / 10 == p * q + r;
    assert n == (10 * p) * q + (10 * r + n % 10) by { assert 10 * (p * q) == (10 * p) * q; }
    ModUnique(n, 10 * p, q, 10 * r + n % 10);
  }

  lemma ModUnique(n: nat, m: nat, q: nat, r: nat)
    requires n == m * q + r && r < m
    ensures n % m == r && n / m == q
  {
    var d: int := n / m - q;
    assert m * d == r - n % m by { assert n == m * (n / m) + n % m && m * (n / m) - m * q == m * d; }
    MultipleIsLarge(m, d);
  }

  lemma MultipleIsLarge(m: int, d: int)
    requires m > 0
    ensures d >= 1 ==> m * d >= m
    ensures d <= -1 ==> m * d <= -m
  {
  }

  lemma CutPrinted(w: string, f: string)
    requires AllDigits(w)
    ensures Cut(w + "." + f) == (w, Some(f)) && Cut(w) == (w, None)
  {
    CutAtPoint(w, f);
  }

  lemma CutAtPoint(w: string, f: string)
    requires '.' !in w
    ensures Cut(w + "." + f) == (w, Some(f)) && Cut(w) == (w, None)
  {
    var s := w + "." + f;
    forall k | 0 <= k < |w| ensures s[k] == w[k] != '.' {}
    assert s[|w|] == '.';
    assert Point(s) == |w| && s[..|w|] == w && s[|w| + 1..] == f;
    assert (forall k :: 0 <= k < |w| ==> w[k] != '.') && w[..|w|] == w;
  }

  lemma UnitsOfPrinted(w: string, f: string)
    requires AllDigits(w)
    ensures Units(w + "." + f) == UnitsOfParts(w, Some(f)) && Units(w) == UnitsOfParts(w, None)
  {
    CutPrinted(w, f);
  }

  /**
   The format, character by character: one to nine digits without leading zeros, and perhaps a point with one to seven
   digits more.
   */
  lemma FormatIsExact(w: string, f: string)
    requires '.' !in w
    ensures Units(w).Some? <==>
      1 <= |w| <= 9 && (forall k :: 0 <= k < |w| ==> '0' <= w[k] <= '9') && (w[0] == '0' ==> |w| == 1)
    ensures Units(w + "." + f).Some? <==>
      && 1 <= |w| <= 9 && (forall k :: 0 <= k < |w| ==> '0' <= w[k] <= '9') && (w[0] == '0' ==> |w| == 1)
      && 1 <= |f| <= 7 && forall k :: 0 <= k < |f| ==> '0' <= f[k] <= '9'
  {
    CutAtPoint(w, f);
  }

  /** A whole amount is printed without a point, any other one without a zero at its end. */
  lemma PrintedShort(cents: nat)
    ensures cents % 100 == 0 ==> '.' !in PrintCents(cents)
    ensures cents % 100 != 0 ==> |PrintCents(cents)| > 0 && PrintCents(cents)[|PrintCents(cents)| - 1] != '0'
  {
    var rest := cents % 100;
    if rest == 0 {
      assert AllDigits(PrintCents(cents));
    } else if rest % 10 == 0 {
      assert LowDigits(rest / 10, 1) == LowDigits(rest / 100, 0) + [DigitChar(rest / 10 % 10)];
    } else {
      assert LowDigits(rest, 2) == LowDigits(rest / 10, 1) + [DigitChar(rest % 10)];
    }
  }

  /** The ten digits have their usual values. */
  lemma DigitsAreDecimal(k: nat)
    requires k <= 9
    ensures "0123456789"[k] == DigitChar(k) && DigitValue("0123456789"[k]) == k
  {
  }

  /** A whole part as Numeral prints it. */
  ghost predicate Prints(w: string, whole: nat) {
    && |w| >= 1 && AllDigits(w) && (w[0] == '0' ==> |w| == 1)
    && Value(w) == whole
    && (|w| <= 9 <==> whole < 1_000_000_000)
  }

  lemma NumeralPrints(n: nat)
    ensures Prints(Numeral(n), n)
  {
    NumeralValue(n);
    NumeralLength(n, 9);
    assert Pow10(9) == 1_000_000_000;
  }

  lemma SmallPowers()
    ensures Pow10(0) == 1 && Pow10(1) == 10 && Pow10(2) == 100 && Pow10(5) == 100_000 && Pow10(6) == 1_000_000
      && Pow10(7) == 10_000_000
  {
  }

  lemma UnitsOfDigits(w: string, f: string)
    requires |w| >= 1 && AllDigits(w) && (w[0] == '0' ==> |w| == 1) && 1 <= |f| <= 7 && AllDigits(f)
    ensures Units(w + "." + f) == if |w| <= 9 then Some(InUnits(Value(w), Value(Pad(f, 7 - |f|)))) else None
  {
    UnitsOfPrinted(w, f);
    assert UnitsOfParts(w, Some(f)) == if |w| <= 9 then Some(InUnits(Value(w), Value(Pad(f, 7 - |f|)))) else None;
  }

  /**
   A printed whole part followed by printed decimals parses to what was printed, if the whole part fits nine digits.
   */
  lemma PartsParse(w: string, whole: nat, f: string, fraction: nat)
    requires Prints(w, whole) && 1 <= |f| <= 7 && AllDigits(f) && Value(Pad(f, 7 - |f|)) == fraction
    ensures Units(w + "." + f) == if whole < 1_000_000_000 then Some(InUnits(whole, fraction)) else None
  {
    UnitsOfDigits(w, f);
    var r := Units(w + "." + f);
    assert |w| <= 9 ==> r == Some(InUnits(whole, fraction));
  }

  lemma WholeParses(w: string, whole: nat)
    requires Prints(w, whole)
    ensures Units(w) == if whole < 1_000_000_000 then Some(InUnits(whole, 0)) else None
  {
    UnitsOfPrinted(w, "");
    assert Value(Pad("", 7)) == 0 by {
      ValueOfPadded("", 7);
      ShiftScales(0, 7);
    }
  }

  lemma PaddedDigits(n: nat, k: nat)
    requires k <= 7 && n < Pow10(k)
    ensures Value(Pad(LowDigits(n, k), 7 - k)) == n * Pow10(7 - k)
  {
    var f := LowDigits(n, k);
    assert Value(f) == n by {
      LowDigitsValue(n, k);
      SmallMod(n, Pow10(k));
    }
    ValueOfPadded(f, 7 - k);
    ShiftScales(n, 7 - k);
  }

  lemma SmallMod(n: nat, m: nat)
    requires n < m
    ensures n % m == n
  {
  }

  lemma CentDigitsValue(cents: nat)
    requires cents < 100
    ensures var f := CentDigits(cents); 1 <= |f| <= 2 && Value(Pad(f, 7 - |f|)) == cents * 100_000
  {
    SmallPowers();
    if cents % 10 == 0 {
      PaddedDigits(cents / 10, 1);
    } else {
      PaddedDigits(cents, 2);
    }
  }

  lemma WithCentsParses(w: string, whole: nat, cents: nat)
    requires Prints(w, whole) && cents < 100
    ensures Units(WithCents(w, cents)) == if whole < 1_000_000_000 then Some(InUnits(whole, cents * 100_000)) else None
  {
    if cents == 0 {
      WholeParses(w, whole);
    } else {
      CentDigitsValue(cents);
      PartsParse(w, whole, CentDigits(cents), cents * 100_000);
    }
  }

  /**
   Every database amount below the intent limit survives the trip through its printed form, and no other is accepted.
   */
  lemma PrintedCentsParse(cents: nat)
    ensures Units(PrintCents(cents)) == if cents < 100_000_000_000 then Some(cents * 100_000) else None
  {
    var whole, rest := cents / 100, cents % 100;
    NumeralPrints(whole);
    WithCentsParses(Numeral(whole), whole, rest);
    assert InUnits(whole, rest * 100_000) == cents * 100_000;
  }

  /** Horizon amounts parse back exactly when the whole part has at most nine digits. */
  lemma HorizonParses(units: nat)
    ensures Units(PrintHorizon(units)) == if units < 10_000_000_000_000_000 then Some(units) else None
  {
    var whole, rest := units / 10_000_000, units % 10_000_000;
    NumeralPrints(whole);
    assert Value(Pad(LowDigits(rest, 7), 0)) == rest by {
      SmallPowers();
      PaddedDigits(rest, 7);
    }
    PartsParse(Numeral(whole), whole, LowDigits(rest, 7), rest);
    assert InUnits(whole, rest) == units;
  }
}
