/** Money in integer cents, and the rounding the code applies to it.

    The source rounds with `round2(x) = Math.round((x + EPSILON) * 100) / 100`
    on euro amounts, and with `Number(x.toFixed(2))` in the checkout display.
    In cents both become "round half up" of a quotient: `RoundDiv(n, d)` is
    the integer nearest to n/d, halves going up, which is what `Math.round`
    does. A value that is already a whole number of cents is unchanged by
    round2, so sums and products of cent amounts need no rounding. */
module Money {
  import opened Common

  /** An amount of money in cents. */
  type Cents = int

  /** round(n / d) with halves rounded up, for a positive divisor. */
  function RoundDiv(n: int, d: int): (r: int)
    requires d > 0
    ensures 2 * n - d < 2 * d * r <= 2 * n + d
  {
    (2 * n + d) / (2 * d)
  }

  /** The bound of RoundDiv determines it: it is the one nearest integer. */
  lemma RoundDivUnique(n: int, d: int, r: int)
    requires d > 0
    requires 2 * n - d < 2 * d * r <= 2 * n + d
    ensures r == RoundDiv(n, d)
  {
    var q := RoundDiv(n, d);
    assert 2 * d * (r - q) == 2 * d * r - 2 * d * q;
    SmallMultiple(2 * d, r - q);
  }

  lemma MulMono(k: int, a: int, b: int)
    requires k >= 0 && a <= b
    ensures k * a <= k * b
  {
    assert k * b - k * a == k * (b - a);
  }

  /** The only multiple of k strictly between -k and k is 0. */
  lemma SmallMultiple(k: int, x: int)
    requires k > 0 && -k < k * x < k
    ensures x == 0
  {
    if x >= 1 {
      MulMono(k, 1, x);
    } else if x <= -1 {
      MulMono(k, x, -1);
    }
  }

  /** Rounding a whole number of units is exact. */
  lemma RoundDivExact(n: int, d: int)
    requires d > 0
    ensures RoundDiv(n * d, d) == n
  {
    assert 2 * (n * d) - d < 2 * d * n <= 2 * (n * d) + d;
    RoundDivUnique(n * d, d, n);
  }

  /** Rounding is monotone in the numerator. */
  lemma RoundDivMono(n: int, m: int, d: int)
    requires d > 0 && n <= m
    ensures RoundDiv(n, d) <= RoundDiv(m, d)
  {
    var a, b := RoundDiv(n, d), RoundDiv(m, d);
    assert 2 * d * (a - b) == 2 * d * a - 2 * d * b;
    if a - b >= 1 {
      MulMono(2 * d, 1, a - b);
    }
  }

  /** A share n/d of a non-negative amount, rounded, is between 0 and n when d >= 1. */
  lemma RoundDivBounds(n: int, d: int)
    requires d >= 1 && n >= 0
    ensures 0 <= RoundDiv(n, d) <= n
  {
    RoundDivExact(0, d);
    RoundDivMono(0, n, d);
    RoundDivExact(n, d);
    assert n <= n * d by { MulMono(n, 1, d); }
    RoundDivMono(n, n * d, d);
  }

  /** `round2(total * (wert / 100))` where the percentage `wert` is given in
      hundredths of a percent. */
  function PercentOf(total: Cents, wertHundredths: int): Cents {
    RoundDiv(total * wertHundredths, 10000)
  }

  /** A percentage between 0 and 100 gives a share between 0 and the total;
      100 % gives all of it. */
  lemma PercentOfBounds(total: Cents, w: int)
    requires total >= 0 && 0 <= w <= 10000
    ensures 0 <= PercentOf(total, w) <= total
    ensures w == 10000 ==> PercentOf(total, w) == total
  {
    RoundDivExact(0, 10000);
    MulMono(total, 0, w);
    RoundDivMono(0, total * w, 10000);
    MulMono(total, w, 10000);
    RoundDivMono(total * w, total * 10000, 10000);
    RoundDivExact(total, 10000);
  }

  /** `round2(gross / 1.19)`: the net part of a gross amount at 19 % VAT. */
  function NetOfGross(gross: Cents): Cents {
    RoundDiv(gross * 100, 119)
  }

  /** The net part is the nearest cent to gross/1.19 and, for a non-negative
      gross amount, lies between 0 and the gross amount. */
  lemma NetOfGrossBounds(gross: Cents)
    requires gross >= 0
    ensures 0 <= NetOfGross(gross) <= gross
    ensures 200 * gross - 119 < 238 * NetOfGross(gross) <= 200 * gross + 119
  {
    assert gross * 100 >= 0;
    RoundDivExact(0, 119);
    RoundDivMono(0, gross * 100, 119);
    RoundDivMono(gross * 100, gross * 119, 119);
    RoundDivExact(gross, 119);
  }

  // ---------------------------------------------------------------------
  // JS arithmetic on possibly non-finite numbers (NaN propagates).

  function NumMul(a: Num, b: Num): (r: Num)
    ensures r.Fin? <==> a.Fin? && b.Fin?
  {
    if a.Fin? && b.Fin? then Fin(a.v * b.v) else NaN
  }

  function NumSub(a: Num, b: Num): (r: Num)
    ensures r.Fin? <==> a.Fin? && b.Fin?
  {
    if a.Fin? && b.Fin? then Fin(a.v - b.v) else NaN
  }

  /** `Math.max(a, b)`: NaN when either argument is NaN. */
  function NumMax(a: Num, b: Num): (r: Num)
    ensures r.Fin? <==> a.Fin? && b.Fin?
    ensures r.Fin? ==> r.v >= a.v && r.v >= b.v && (r.v == a.v || r.v == b.v)
  {
    if a.Fin? && b.Fin? then Fin(if a.v >= b.v then a.v else b.v) else NaN
  }

  /** `Math.min(a, b)`: NaN when either argument is NaN. */
  function NumMin(a: Num, b: Num): (r: Num)
    ensures r.Fin? <==> a.Fin? && b.Fin?
    ensures r.Fin? ==> r.v <= a.v && r.v <= b.v && (r.v == a.v || r.v == b.v)
  {
    if a.Fin? && b.Fin? then Fin(if a.v <= b.v then a.v else b.v) else NaN
  }

  /** `Math.max(1, Number(x || 1))`: at least 1, 1 by default, NaN for a
      value that is not a number. */
  function AtLeastOne(x: JsVal): (n: Num)
    ensures n.Fin? ==> n.v >= 1
    ensures !Truthy(x) ==> n == Fin(1)
    ensures Truthy(x) && ToNumber(x).Fin? ==> n == Fin(if ToNumber(x).v >= 1 then ToNumber(x).v else 1)
    ensures Truthy(x) && ToNumber(x).NaN? ==> n.NaN?
  {
    NumMax(Fin(1), ToNumber(Or(x, NumV(Fin(1)))))
  }

  /** `a > 0` (false for NaN). */
  predicate NumPositive(a: Num) {
    a.Fin? && a.v > 0
  }

  // ---------------------------------------------------------------------
  // Decimal amounts as the payment provider sends them ("12.34")

  /** A decimal number `mantissa / 10^scale` (in euros). */
  datatype Amount = Amount(mantissa: int, scale: nat)

  function Pow10(n: nat): (p: nat)
    ensures p >= 1
  {
    if n == 0 then 1 else 10 * Pow10(n - 1)
  }

  /** Position of the first `c` in `s`, or `|s|` when there is none. */
  function IndexOf(s: string, c: char): (k: nat)
    ensures k <= |s| && c !in s[..k]
    ensures k < |s| ==> s[k] == c
  {
    if s == [] then 0
    else if s[0] == c then 0
    else
      var k := 1 + IndexOf(s[1..], c);
      assert s[..k] == [s[0]] + s[1..][..k - 1];
      k
  }

  /** An unsigned decimal numeral: digits, optionally a point and more digits,
      at least one digit in all. */
  function ParseUnsignedAmount(u: string): Option<Amount> {
    var k := IndexOf(u, '.');
    var whole := u[..k];
    var frac := if k < |u| then u[k + 1..] else "";
    if |whole| + |frac| >= 1 && AllDigits(whole) && AllDigits(frac) then
      Some(Amount(DigitValue(whole + frac), |frac|))
    else None
  }

  /** `Number(s)` for a decimal amount string: surrounding whitespace is
      ignored, the empty string is 0, an optional sign and a decimal numeral
      give that value, anything else is NaN (None). */
  function ParseAmount(s: string): (r: Option<Amount>)
    ensures IsBlank(s) ==> r == Some(Amount(0, 0))
  {
    var t := Trim(s);
    if t == "" then Some(Amount(0, 0))
    else if t[0] == '-' || t[0] == '+' then
      match ParseUnsignedAmount(t[1..])
      case None => None
      case Some(a) => Some(if t[0] == '-' then Amount(-a.mantissa, a.scale) else a)
    else ParseUnsignedAmount(t)
  }

  /** `|value - expected| <= 0.01` for a decimal value in euros and an
      expected amount in cents, computed exactly. */
  predicate WithinOneCent(a: Amount, expected: Cents) {
    var p: int := Pow10(a.scale);
    -p <= 100 * a.mantissa - expected * p <= p
  }

  /** For a value given to the cent ("12.34") the tolerance is one cent
      either way; for a whole-euro value ("12") only the exact amount in
      cents matches up to one cent. */
  lemma WithinOneCentOfCents(m: int, e: Cents)
    ensures WithinOneCent(Amount(m, 2), e) <==> -1 <= m - e <= 1
    ensures WithinOneCent(Amount(m, 0), e) <==> -1 <= 100 * m - e <= 1
  {
    assert Pow10(2) == 100 by { assert Pow10(1) == 10; }
  }

  /** The cents numeral "E.CC" of a non-negative amount reads back as that
      amount with scale 2. */
  lemma ParseCentsNumeral(euros: nat, cents: nat)
    requires cents < 100
    ensures var s := NatToString(euros) + "." + [DigitChar(cents / 10), DigitChar(cents % 10)];
      ParseAmount(s) == Some(Amount(100 * euros + cents, 2))
  {
    var w := NatToString(euros);
    var f := [DigitChar(cents / 10), DigitChar(cents % 10)];
    NumeralNoSpace(w, f);
    ParseUnsignedNumeral(w + "." + f);
    ParseUnsignedPoint(w, f);
    DigitValueOfNatToString(euros);
    DigitValueAppend(w, f);
    assert 10 * (cents / 10) + cents % 10 == cents;
  }

  /** A numeral without whitespace that starts with a digit is read unsigned. */
  lemma ParseUnsignedNumeral(s: string)
    requires s != [] && IsDigit(s[0])
    requires forall i :: 0 <= i < |s| ==> !IsSpace(s[i])
    ensures ParseAmount(s) == ParseUnsignedAmount(s)
  {
    TrimNoSpace(s);
  }

  lemma NumeralNoSpace(w: string, f: string)
    requires AllDigits(w) && AllDigits(f)
    ensures forall i :: 0 <= i < |w + "." + f| ==> !IsSpace((w + "." + f)[i])
  {
    var s := w + "." + f;
    forall i | 0 <= i < |s| ensures !IsSpace(s[i]) {
      if i < |w| { assert s[i] == w[i]; }
      else if i > |w| { assert s[i] == f[i - |w| - 1]; }
    }
  }

  lemma ParseUnsignedPoint(w: string, f: string)
    requires AllDigits(w) && AllDigits(f) && |w| >= 1
    ensures AllDigits(w + f)
    ensures ParseUnsignedAmount(w + "." + f) == Some(Amount(DigitValue(w + f), |f|))
  {
    var s := w + "." + f;
    assert s[|w|] == '.';
    assert s[..|w|] == w;
    assert '.' !in w;
    IndexOfFirst(s, '.', |w|);
    assert s[|w| + 1..] == f;
  }

  /** The first occurrence is found when nothing before it matches. */
  lemma {:induction false} IndexOfFirst(s: string, c: char, k: nat)
    requires k < |s| && s[k] == c && c !in s[..k]
    ensures IndexOf(s, c) == k
  {
    if k > 0 {
      assert s[0] in s[..k];
      assert s[1..][..k - 1] == s[..k][1..];
      IndexOfFirst(s[1..], c, k - 1);
    }
  }

  /** Appending two digits multiplies by 100 and adds their value. */
  lemma DigitValueAppend(w: string, f: string)
    requires AllDigits(w) && AllDigits(f) && |f| == 2
    ensures AllDigits(w + f)
    ensures DigitValue(w + f) == 100 * DigitValue(w) + 10 * (f[0] as int - '0' as int) + (f[1] as int - '0' as int)
  {
    var s := w + f;
    assert s[..|s| - 1] == w + [f[0]];
    assert (w + [f[0]])[..|w|] == w;
  }
}
