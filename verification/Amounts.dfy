/** Decimal amounts: the text a client sends, the canonical six-decimal text that is stored and hashed,
    and the base units a token transfer carries. */
module Amounts {
  import opened Options

  const USDT_DECIMALS := 6

  function Pow10(n: nat): (p: nat)
    ensures p >= 1
  {
    if n == 0 then 1 else 10 * Pow10(n - 1)
  }

  lemma {:induction false} Pow10Add(a: nat, b: nat)
    ensures Pow10(a + b) == Pow10(a) * Pow10(b)
  {
    if a > 0 {
      Pow10Add(a - 1, b);
    }
  }

  /** A finite decimal number is `coefficient` times ten to the `exponent`. */
  datatype Number = Finite(coefficient: int, exponent: int) | NotANumber

  predicate IsDigit(c: char) {
    '0' <= c <= '9'
  }

  function DigitValue(c: char): nat
    requires IsDigit(c)
  {
    c as int - '0' as int
  }

  predicate AllDigits(s: string) {
    forall i :: 0 <= i < |s| ==> IsDigit(s[i])
  }

  /** The length of the longest prefix of digits. */
  function DigitRun(s: string): (n: nat)
    ensures n <= |s| && AllDigits(s[..n]) && (n < |s| ==> !IsDigit(s[n]))
  {
    if s == "" || !IsDigit(s[0]) then 0
    else
      var rest := DigitRun(s[1..]);
      assert s[..1 + rest] == [s[0]] + s[1..][..rest];
      1 + rest
  }

  function NumberOf(s: string): nat
    requires AllDigits(s)
  {
    if s == "" then 0 else NumberOf(s[..|s| - 1]) * 10 + DigitValue(s[|s| - 1])
  }

  function Signed(negative: bool, magnitude: nat): int {
    if negative then 0 - magnitude else magnitude
  }

  /** Integer digits and, after a point, fraction digits; `scale` counts the latter. */
  datatype Mantissa = Mantissa(digits: string, scale: nat, rest: string)

  function ReadMantissa(s: string): (m: Mantissa)
    ensures AllDigits(m.digits)
  {
    var whole := DigitRun(s);
    if whole < |s| && s[whole] == '.' then
      var after := s[whole + 1..];
      var run := DigitRun(after);
      Mantissa(s[..whole] + after[..run], run, after[run..])
    else Mantissa(s[..whole], 0, s[whole..])
  }

  /** The exponent part: empty, or `e` with an optional sign and at least one digit. */
  function ReadExponent(s: string): Option<int> {
    if s == "" then Some(0)
    else if s[0] != 'e' && s[0] != 'E' then None
    else
      var negative := |s| > 1 && s[1] == '-';
      var digits := if |s| > 1 && (s[1] == '-' || s[1] == '+') then s[2..] else s[1..];
      if digits == "" || DigitRun(digits) < |digits| then None
      else Some(Signed(negative, NumberOf(digits)))
  }

  /** Decimal literals: an optional sign, digits with an optional point, an optional exponent. */
  function Parse(s: string): Number {
    var negative := s != "" && s[0] == '-';
    var body := if s != "" && (s[0] == '-' || s[0] == '+') then s[1..] else s;
    var mantissa := ReadMantissa(body);
    var exponent := ReadExponent(mantissa.rest);
    if mantissa.digits == "" || exponent.None? then NotANumber
    else Finite(Signed(negative, NumberOf(mantissa.digits)), exponent.value - mantissa.scale)
  }

  datatype AmountError = InvalidAmount | InvalidAmountPrecision

  datatype Canonical = Units(units: nat) | Invalid(error: AmountError)

  /** The amount in units of the sixth decimal, or why it is refused. */
  function CanonicalAmount(text: string): (r: Canonical)
    ensures r.Units? ==> r.units > 0
  {
    match Parse(text)
    case NotANumber => Invalid(InvalidAmount)
    case Finite(coefficient, exponent) =>
      if coefficient <= 0 then Invalid(InvalidAmount)
      else if exponent < -USDT_DECIMALS then Invalid(InvalidAmountPrecision)
      else
        Pow10Positive(coefficient, exponent + USDT_DECIMALS);
        Units(coefficient * Pow10(exponent + USDT_DECIMALS))
  }

  lemma Pow10Positive(a: int, n: nat)
    requires a > 0
    ensures a * Pow10(n) > 0
  {
  }

  function DigitChar(d: nat): (c: char)
    requires d < 10
    ensures IsDigit(c) && DigitValue(c) == d
  {
    '0' + d as char
  }

  /** The decimal digits of a number, without leading zeros but never empty. */
  function Digits(n: nat): (s: string)
    ensures s != "" && AllDigits(s) && NumberOf(s) == n
  {
    if n < 10 then
      assert [DigitChar(n)][..0] == "";
      [DigitChar(n)]
    else
      var s := Digits(n / 10) + [DigitChar(n % 10)];
      assert s[..|s| - 1] == Digits(n / 10);
      s
  }

  /** Exactly `width` digits, with leading zeros. */
  function Padded(n: nat, width: nat): (s: string)
    requires n < Pow10(width)
    ensures |s| == width && AllDigits(s) && NumberOf(s) == n
  {
    if width == 0 then ""
    else
      var s := Padded(n / 10, width - 1) + [DigitChar(n % 10)];
      assert s[..|s| - 1] == Padded(n / 10, width - 1);
      s
  }

  /** Six decimals, always: the text of a canonical amount. */
  function Render(units: nat): string {
    var scale := Pow10(USDT_DECIMALS);
    Digits(units / scale) + "." + Padded(units % scale, USDT_DECIMALS)
  }

  lemma {:induction false} DigitRunOfConcat(a: string, b: string)
    requires AllDigits(a) && (b != "" ==> !IsDigit(b[0]))
    ensures DigitRun(a + b) == |a|
  {
    var all, run := a + b, DigitRun(a + b);
    assert forall i :: 0 <= i < |a| ==> all[i] == a[i];
    assert b != "" ==> all[|a|] == b[0];
    assert forall i :: 0 <= i < run ==> all[..run][i] == all[i];
  }

  lemma Distribute(x: int, p: int, y: int, d: int)
    ensures (x * p + y) * 10 + d == x * (10 * p) + (y * 10 + d)
  {
  }

  lemma {:induction false} NumberOfConcat(a: string, b: string)
    requires AllDigits(a) && AllDigits(b)
    ensures AllDigits(a + b) && NumberOf(a + b) == NumberOf(a) * Pow10(|b|) + NumberOf(b)
  {
    if b == "" {
      assert a + b == a;
    } else {
      var init := b[..|b| - 1];
      NumberOfConcat(a, init);
      assert (a + b)[..|a + b| - 1] == a + init;
      assert (a + b)[|a + b| - 1] == b[|b| - 1];
      Distribute(NumberOf(a), Pow10(|init|), NumberOf(init), DigitValue(b[|b| - 1]));
    }
  }

  lemma ReadMantissaFixedPoint(whole: string, fraction: string)
    requires AllDigits(whole) && AllDigits(fraction)
    ensures ReadMantissa(whole + "." + fraction) == Mantissa(whole + fraction, |fraction|, "")
  {
    hide NumberOf;
    var text := whole + "." + fraction;
    assert text == whole + ("." + fraction);
    DigitRunOfConcat(whole, "." + fraction);
    assert text[..|whole|] == whole && text[|whole|] == '.' && text[|whole| + 1..] == fraction;
    assert fraction + "" == fraction;
    DigitRunOfConcat(fraction, "");
    assert fraction[..|fraction|] == fraction;
  }

  lemma ReadFixedPoint(whole: string, fraction: string)
    requires whole != "" && AllDigits(whole) && AllDigits(fraction)
    ensures
      Parse(whole + "." + fraction) ==
        Finite(NumberOf(whole) * Pow10(|fraction|) + NumberOf(fraction), -|fraction|)
  {
    hide NumberOf, DigitRun, Pow10, ReadMantissa;
    var text := whole + "." + fraction;
    assert text[0] == whole[0];
    ReadMantissaFixedPoint(whole, fraction);
    NumberOfConcat(whole, fraction);
  }

  /** Reading the canonical text back gives the very number it was rendered from. */
  lemma ParseRender(units: nat)
    ensures Parse(Render(units)) == Finite(units, -USDT_DECIMALS)
  {
    hide Pow10, Digits, Padded, NumberOf, Parse;
    var scale := Pow10(USDT_DECIMALS);
    ReadFixedPoint(Digits(units / scale), Padded(units % scale, USDT_DECIMALS));
  }

  /** So canonicalising a canonical amount changes nothing. */
  lemma CanonicalAmountOfRender(units: nat)
    requires units > 0
    ensures CanonicalAmount(Render(units)) == Units(units)
  {
    ParseRender(units);
    assert Pow10(0) == 1;
  }

  /** And two accepted amounts share a canonical text only when they are the same amount. */
  lemma RenderIsInjective(a: nat, b: nat)
    requires Render(a) == Render(b)
    ensures a == b
  {
    ParseRender(a);
    ParseRender(b);
  }

  lemma ReadMantissaOfDigits(whole: string)
    requires AllDigits(whole)
    ensures ReadMantissa(whole) == Mantissa(whole, 0, "")
  {
    assert whole + "" == whole;
    DigitRunOfConcat(whole, "");
    assert whole[..|whole|] == whole && whole[|whole|..] == "";
  }

  /** The text of a plain amount: digits, or digits around a point. */
  function Plain(whole: string, fraction: Option<string>): string {
    if fraction.None? then whole else whole + "." + fraction.value
  }

  function Decimals(fraction: Option<string>): string {
    if fraction.Some? then fraction.value else ""
  }

  lemma ReadPlain(whole: string, fraction: Option<string>)
    requires whole != "" && AllDigits(whole) && AllDigits(Decimals(fraction))
    ensures ReadMantissa(Plain(whole, fraction)) == Mantissa(whole + Decimals(fraction), |Decimals(fraction)|, "")
    ensures Plain(whole, fraction)[0] == whole[0]
  {
    if fraction.Some? {
      ReadMantissaFixedPoint(whole, fraction.value);
    } else {
      ReadMantissaOfDigits(whole);
      assert whole + "" == whole;
    }
    hide ReadMantissa;
  }

  lemma ParsePlain(whole: string, fraction: Option<string>)
    requires whole != "" && AllDigits(whole) && AllDigits(Decimals(fraction))
    ensures AllDigits(whole + Decimals(fraction))
    ensures
      Parse(Plain(whole, fraction)) == Finite(NumberOf(whole + Decimals(fraction)), -|Decimals(fraction)|)
  {
    ReadPlain(whole, fraction);
    hide NumberOf, ReadMantissa, Plain, Decimals;
  }

  /** What every plain text comes to: refused if it is zero, refused for its precision beyond the sixth decimal,
      and otherwise its digits, filled up to six decimals. */
  lemma CanonicalOfPlain(whole: string, fraction: Option<string>)
    requires whole != "" && AllDigits(whole) && AllDigits(Decimals(fraction))
    ensures AllDigits(whole + Decimals(fraction))
    ensures
      var digits, decimals := NumberOf(whole + Decimals(fraction)), |Decimals(fraction)|;
      CanonicalAmount(Plain(whole, fraction))
      == if digits == 0 then Invalid(InvalidAmount)
         else if decimals > 6 then Invalid(InvalidAmountPrecision)
         else Units(digits * Pow10(6 - decimals))
  {
    ParsePlain(whole, fraction);
    hide Parse, NumberOf, Pow10, Plain, Decimals;
  }

  /** A plain text with a minus sign is refused. */
  lemma NegativeIsRefused(whole: string, fraction: Option<string>)
    requires whole != "" && AllDigits(whole) && AllDigits(Decimals(fraction))
    ensures CanonicalAmount("-" + Plain(whole, fraction)) == Invalid(InvalidAmount)
  {
    ReadPlain(whole, fraction);
    var text := Plain(whole, fraction);
    assert ("-" + text)[1..] == text && ("-" + text)[0] == '-';
    hide NumberOf, Pow10, Plain, ReadMantissa, Decimals;
  }

  /** For instance. */
  lemma SomeAmounts()
    ensures CanonicalAmount("100") == Units(100_000_000)
    ensures CanonicalAmount("1.5") == Units(1_500_000)
    ensures CanonicalAmount("0.0000001") == Invalid(InvalidAmountPrecision)
    ensures CanonicalAmount("0") == Invalid(InvalidAmount)
  {
    SomePowers();
    SomeNumbers();
    hide CanonicalAmount, NumberOf, Pow10;
    CanonicalOfPlain("100", None);
    assert "100" + "" == "100" && "0" + "" == "0" && "1" + "5" == "15" && "0" + "0000001" == "00000001";
    assert "1" + "." + "5" == "1.5" && "0" + "." + "0000001" == "0.0000001";
    CanonicalOfPlain("1", Some("5"));
    CanonicalOfPlain("0", Some("0000001"));
    CanonicalOfPlain("0", None);
  }

  lemma SomePowers()
    ensures Pow10(6) == 1_000_000 && Pow10(5) == 100_000
  {
    assert Pow10(3) == 1_000 && Pow10(2) == 100;
    Pow10Add(3, 3);
    Pow10Add(3, 2);
  }

  lemma SomeNumbers()
    ensures NumberOf("0") == 0 && NumberOf("15") == 15 && NumberOf("100") == 100 && NumberOf("00000001") > 0
  {
    NumberEndsWith("100", 2);
    NumberEndsWith("10", 1);
    NumberEndsWith("15", 1);
    NumberEndsWith("1", 0);
    NumberEndsWith("0", 0);
    NumberEndsWith("00000001", 7);
    assert "100"[..2] == "10" && "10"[..1] == "1" && "15"[..1] == "1" && "1"[..0] == "" && "0"[..0] == "";
    assert NumberOf("") == 0;
    hide NumberOf;
  }

  lemma NumberEndsWith(s: string, last: nat)
    requires AllDigits(s) && |s| == last + 1
    ensures NumberOf(s) == NumberOf(s[..last]) * 10 + DigitValue(s[last])
  {
  }

  /** What a transfer of a canonical amount carries: the amount scaled to the token's decimals, and
      truncated. */
  function BaseUnits(units: nat, decimals: nat): nat {
    units * Pow10(decimals) / Pow10(USDT_DECIMALS)
  }

  /** A decoded log value over ten to the decimals equals the amount, as exact fractions. */
  predicate SameAmount(decoded: nat, decimals: nat, units: nat) {
    decoded * Pow10(USDT_DECIMALS) == units * Pow10(decimals)
  }

  lemma DivisionIsExact(a: nat, b: nat)
    requires b > 0
    ensures (a / b) * b == a <==> a % b == 0
  {
    assert a == (a / b) * b + a % b;
  }

  lemma CancelFactor(a: nat, b: nat, c: nat)
    requires b > 0 && c > 0
    ensures (a * c) % (b * c) == 0 <==> a % b == 0
  {
    var k := a / b;
    assert a == b * k + a % b;
    if a % b == 0 {
      assert a * c == k * (b * c) by { assert a * c == b * k * c; }
      MultipleHasNoRemainder(k, b * c);
    } else if (a * c) % (b * c) == 0 {
      var q := (a * c) / (b * c);
      assert a * c == q * (b * c);
      assert a * c == (q * b) * c by { assert q * (b * c) == (q * b) * c; }
      CancelRight(a, q * b, c);
      MultipleHasNoRemainder(q, b);
    }
  }

  lemma CancelRight(a: int, b: int, c: int)
    requires c != 0 && a * c == b * c
    ensures a == b
  {
    assert (a - b) * c == 0;
  }

  lemma MultipleHasNoRemainder(k: nat, b: nat)
    requires b > 0
    ensures (k * b) % b == 0
  {
    var quotient, remainder := (k * b) / b, (k * b) % b;
    assert remainder == (k - quotient) * b by {
      assert k * b == quotient * b + remainder;
    }
    if k > quotient {
      AtLeastOneMultiple(k - quotient, b);
    } else if k < quotient {
      AtLeastOneMultiple(quotient - k, b);
    }
  }

  lemma AtLeastOneMultiple(n: nat, b: nat)
    requires n >= 1
    ensures n * b >= b
  {
  }

  /** Sending a canonical amount and dividing the logged value back gives the amount again exactly when
      the token has at least six decimals, or the digits it lacks are zeros. */
  lemma AmountRoundTrips(units: nat, decimals: nat)
    ensures SameAmount(BaseUnits(units, decimals), decimals, units)
      <==> decimals >= USDT_DECIMALS || units % Pow10(USDT_DECIMALS - decimals) == 0
  {
    hide Pow10;
    var six := Pow10(USDT_DECIMALS);
    DivisionIsExact(units * Pow10(decimals), six);
    if decimals >= USDT_DECIMALS {
      var rest := Pow10(decimals - USDT_DECIMALS);
      Pow10Add(decimals - USDT_DECIMALS, USDT_DECIMALS);
      assert units * Pow10(decimals) == (units * rest) * six by {
        assert Pow10(decimals) == rest * six;
        assert units * (rest * six) == (units * rest) * six;
      }
      MultipleHasNoRemainder(units * rest, six);
    } else {
      Pow10Add(USDT_DECIMALS - decimals, decimals);
      CancelFactor(units, Pow10(USDT_DECIMALS - decimals), Pow10(decimals));
    }
  }
}
