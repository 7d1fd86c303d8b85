/** The text of a JSON number (foundation/canonical.py, _encode_float): the
    shortest decimal digits of a float are laid out in the form that section
    3.2.2.3 of RFC 8785 takes from ECMAScript. */
module CanonicalNumbers {
  import opened Outcomes

  /** A positive decimal: its digits, read as an integer, times a power of ten. */
  datatype Decimal = Decimal(digits: string, exponent: int)

  datatype Number = Zero | Signed(negative: bool, magnitude: Decimal)

  // ---------------------------------------------------------------- digits and powers

  predicate IsDigit(c: char) {
    '0' <= c <= '9'
  }

  predicate AllDigits(s: string) {
    forall i :: 0 <= i < |s| ==> IsDigit(s[i])
  }

  function DigitValue(c: char): nat
    requires IsDigit(c)
  {
    (c as int) - ('0' as int)
  }

  function DigitChar(d: nat): (c: char)
    requires d < 10
    ensures IsDigit(c) && DigitValue(c) == d
  {
    "0123456789"[d]
  }

  /** The number a string of digits spells. */
  function NatOf(s: string): nat
    requires AllDigits(s)
  {
    if s == "" then 0 else NatOf(s[..|s| - 1]) * 10 + DigitValue(s[|s| - 1])
  }

  function NatText(n: nat): (s: string)
    ensures AllDigits(s) && s != "" && NatOf(s) == n
    ensures n > 0 ==> s[0] != '0'
  {
    if n < 10 then [DigitChar(n)] else NatText(n / 10) + [DigitChar(n % 10)]
  }

  function IntText(n: int): string {
    if n < 0 then "-" + NatText(-n) else NatText(n)
  }

  function Pow10(n: nat): (p: nat)
    ensures p > 0
  {
    if n == 0 then 1 else 10 * Pow10(n - 1)
  }

  function Zeros(n: nat): (s: string)
    ensures |s| == n && forall i :: 0 <= i < n ==> s[i] == '0'
  {
    seq(n, i => '0')
  }

  // ---------------------------------------------------------------- decimals

  predicate Stripped(d: Decimal) {
    d.digits != "" && AllDigits(d.digits) && d.digits[0] != '0' && d.digits[|d.digits| - 1] != '0'
  }

  /** m * 10^e < n * 10^f, on a common scale. */
  predicate ScaledLess(m: nat, e: int, n: nat, f: int) {
    if e <= f then m < n * Pow10(f - e) else m * Pow10(e - f) < n
  }

  predicate ScaledEqual(m: nat, e: int, n: nat, f: int) {
    if e <= f then m == n * Pow10(f - e) else m * Pow10(e - f) == n
  }

  function StripLeading(s: string): (r: string)
    ensures AllDigits(s) ==> AllDigits(r)
    ensures r == "" || r[0] != '0'
    ensures |r| <= |s|
  {
    if s != "" && s[0] == '0' then StripLeading(s[1..]) else s
  }

  function StripTrailing(s: string): (r: string)
    ensures r <= s
    ensures AllDigits(s) ==> AllDigits(r)
    ensures |r| <= 1 || r[|r| - 1] != '0'
    ensures s != "" ==> r != ""
  {
    if |s| > 1 && s[|s| - 1] == '0' then StripTrailing(s[..|s| - 1]) else s
  }

  /** The decimal of the digits s at exponent e, without outer zeros. */
  function Normalise(s: string, e: int): Decimal {
    var digits := if StripLeading(s) == "" then "0" else StripLeading(s);
    Decimal(StripTrailing(digits), e + |digits| - |StripTrailing(digits)|)
  }

  // ---------------------------------------------------------------- reading a decimal text

  function IndexOf(s: string, c: char): (i: nat)
    ensures i <= |s| && (i < |s| ==> s[i] == c)
    ensures forall k :: 0 <= k < i ==> s[k] != c
  {
    if s == "" || s[0] == c then 0 else 1 + IndexOf(s[1..], c)
  }

  predicate IsExponent(s: string) {
    var digits := if s != "" && (s[0] == '+' || s[0] == '-') then s[1..] else s;
    digits != "" && AllDigits(digits)
  }

  function IntOf(s: string): int
    requires IsExponent(s)
  {
    if s[0] == '-' then 0 - NatOf(s[1..]) as int else if s[0] == '+' then NatOf(s[1..]) as int else NatOf(s) as int
  }

  /** The parts of a decimal text: what stands before an `e`, and after it. */
  function Coefficient(raw: string): string {
    raw[..IndexOf(raw, 'e')]
  }

  function ExponentText(raw: string): string {
    var e := IndexOf(raw, 'e');
    if e < |raw| then raw[e + 1..] else "0"
  }

  function IntegerPart(coefficient: string): string {
    coefficient[..IndexOf(coefficient, '.')]
  }

  function FractionPart(coefficient: string): string {
    var dot := IndexOf(coefficient, '.');
    if dot < |coefficient| then coefficient[dot + 1..] else ""
  }

  predicate AreDecimalParts(integer: string, fraction: string, exponent: string) {
    IsExponent(exponent) && AllDigits(integer + fraction) && StripLeading(integer + fraction) != ""
  }

  function ReadParts(integer: string, fraction: string, exponent: string): Decimal
    requires AreDecimalParts(integer, fraction, exponent)
  {
    Normalise(integer + fraction, IntOf(exponent) - |fraction|)
  }

  /** The text of a positive decimal, as `repr` writes it. */
  predicate IsDecimalText(raw: string) {
    AreDecimalParts(IntegerPart(Coefficient(raw)), FractionPart(Coefficient(raw)), ExponentText(raw))
  }

  function Read(raw: string): Decimal
    requires IsDecimalText(raw)
  {
    ReadParts(IntegerPart(Coefficient(raw)), FractionPart(Coefficient(raw)), ExponentText(raw))
  }

  // ---------------------------------------------------------------- rendering

  /** 10^-6 <= d < 10^21. */
  predicate InFixedRange(d: Decimal)
    requires AllDigits(d.digits)
  {
    !ScaledLess(NatOf(d.digits), d.exponent, 1, -6) && ScaledLess(NatOf(d.digits), d.exponent, 1, 21)
  }

  /** Digits around a decimal point, which stands behind `position` digits. */
  function FixedText(digits: string, position: int): string {
    if position <= 0 then "0." + Zeros(-position) + digits
    else if position >= |digits| then digits + Zeros(position - |digits|)
    else digits[..position] + "." + digits[position..]
  }

  function Mantissa(digits: string): string
    requires digits != ""
  {
    if |digits| == 1 then digits else digits[..1] + "." + digits[1..]
  }

  function SignedText(exponent: int): string {
    (if exponent >= 0 then "+" else "") + IntText(exponent)
  }

  function ScientificText(digits: string, exponent: int): string
    requires digits != ""
  {
    Mantissa(digits) + "e" + SignedText(exponent)
  }

  function Render(d: Decimal): string
    requires d.digits != "" && AllDigits(d.digits)
  {
    RenderAs(d.digits, |d.digits| + d.exponent, InFixedRange(d))
  }

  function RenderAs(digits: string, position: int, inRange: bool): string
    requires digits != ""
  {
    if inRange then FixedText(digits, position) else ScientificText(digits, position - 1)
  }

  function NumberText(n: Number): string
    requires n.Signed? ==> n.magnitude.digits != "" && AllDigits(n.magnitude.digits)
  {
    match n
    case Zero => "0"
    case Signed(negative, magnitude) => if negative then "-" + Render(magnitude) else Render(magnitude)
  }

  /** A float: not finite, zero, or a sign and what `repr` writes for the rest. */
  datatype Float = NonFinite | ZeroFloat | Finite(negative: bool, raw: string)

  predicate ValidFloat(f: Float) {
    f.Finite? ==> IsDecimalText(f.raw)
  }

  function NumberOf(f: Float): Number
    requires ValidFloat(f) && !f.NonFinite?
  {
    if f.ZeroFloat? then Zero else Signed(f.negative, Read(f.raw))
  }

  method EncodeFloat(f: Float) returns (text: Result<string>)
    requires ValidFloat(f)
    ensures text == if f.NonFinite? then Err else Ok(NumberText(NumberOf(f)))
  {
    if f.NonFinite? { return Err; }
    if f.ZeroFloat? { return Ok("0"); }
    var coefficient := Coefficient(f.raw);
    var exponent := IntOf(ExponentText(f.raw));
    var integer, fraction := IntegerPart(coefficient), FractionPart(coefficient);
    var digits := StripLeading(integer + fraction);
    ghost var all := digits;
    var exponent10 := exponent - |fraction|;
    while |digits| > 1 && digits[|digits| - 1] == '0'
      invariant digits != "" && digits <= all && StripTrailing(digits) == StripTrailing(all)
      invariant exponent10 == exponent - |fraction| + |all| - |digits|
    {
      digits := digits[..|digits| - 1];
      exponent10 := exponent10 + 1;
    }
    assert Decimal(digits, exponent10) == Read(f.raw);
    var rendered := LayOut(digits, exponent10);
    text := Ok(if f.negative then "-" + rendered else rendered);
  }

  method LayOut(digits: string, exponent10: int) returns (rendered: string)
    requires digits != "" && AllDigits(digits)
    ensures rendered == Render(Decimal(digits, exponent10))
  {
    rendered := LayOutAs(digits, |digits| + exponent10, InFixedRange(Decimal(digits, exponent10)));
  }

  method LayOutAs(digits: string, position: int, inRange: bool) returns (rendered: string)
    requires digits != ""
    ensures rendered == RenderAs(digits, position, inRange)
  {
    if inRange {
      rendered := LayOutFixed(digits, position);
    } else {
      rendered := LayOutScientific(digits, position - 1);
    }
  }

  method LayOutFixed(digits: string, position: int) returns (rendered: string)
    ensures rendered == FixedText(digits, position)
  {
    if position <= 0 {
      rendered := "0." + Zeros(-position) + digits;
    } else if position >= |digits| {
      rendered := digits + Zeros(position - |digits|);
    } else {
      rendered := digits[..position] + "." + digits[position..];
    }
  }

  method LayOutScientific(digits: string, exponent: int) returns (rendered: string)
    requires digits != ""
    ensures rendered == ScientificText(digits, exponent)
  {
    var mantissa := if |digits| == 1 then digits else digits[..1] + "." + digits[1..];
    var sign := if exponent >= 0 then "+" else "";
    rendered := mantissa + "e" + (sign + IntText(exponent));
  }

  // ---------------------------------------------------------------- arithmetic

  lemma {:induction false} Pow10Add(a: nat, b: nat)
    ensures Pow10(a + b) == Pow10(a) * Pow10(b)
  {
    if a > 0 { Pow10Add(a - 1, b); }
  }

  lemma {:induction false} Pow10Grows(a: nat, b: nat)
    requires a <= b
    ensures Pow10(a) <= Pow10(b)
  {
    if a < b { Pow10Grows(a, b - 1); }
  }

  /** k digits, the first not zero, spell a number from 10^(k-1) to 10^k. */
  lemma {:induction false} DigitBounds(s: string)
    requires AllDigits(s)
    ensures NatOf(s) < Pow10(|s|)
    ensures s != "" && s[0] != '0' ==> Pow10(|s| - 1) <= NatOf(s)
  {
    if s != "" { DigitBounds(s[..|s| - 1]); }
  }

  /** The thresholds on the value are thresholds on the decimal point's
      position: at most 21 digits before it, at most five zeros after it. */
  lemma {:induction false} FixedRangeIsPosition(d: Decimal)
    requires Stripped(d)
    ensures InFixedRange(d) <==> -6 < |d.digits| + d.exponent <= 21
  {
    var m, k, e := NatOf(d.digits), |d.digits|, d.exponent;
    DigitBounds(d.digits);
    BelowPower(m, k, e, 21);
    BelowPower(m, k, e, -6);
  }

  lemma BelowPower(m: nat, k: nat, e: int, f: int)
    requires k > 0 && Pow10(k - 1) <= m < Pow10(k)
    ensures ScaledLess(m, e, 1, f) <==> k + e <= f
  {
    if e <= f {
      if k + e <= f { Pow10Grows(k, f - e); } else { Pow10Grows(f - e, k - 1); }
    } else {
      assert m >= 1 && Pow10(e - f) >= 1;
      assert m * Pow10(e - f) >= 1;
    }
  }

  // ---------------------------------------------------------------- the ECMAScript form

  /** Number::toString of ECMAScript, for k digits and the decimal point after
      the n-th of them. */
  function EcmaText(digits: string, n: int): string
    requires digits != ""
  {
    var k := |digits|;
    if k <= n <= 21 then digits + Zeros(n - k)
    else if 0 < n <= 21 then digits[..n] + "." + digits[n..]
    else if -6 < n <= 0 then "0." + Zeros(-n) + digits
    else
      var exponent := if n > 0 then "+" + NatText(n - 1) else "-" + NatText(1 - n);
      if k == 1 then digits + "e" + exponent else digits[..1] + "." + digits[1..] + "e" + exponent
  }

  /** The rendered text is the one ECMAScript prescribes. */
  lemma {:induction false} RenderIsEcmaScript(d: Decimal)
    requires Stripped(d)
    ensures Render(d) == EcmaText(d.digits, |d.digits| + d.exponent)
  {
    FixedRangeIsPosition(d);
    var n := |d.digits| + d.exponent;
    if n > 21 {
      assert IntText(n - 1) == NatText(n - 1);
    } else if n <= -6 {
      assert "" + IntText(n - 1) == "-" + NatText(1 - n);
    }
  }

  // ---------------------------------------------------------------- what a text denotes

  lemma {:induction false} NatOfConcat(a: string, b: string)
    requires AllDigits(a) && AllDigits(b)
    ensures AllDigits(a + b) && NatOf(a + b) == NatOf(a) * Pow10(|b|) + NatOf(b)
  {
    if b == "" {
      assert a + b == a;
    } else {
      var n := |b| - 1;
      assert (a + b)[..|a + b| - 1] == a + b[..n];
      NatOfConcat(a, b[..n]);
      PowerStep(NatOf(a), n);
    }
  }

  lemma PowerStep(m: nat, k: nat)
    ensures (m * Pow10(k)) * 10 == m * Pow10(k + 1)
  {
    TimesTen(m, Pow10(k));
  }

  lemma TimesTen(m: nat, p: nat)
    ensures (m * p) * 10 == m * (10 * p)
  {
  }

  lemma {:induction false} StripLeadingKeepsValue(s: string)
    requires AllDigits(s)
    ensures NatOf(StripLeading(s)) == NatOf(s)
  {
    if s != "" && s[0] == '0' {
      StripLeadingKeepsValue(s[1..]);
      assert s == [s[0]] + s[1..];
      NatOfConcat([s[0]], s[1..]);
      assert NatOf([s[0]]) == 0;
    }
  }

  lemma {:induction false} StripTrailingKeepsValue(s: string)
    requires AllDigits(s)
    ensures NatOf(s) == NatOf(StripTrailing(s)) * Pow10(|s| - |StripTrailing(s)|)
  {
    if |s| > 1 && s[|s| - 1] == '0' {
      var shorter := s[..|s| - 1];
      StripTrailingKeepsValue(shorter);
      PowerStep(NatOf(StripTrailing(s)), |shorter| - |StripTrailing(shorter)|);
    }
  }

  /** The decimal of a text has no outer zeros, and denotes exactly what the
      text does: its digits times the power of ten its point and exponent say. */
  lemma {:induction false} ReadKeepsValue(raw: string)
    requires IsDecimalText(raw)
    ensures
      var digits := IntegerPart(Coefficient(raw)) + FractionPart(Coefficient(raw));
      var exponent := IntOf(ExponentText(raw)) - |FractionPart(Coefficient(raw))|;
      && Stripped(Read(raw))
      && ScaledEqual(NatOf(digits), exponent, NatOf(Read(raw).digits), Read(raw).exponent)
  {
    PartsKeepValue(IntegerPart(Coefficient(raw)), FractionPart(Coefficient(raw)), ExponentText(raw));
  }

  lemma PartsKeepValue(integer: string, fraction: string, exponent: string)
    requires AreDecimalParts(integer, fraction, exponent)
    ensures
      var d := ReadParts(integer, fraction, exponent);
      Stripped(d) && ScaledEqual(NatOf(integer + fraction), IntOf(exponent) - |fraction|, NatOf(d.digits), d.exponent)
  {
    NormaliseKeepsValue(integer + fraction, IntOf(exponent) - |fraction|);
  }

  lemma {:induction false} NormaliseKeepsValue(digits: string, e: int)
    requires AllDigits(digits) && StripLeading(digits) != ""
    ensures
      var d := Normalise(digits, e);
      Stripped(d) && ScaledEqual(NatOf(digits), e, NatOf(d.digits), d.exponent)
  {
    var stripped := StripLeading(digits);
    StripLeadingKeepsValue(digits);
    StripTrailingKeepsValue(stripped);
    assert StripTrailing(stripped)[0] == stripped[0];
  }

  // ---------------------------------------------------------------- reading back what was rendered

  lemma {:induction false} StripLeadingZeros(n: nat, s: string)
    requires s != "" && s[0] != '0'
    ensures StripLeading(Zeros(n) + s) == s
  {
    if n == 0 {
      assert Zeros(n) + s == s;
    } else {
      assert (Zeros(n) + s)[1..] == Zeros(n - 1) + s;
      StripLeadingZeros(n - 1, s);
    }
  }

  lemma {:induction false} StripTrailingZeros(s: string, n: nat)
    requires s != "" && s[|s| - 1] != '0'
    ensures StripTrailing(s + Zeros(n)) == s
  {
    if n == 0 {
      assert s + Zeros(n) == s;
    } else {
      assert (s + Zeros(n))[..|s| + n - 1] == s + Zeros(n - 1);
      StripTrailingZeros(s, n - 1);
    }
  }

  lemma {:induction false} NormaliseZeros(a: nat, digits: string, b: nat, e: int)
    requires Stripped(Decimal(digits, e))
    ensures AllDigits(Zeros(a) + (digits + Zeros(b))) && StripLeading(Zeros(a) + (digits + Zeros(b))) != ""
    ensures Normalise(Zeros(a) + (digits + Zeros(b)), e) == Decimal(digits, e + b)
  {
    StripLeadingZeros(a, digits + Zeros(b));
    StripTrailingZeros(digits, b);
  }

  lemma {:induction false} IndexOfFirst(a: string, c: char, b: string)
    requires c !in a
    ensures IndexOf(a + [c] + b, c) == |a|
    ensures (a + [c] + b)[..|a|] == a && (a + [c] + b)[|a| + 1..] == b
  {
    var s := a + [c] + b;
    assert s[|a|] == c;
    assert forall k :: 0 <= k < |a| ==> s[k] == a[k] && a[k] in a;
  }

  lemma {:induction false} IndexOfNone(s: string, c: char)
    requires c !in s
    ensures IndexOf(s, c) == |s|
  {
    assert forall k :: 0 <= k < |s| ==> s[k] in s;
  }

  lemma DigitsOnly(s: string, c: char)
    requires AllDigits(s) && !IsDigit(c)
    ensures c !in s
  {
  }

  /** A text assembled from its parts has these parts. */
  lemma PartsOfText(integer: string, point: bool, fraction: string, exponent: string, text: string)
    requires AllDigits(integer) && AllDigits(fraction) && (!point ==> fraction == "")
    requires text == integer + (if point then "." + fraction else "") + (if exponent == "" then "" else "e" + exponent)
    ensures Coefficient(text) == integer + if point then "." + fraction else ""
    ensures ExponentText(text) == if exponent == "" then "0" else exponent
    ensures IntegerPart(Coefficient(text)) == integer && FractionPart(Coefficient(text)) == fraction
  {
    var coefficient := integer + if point then "." + fraction else "";
    DigitsOnly(integer, 'e');
    DigitsOnly(fraction, 'e');
    SplitAtExponent(coefficient, exponent, text);
    SplitAtPoint(integer, point, fraction, coefficient);
  }

  lemma SplitAtExponent(coefficient: string, exponent: string, text: string)
    requires 'e' !in coefficient && text == coefficient + if exponent == "" then "" else "e" + exponent
    ensures Coefficient(text) == coefficient && ExponentText(text) == if exponent == "" then "0" else exponent
  {
    if exponent == "" {
      assert text == coefficient;
      IndexOfNone(text, 'e');
    } else {
      assert text == coefficient + ['e'] + exponent;
      IndexOfFirst(coefficient, 'e', exponent);
    }
  }

  lemma SplitAtPoint(integer: string, point: bool, fraction: string, coefficient: string)
    requires AllDigits(integer) && (!point ==> fraction == "")
    requires coefficient == integer + if point then "." + fraction else ""
    ensures IntegerPart(coefficient) == integer && FractionPart(coefficient) == fraction
  {
    DigitsOnly(integer, '.');
    if point {
      assert coefficient == integer + ['.'] + fraction;
      IndexOfFirst(integer, '.', fraction);
    } else {
      assert coefficient == integer;
      IndexOfNone(coefficient, '.');
    }
  }

  function ReadText(text: string): Option<Decimal> {
    if IsDecimalText(text) then Some(Read(text)) else None
  }

  predicate ReadsAs(text: string, d: Decimal) {
    ReadText(text) == Some(d)
  }

  lemma PartsRead(integer: string, fraction: string, exponent: string, d: Decimal, a: nat, b: nat)
    requires IsExponent(exponent) && Stripped(d) && integer + fraction == Zeros(a) + (d.digits + Zeros(b))
    requires d.exponent == IntOf(exponent) - |fraction| + b
    ensures AreDecimalParts(integer, fraction, exponent) && ReadParts(integer, fraction, exponent) == d
  {
    NormaliseZeros(a, d.digits, b, IntOf(exponent) - |fraction|);
  }

  lemma ZeroExponent()
    ensures IsExponent("0") && IntOf("0") == 0
  {
    assert NatOf("0") == 0;
  }

  /** A text assembled from these parts reads as the decimal whose digits they
      hold between `a` leading and `b` trailing zeros. */
  lemma AssembledReads(
    integer: string, point: bool, fraction: string, exponent: string, text: string, d: Decimal, a: nat, b: nat)
    requires AllDigits(integer) && AllDigits(fraction) && (!point ==> fraction == "")
    requires text == integer + (if point then "." + fraction else "") + (if exponent == "" then "" else "e" + exponent)
    requires exponent == "" || IsExponent(exponent)
    requires Stripped(d) && integer + fraction == Zeros(a) + (d.digits + Zeros(b))
    requires d.exponent == (if exponent == "" then 0 else IntOf(exponent)) - |fraction| + b
    ensures ReadsAs(text, d)
  {
    PartsOfText(integer, point, fraction, exponent, text);
    ZeroExponent();
    PartsRead(integer, fraction, if exponent == "" then "0" else exponent, d, a, b);
  }

  lemma FixedRoundTrip(d: Decimal, position: int)
    requires Stripped(d) && position == |d.digits| + d.exponent
    ensures ReadsAs(FixedText(d.digits, position), d)
  {
    if position <= 0 {
      SmallRoundTrip(d, position);
    } else if position >= |d.digits| {
      LargeRoundTrip(d, position);
    } else {
      MiddleRoundTrip(d, position);
    }
  }

  lemma SmallRoundTrip(d: Decimal, position: int)
    requires Stripped(d) && position == |d.digits| + d.exponent <= 0
    ensures ReadsAs(FixedText(d.digits, position), d)
  {
    var zeros := Zeros(-position);
    var text, fraction := "0." + zeros + d.digits, zeros + d.digits;
    assert text == "0" + ("." + fraction) + "";
    assert "0" + fraction == Zeros(1 - position) + (d.digits + Zeros(0));
    AssembledReads("0", true, fraction, "", text, d, 1 - position, 0);
  }

  lemma LargeRoundTrip(d: Decimal, position: int)
    requires Stripped(d) && position == |d.digits| + d.exponent >= |d.digits|
    ensures ReadsAs(FixedText(d.digits, position), d)
  {
    var text := d.digits + Zeros(d.exponent);
    assert text == text + "" + "";
    assert text + "" == Zeros(0) + (d.digits + Zeros(d.exponent));
    AssembledReads(text, false, "", "", text, d, 0, d.exponent);
  }

  lemma MiddleRoundTrip(d: Decimal, position: int)
    requires Stripped(d) && 0 < position == |d.digits| + d.exponent < |d.digits|
    ensures ReadsAs(FixedText(d.digits, position), d)
  {
    var integer, fraction := d.digits[..position], d.digits[position..];
    var text := integer + "." + fraction;
    assert text == integer + ("." + fraction) + "";
    assert integer + fraction == Zeros(0) + (d.digits + Zeros(0));
    AssembledReads(integer, true, fraction, "", text, d, 0, 0);
  }

  lemma SignedExponent(e: int)
    ensures SignedText(e) != "" && IsExponent(SignedText(e)) && IntOf(SignedText(e)) == e
  {
    var text := SignedText(e);
    if e >= 0 {
      assert text[1..] == NatText(e);
    } else {
      assert text == "-" + NatText(-e);
      assert text[1..] == NatText(-e);
    }
  }

  lemma ScientificRoundTrip(d: Decimal, e: int)
    requires Stripped(d) && e == |d.digits| + d.exponent - 1
    ensures ReadsAs(ScientificText(d.digits, e), d)
  {
    SignedExponent(e);
    ScientificReads(d, e, SignedText(e), ScientificText(d.digits, e));
  }

  lemma ScientificReads(d: Decimal, e: int, exponent: string, text: string)
    requires Stripped(d) && e == |d.digits| + d.exponent - 1
    requires exponent != "" && IsExponent(exponent) && IntOf(exponent) == e && text == Mantissa(d.digits) + "e" + exponent
    ensures ReadsAs(text, d)
  {
    var point, fraction := |d.digits| > 1, d.digits[1..];
    ScientificParts(d.digits, point, exponent);
    assert |fraction| == |d.digits| - 1;
    AssembledReads(d.digits[..1], point, fraction, exponent, text, d, 0, 0);
  }

  lemma ScientificParts(digits: string, point: bool, exponent: string)
    requires digits != "" && point == (|digits| > 1)
    ensures Mantissa(digits) + "e" + exponent ==
              digits[..1] + (if point then "." + digits[1..] else "") + ("e" + exponent)
    ensures digits[..1] + digits[1..] == Zeros(0) + (digits + Zeros(0))
  {
  }

  /** Reading a rendered decimal gives it back: no digit and no power of ten is
      lost in either form. */
  lemma {:induction false} RenderRoundTrip(d: Decimal)
    requires Stripped(d)
    ensures ReadsAs(Render(d), d)
  {
    RenderedAsReads(d, |d.digits| + d.exponent, InFixedRange(d), Render(d));
  }

  lemma RenderedAsReads(d: Decimal, position: int, inRange: bool, text: string)
    requires Stripped(d) && position == |d.digits| + d.exponent && text == RenderAs(d.digits, position, inRange)
    ensures ReadsAs(text, d)
  {
    if inRange { FixedRoundTrip(d, position); } else { ScientificRoundTrip(d, position - 1); }
  }

  /** A float that `repr` may write for a number. */
  function FloatOf(n: Number): Float
    requires NormalNumber(n)
  {
    match n
    case Zero => ZeroFloat
    case Signed(negative, magnitude) => Finite(negative, Render(magnitude))
  }

  lemma TextIsFloat(negative: bool, raw: string, d: Decimal)
    requires ReadsAs(raw, d)
    ensures ValidFloat(Finite(negative, raw)) && NumberOf(Finite(negative, raw)) == Signed(negative, d)
  {
  }

  lemma FloatIsNumber(n: Number)
    requires NormalNumber(n)
    ensures ValidFloat(FloatOf(n)) && !FloatOf(n).NonFinite? && NumberOf(FloatOf(n)) == n
  {
    if n.Signed? {
      RenderRoundTrip(n.magnitude);
      TextIsFloat(n.negative, Render(n.magnitude), n.magnitude);
    }
  }

  // ---------------------------------------------------------------- one text per value

  lemma {:induction false} SameLengthDigits(a: string, b: string)
    requires AllDigits(a) && AllDigits(b) && |a| == |b| && NatOf(a) == NatOf(b)
    ensures a == b
  {
    if a != "" {
      var n := |a| - 1;
      SameLengthDigits(a[..n], b[..n]);
      assert a == a[..n] + [a[n]] && b == b[..n] + [b[n]];
    }
  }

  lemma {:induction false} SameDigits(a: string, b: string)
    requires AllDigits(a) && AllDigits(b) && a != "" && b != "" && a[0] != '0' && b[0] != '0' && NatOf(a) == NatOf(b)
    ensures a == b
  {
    DigitBounds(a);
    DigitBounds(b);
    if |a| < |b| {
      Pow10Grows(|a|, |b| - 1);
    } else if |b| < |a| {
      Pow10Grows(|b|, |a| - 1);
    }
    SameLengthDigits(a, b);
  }

  lemma LastDigit(s: string)
    requires AllDigits(s) && s != ""
    ensures NatOf(s) % 10 == DigitValue(s[|s| - 1])
  {
  }

  lemma PowersDivide(m: nat, k: nat)
    ensures k > 0 ==> (m * Pow10(k)) % 10 == 0
  {
    if k > 0 { assert m * Pow10(k) == 10 * (m * Pow10(k - 1)); }
  }

  lemma NotDivisible(s: string, m: nat, k: nat)
    requires AllDigits(s) && s != "" && s[|s| - 1] != '0' && NatOf(s) == m * Pow10(k)
    ensures k == 0
  {
    LastDigit(s);
    PowersDivide(m, k);
  }

  /** Two decimals without outer zeros that are numerically equal are the same:
      so each value has one text, and different values have different texts. */
  lemma {:induction false} EqualDecimalsAreSame(a: Decimal, b: Decimal)
    requires Stripped(a) && Stripped(b)
    requires ScaledEqual(NatOf(a.digits), a.exponent, NatOf(b.digits), b.exponent)
    ensures a == b
  {
    if a.exponent <= b.exponent {
      NotDivisible(a.digits, NatOf(b.digits), b.exponent - a.exponent);
    } else {
      NotDivisible(b.digits, NatOf(a.digits), a.exponent - b.exponent);
    }
    SameDigits(a.digits, b.digits);
  }

  // ---------------------------------------------------------------- integers

  /** The number an integer is. */
  function IntegerNumber(n: int): Number {
    if n == 0 then Zero else Signed(n < 0, Normalise(NatText(if n < 0 then -n else n), 0))
  }

  const MAX_SAFE_INTEGER: int := 0x1F_FFFF_FFFF_FFFF

  /** An integer in the safe range is written like the float of its value. */
  lemma {:induction false} IntegersAreNumbers(n: int)
    requires -MAX_SAFE_INTEGER <= n <= MAX_SAFE_INTEGER
    ensures IntegerNumber(n).Signed? ==> Stripped(IntegerNumber(n).magnitude)
    ensures IntText(n) == NumberText(IntegerNumber(n))
    ensures n != 0 ==>
      var d := IntegerNumber(n).magnitude;
      && ScaledEqual(if n < 0 then -n else n, 0, NatOf(d.digits), d.exponent)
      && d.exponent >= 0 && |d.digits| + d.exponent <= 16
  {
    if n != 0 {
      var m := if n < 0 then -n else n;
      SafeIntegerLength(m);
      WholeDigits(NatText(m));
      assert Pow10(0) == 1;
    }
  }

  lemma SafeIntegerLength(m: nat)
    requires 0 < m <= MAX_SAFE_INTEGER
    ensures |NatText(m)| <= 16
  {
    DigitBounds(NatText(m));
    SafeIntegerDigits();
    if |NatText(m)| > 16 { Pow10Grows(16, |NatText(m)| - 1); }
  }

  /** Digits that spell an integer are the text of its decimal. */
  lemma WholeDigits(s: string)
    requires AllDigits(s) && s != "" && s[0] != '0' && |s| <= 21
    ensures
      var d := Normalise(s, 0);
      && Stripped(d) && Render(d) == s && NatOf(s) == NatOf(d.digits) * Pow10(d.exponent)
      && d.exponent >= 0 && |d.digits| + d.exponent == |s|
  {
    var digits := StripTrailing(s);
    StripTrailingKeepsValue(s);
    TrailingZeros(s);
    assert digits[0] == s[0];
    WholeText(Normalise(s, 0), s);
  }

  lemma WholeText(d: Decimal, text: string)
    requires Stripped(d) && d.exponent >= 0 && |d.digits| + d.exponent <= 21 && text == d.digits + Zeros(d.exponent)
    ensures Render(d) == text
  {
    FixedRangeIsPosition(d);
  }

  lemma SafeIntegerDigits()
    ensures MAX_SAFE_INTEGER < Pow10(16)
  {
    Pow10Add(8, 8);
    assert Pow10(4) == 10000;
    Pow10Add(4, 4);
  }

  lemma {:induction false} TrailingZeros(s: string)
    requires s != "" && s[0] != '0'
    ensures s == StripTrailing(s) + Zeros(|s| - |StripTrailing(s)|)
    ensures StripTrailing(s)[|StripTrailing(s)| - 1] != '0'
  {
    if |s| > 1 && s[|s| - 1] == '0' {
      var shorter := s[..|s| - 1];
      TrailingZeros(shorter);
      assert s == shorter + "0";
    } else {
      assert s + Zeros(0) == s;
    }
  }

  // ---------------------------------------------------------------- numbers

  /** Numerically equal: the same sign and value. */
  predicate SameNumber(a: Number, b: Number) {
    if a.Zero? || b.Zero? then a == b
    else
      && a.negative == b.negative && AllDigits(a.magnitude.digits) && AllDigits(b.magnitude.digits)
      && ScaledEqual(NatOf(a.magnitude.digits), a.magnitude.exponent, NatOf(b.magnitude.digits), b.magnitude.exponent)
  }

  predicate NormalNumber(n: Number) {
    n.Signed? ==> Stripped(n.magnitude)
  }

  /** Reads the text of a number. */
  function ReadNumber(text: string): Option<Number> {
    if text == "0" then Some(Zero)
    else if text != "" && text[0] == '-' then
      (if IsDecimalText(text[1..]) then Some(Signed(true, Read(text[1..]))) else None)
    else if IsDecimalText(text) then Some(Signed(false, Read(text)))
    else None
  }

  predicate IsNumberChar(c: char) {
    IsDigit(c) || c == '.' || c == 'e' || c == '+' || c == '-'
  }

  lemma {:induction false} NumberRoundTrip(n: Number)
    requires NormalNumber(n)
    ensures ReadNumber(NumberText(n)) == Some(n)
    ensures NumberText(n) != "" && (NumberText(n)[0] == '-' || IsDigit(NumberText(n)[0]))
    ensures NumberChars(NumberText(n))
  {
    if n.Signed? {
      RenderRoundTrip(n.magnitude);
      RenderedChars(n.magnitude);
      SignedReads(n.negative, Render(n.magnitude), n.magnitude);
    }
  }

  lemma SignedReads(negative: bool, text: string, d: Decimal)
    requires ReadsAs(text, d) && text != "" && IsDigit(text[0]) && text != "0" && NumberChars(text)
    ensures
      var signed := if negative then "-" + text else text;
      && ReadNumber(signed) == Some(Signed(negative, d)) && NumberChars(signed)
      && signed != "" && (signed[0] == '-' || IsDigit(signed[0]))
  {
    if negative { assert ("-" + text)[1..] == text; }
  }

  lemma RenderedChars(d: Decimal)
    requires Stripped(d)
    ensures Render(d) != "" && IsDigit(Render(d)[0]) && Render(d) != "0" && NumberChars(Render(d))
  {
    RenderedAsChars(d.digits, |d.digits| + d.exponent, InFixedRange(d));
  }

  lemma RenderedAsChars(digits: string, position: int, inRange: bool)
    requires AllDigits(digits) && digits != "" && digits[0] != '0'
    ensures
      var text := RenderAs(digits, position, inRange);
      text != "" && IsDigit(text[0]) && text != "0" && NumberChars(text)
  {
    if inRange { FixedChars(digits, position); } else { ScientificChars(digits, position - 1); }
  }

  predicate NumberChars(s: string) {
    forall i :: 0 <= i < |s| ==> IsNumberChar(s[i])
  }

  lemma FixedChars(digits: string, position: int)
    requires AllDigits(digits) && digits != "" && digits[0] != '0'
    ensures
      var text := FixedText(digits, position);
      text != "" && IsDigit(text[0]) && text != "0" && NumberChars(text)
  {
    var text := FixedText(digits, position);
    if position <= 0 {
      assert text[0] == '0' && text[1] == '.';
    } else {
      assert text[0] == digits[0];
    }
  }

  lemma ScientificChars(digits: string, exponent: int)
    requires AllDigits(digits) && digits != "" && digits[0] != '0'
    ensures
      var text := ScientificText(digits, exponent);
      text != "" && IsDigit(text[0]) && text != "0" && NumberChars(text)
  {
    var mantissa, signed := Mantissa(digits), SignedText(exponent);
    MantissaChars(digits);
    SignedChars(exponent);
    CharsJoin(mantissa, "e");
    CharsJoin(mantissa + "e", signed);
    assert (mantissa + "e" + signed)[0] == mantissa[0];
  }

  lemma MantissaChars(digits: string)
    requires AllDigits(digits) && digits != ""
    ensures NumberChars(Mantissa(digits)) && Mantissa(digits)[0] == digits[0]
  {
  }

  lemma SignedChars(exponent: int)
    ensures NumberChars(SignedText(exponent))
  {
  }

  lemma CharsJoin(a: string, b: string)
    requires NumberChars(a) && NumberChars(b)
    ensures NumberChars(a + b)
  {
  }

  /** Numbers have the same text exactly when they are numerically equal. */
  lemma {:induction false} SameTextIffSameNumber(a: Number, b: Number)
    requires NormalNumber(a) && NormalNumber(b)
    ensures NumberText(a) == NumberText(b) <==> SameNumber(a, b)
  {
    NumberRoundTrip(a);
    NumberRoundTrip(b);
    if SameNumber(a, b) && a.Signed? && b.Signed? { EqualDecimalsAreSame(a.magnitude, b.magnitude); }
    assert Pow10(0) == 1;
  }
}
