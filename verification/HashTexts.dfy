/** What counts as a SHA-256 identity: the pattern of a document's own
    validation (documents/models.py, _SHA256_PATTERN), and the looser test of
    the response decoder (documents/canonical.py, _require_sha256), which asks
    Python's int() to read the digits. */
module HashTexts {
  /** "sha256:" and 64 lower-case hexadecimal digits. */
  predicate IsSha256(s: string) {
    |s| == 71 && s[..7] == "sha256:" && forall i :: 7 <= i < 71 ==> IsHexDigit(s[i])
  }

  predicate IsHexDigit(c: char) {
    '0' <= c <= '9' || 'a' <= c <= 'f'
  }

  /** The decoder's test. Capital letters beyond ASCII need no mention: int()
      refuses them. */
  predicate IsHashText(s: string) {
    && |s| == 71 && s[..7] == "sha256:"
    && (forall i :: 0 <= i < |s| ==> !('A' <= s[i] <= 'Z'))
    && IsHexInteger(Transformed(s[7..]))
  }

  // ---------------------------------------------------------------- int(text, 16)

  /** The zeros of the decimal digits of Unicode 14.0; nine digits follow each. */
  const DECIMAL_ZEROS: seq<int> := [
    0x30, 0x660, 0x6F0, 0x7C0, 0x966, 0x9E6, 0xA66, 0xAE6, 0xB66, 0xBE6, 0xC66, 0xCE6, 0xD66, 0xDE6, 0xE50, 0xED0,
    0xF20, 0x1040, 0x1090, 0x17E0, 0x1810, 0x1946, 0x19D0, 0x1A80, 0x1A90, 0x1B50, 0x1BB0, 0x1C40, 0x1C50, 0xA620,
    0xA8D0, 0xA900, 0xA9D0, 0xA9F0, 0xAA50, 0xABF0, 0xFF10, 0x1_04A0, 0x1_0D30, 0x1_1066, 0x1_10F0, 0x1_1136,
    0x1_11D0, 0x1_12F0, 0x1_1450, 0x1_14D0, 0x1_1650, 0x1_16C0, 0x1_1730, 0x1_18E0, 0x1_1950, 0x1_1C50, 0x1_1D50,
    0x1_1DA0, 0x1_6A60, 0x1_6AC0, 0x1_6B50, 0x1_D7CE, 0x1_D7D8, 0x1_D7E2, 0x1_D7EC, 0x1_D7F6, 0x1_E140, 0x1_E2F0,
    0x1_E950, 0x1_FBF0]

  predicate IsUnicodeSpace(p: int) {
    p == 0x85 || p == 0xA0 || p == 0x1680 || 0x2000 <= p <= 0x200A || p == 0x2028 || p == 0x2029 || p == 0x202F
    || p == 0x205F || p == 0x3000
  }

  /** Decimal digits and spaces of other scripts count as those of ASCII. The
      value of a digit is of no interest here, except that it may be zero. */
  function AsciiOf(c: char): char {
    var p := c as int;
    if p < 127 then c
    else if IsUnicodeSpace(p) then ' '
    else if p in DECIMAL_ZEROS then '0'
    else if exists i :: 0 <= i < |DECIMAL_ZEROS| && DECIMAL_ZEROS[i] < p < DECIMAL_ZEROS[i] + 10 then '1'
    else '?'
  }

  function Transformed(s: string): (t: string)
    ensures |t| == |s|
  {
    seq(|s|, i requires 0 <= i < |s| => AsciiOf(s[i]))
  }

  predicate IsBlank(c: char) {
    c == ' ' || 9 <= c as int <= 13
  }

  function SkipBlanks(s: string): string {
    if s != "" && IsBlank(s[0]) then SkipBlanks(s[1..]) else s
  }

  function DropBlanks(s: string): string {
    if s != "" && IsBlank(s[|s| - 1]) then DropBlanks(s[..|s| - 1]) else s
  }

  function Unsigned(s: string): string {
    if s != "" && (s[0] == '+' || s[0] == '-') then s[1..] else s
  }

  /** Without the prefix of base sixteen, and one underscore behind it. */
  function Unprefixed(s: string): string {
    if |s| >= 2 && s[0] == '0' && s[1] == 'x' then (if |s| > 2 && s[2] == '_' then s[3..] else s[2..]) else s
  }

  /** Digits in groups that single underscores separate. */
  predicate IsDigitGroups(s: string) {
    && s != "" && s[0] != '_' && s[|s| - 1] != '_'
    && (forall i :: 0 <= i < |s| ==> IsHexDigit(s[i]) || s[i] == '_')
    && forall i :: 0 < i < |s| ==> s[i - 1] != '_' || s[i] != '_'
  }

  predicate IsHexInteger(s: string) {
    IsDigitGroups(Unprefixed(Unsigned(DropBlanks(SkipBlanks(s)))))
  }

  // ---------------------------------------------------------------- the two tests compared

  lemma AsciiStays(s: string)
    requires forall i :: 0 <= i < |s| ==> s[i] as int < 127
    ensures Transformed(s) == s
  {
  }

  /** A proper identity passes the looser test. */
  lemma {:induction false} ProperIsHashText(s: string)
    requires IsSha256(s)
    ensures IsHashText(s)
  {
    var digits := s[7..];
    forall i | 0 <= i < |digits| ensures IsHexDigit(digits[i]) { assert digits[i] == s[7 + i]; }
    forall i | 0 <= i < |s| ensures !('A' <= s[i] <= 'Z') {
      if i < 7 { assert s[i] == s[..7][i]; }
    }
    AsciiStays(digits);
    assert SkipBlanks(digits) == digits && DropBlanks(digits) == digits;
    assert Unprefixed(Unsigned(digits)) == digits;
  }

  /** The other direction fails: what int() makes of a base prefix, a sign, an
      underscore, a space or the digits of another script passes too. */
  lemma HashTextsThatAreNoHashes(digits: string)
    requires |digits| == 62 && forall i :: 0 <= i < |digits| ==> IsHexDigit(digits[i])
    ensures
      forall middle :: middle in ["0x", "+0", "-0", " 0"] ==>
        IsHashText("sha256:" + middle + digits) && !IsSha256("sha256:" + middle + digits)
  {
    forall middle | middle in ["0x", "+0", "-0", " 0"]
      ensures IsHashText("sha256:" + middle + digits) && !IsSha256("sha256:" + middle + digits)
    {
      PrefixedHash(middle, digits);
    }
  }

  lemma PrefixedHash(middle: string, digits: string)
    requires |digits| == 62 && forall i :: 0 <= i < |digits| ==> IsHexDigit(digits[i])
    requires middle == "0x" || middle == "+0" || middle == "-0" || middle == " 0"
    ensures IsHashText("sha256:" + middle + digits) && !IsSha256("sha256:" + middle + digits)
  {
    var s, t := "sha256:" + middle + digits, middle + digits;
    assert s[..7] == "sha256:" && s[7..] == t;
    forall i | 0 <= i < |s| ensures !('A' <= s[i] <= 'Z') && s[i] as int < 127 {
      if i >= 9 { assert s[i] == digits[i - 9]; }
    }
    AsciiStays(t);
    PrefixedReads(middle, digits);
    assert !IsHexDigit(s[7]) || !IsHexDigit(s[8]);
  }

  lemma PrefixedReads(middle: string, digits: string)
    requires |digits| == 62 && forall i :: 0 <= i < |digits| ==> IsHexDigit(digits[i])
    requires middle == "0x" || middle == "+0" || middle == "-0" || middle == " 0"
    ensures IsHexInteger(middle + digits)
  {
    var t := middle + digits;
    assert !IsBlank(t[|t| - 1]) && !IsBlank(t[1]);
    if middle == " 0" {
      assert SkipBlanks(t) == t[1..];
      assert DropBlanks(t[1..]) == t[1..];
    } else {
      assert SkipBlanks(t) == t && DropBlanks(t) == t;
    }
  }
}
