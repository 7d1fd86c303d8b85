/** Canonical JSON (foundation/canonical.py): one text per value, whatever the
    order in which its objects were built, and one value per text. Object keys
    are ordered by UTF-16 code units, as section 3.2.3 of RFC 8785 requires. */
module CanonicalJson {
  import opened Outcomes
  import opened CanonicalNumbers
  import opened Sorting

  datatype Entry<T> = Entry(key: string, value: T)

  /** A value to encode; an object lists its members in insertion order. */
  datatype Json =
    | Null
    | Bool(truth: bool)
    | Integer(n: int)
    | Real(f: Float)
    | Text(s: string)
    | Array(items: seq<Json>)
    | Object(members: seq<Entry<Json>>)

  // ---------------------------------------------------------------- key order

  /** The UTF-16 code units of a character. */
  function Units(c: char): seq<nat> {
    var point := c as int;
    if point < 0x1_0000 then [point]
    else [0xD800 + (point - 0x1_0000) / 0x400, 0xDC00 + (point - 0x1_0000) % 0x400]
  }

  function CodeUnits(s: string): seq<nat> {
    if s == "" then [] else Units(s[0]) + CodeUnits(s[1..])
  }

  predicate UnitsLess(a: seq<nat>, b: seq<nat>) {
    if b == [] then false
    else if a == [] then true
    else a[0] < b[0] || (a[0] == b[0] && UnitsLess(a[1..], b[1..]))
  }

  predicate KeyLess(a: string, b: string) {
    UnitsLess(CodeUnits(a), CodeUnits(b))
  }

  lemma {:induction false} UnitsLessTransitive(a: seq<nat>, b: seq<nat>, c: seq<nat>)
    requires UnitsLess(a, b) && UnitsLess(b, c)
    ensures UnitsLess(a, c)
  {
    if a != [] && a[0] == b[0] == c[0] { UnitsLessTransitive(a[1..], b[1..], c[1..]); }
  }

  lemma {:induction false} UnitsLessTotal(a: seq<nat>, b: seq<nat>)
    ensures !(UnitsLess(a, b) && UnitsLess(b, a))
    ensures UnitsLess(a, b) || UnitsLess(b, a) || a == b
    ensures a == b ==> !UnitsLess(a, b)
  {
    if a != [] && b != [] && a[0] == b[0] {
      UnitsLessTotal(a[1..], b[1..]);
      assert a == [a[0]] + a[1..] && b == [b[0]] + b[1..];
    }
  }

  /** Different characters differ in their code units, and none is a prefix of
      another's. */
  lemma UnitsPrefixFree(c: char, d: char, a: seq<nat>, b: seq<nat>)
    requires Units(c) + a == Units(d) + b
    ensures c == d && a == b
  {
    var left, right := Units(c) + a, Units(d) + b;
    assert left[0] == Units(c)[0] && right[0] == Units(d)[0];
    if |Units(c)| == 2 && |Units(d)| == 2 {
      assert left[1] == Units(c)[1] && right[1] == Units(d)[1];
    }
    assert c == d;
    assert a == left[|Units(c)|..] && b == right[|Units(d)|..];
  }

  lemma {:induction false} CodeUnitsInjective(a: string, b: string)
    requires CodeUnits(a) == CodeUnits(b)
    ensures a == b
  {
    if a != "" && b != "" {
      UnitsPrefixFree(a[0], b[0], CodeUnits(a[1..]), CodeUnits(b[1..]));
      CodeUnitsInjective(a[1..], b[1..]);
      assert a == [a[0]] + a[1..] && b == [b[0]] + b[1..];
    }
  }

  /** The order on keys is a strict total order. */
  lemma KeyLessTotal(a: string, b: string)
    ensures !(KeyLess(a, b) && KeyLess(b, a)) && (KeyLess(a, b) || KeyLess(b, a) || a == b) && !KeyLess(a, a)
  {
    UnitsLessTotal(CodeUnits(a), CodeUnits(b));
    UnitsLessTotal(CodeUnits(a), CodeUnits(a));
    if CodeUnits(a) == CodeUnits(b) { CodeUnitsInjective(a, b); }
  }

  // ---------------------------------------------------------------- sorting members

  function ByKey<T>(): (Entry<T>, Entry<T>) -> bool {
    (e: Entry<T>, f: Entry<T>) => KeyLess(e.key, f.key)
  }

  function SortEntries<T>(es: seq<Entry<T>>): seq<Entry<T>> {
    Sort(es, ByKey())
  }

  predicate DistinctKeys<T>(es: seq<Entry<T>>) {
    forall i, j :: 0 <= i < j < |es| ==> es[i].key != es[j].key
  }

  lemma ByKeyIsStrict<T(!new)>()
    ensures StrictOrder(ByKey<T>())
  {
    forall e: Entry<T>, f: Entry<T> | ByKey()(e, f) ensures !ByKey()(f, e) { KeyLessTotal(e.key, f.key); }
    forall e: Entry<T>, f: Entry<T>, g: Entry<T> | ByKey()(e, f) && ByKey()(f, g) ensures ByKey()(e, g) {
      UnitsLessTransitive(CodeUnits(e.key), CodeUnits(f.key), CodeUnits(g.key));
    }
  }

  lemma DistinctAreComparable<T>(es: seq<Entry<T>>)
    requires DistinctKeys(es)
    ensures Comparable(es, ByKey())
  {
    forall i, j | 0 <= i < j < |es| ensures ByKey()(es[i], es[j]) || ByKey()(es[j], es[i]) {
      KeyLessTotal(es[i].key, es[j].key);
    }
  }

  // ---------------------------------------------------------------- strings

  function HexChar(d: nat): char
    requires d < 16
  {
    "0123456789abcdef"[d]
  }

  function EscapeChar(c: char): string {
    if c == '\"' then "\\\""
    else if c == '\\' then "\\\\"
    else if c == '\n' then "\\n"
    else if c == '\r' then "\\r"
    else if c == '\t' then "\\t"
    else if c as int == 0x08 then "\\b"
    else if c as int == 0x0C then "\\f"
    else if c as int < 0x20 then "\\u00" + [HexChar(c as int / 16), HexChar(c as int % 16)]
    else [c]
  }

  function EscapeAll(s: string): string {
    if s == "" then "" else EscapeChar(s[0]) + EscapeAll(s[1..])
  }

  function EncodeString(s: string): string {
    "\"" + EscapeAll(s) + "\""
  }

  // ---------------------------------------------------------------- encoding

  /** What the type system of the source guarantees: a mapping has each key
      once, and `repr` writes decimals. */
  ghost predicate Valid(v: Json) {
    match v
    case Real(f) => ValidFloat(f)
    case Array(items) => forall i :: 0 <= i < |items| ==> Valid(items[i])
    case Object(members) => DistinctKeys(members) && forall i :: 0 <= i < |members| ==> Valid(members[i].value)
    case _ => true
  }

  function Join(parts: seq<string>): string {
    if |parts| == 0 then "" else if |parts| == 1 then parts[0] else parts[0] + "," + Join(parts[1..])
  }

  predicate AllOk(parts: seq<Result<string>>) {
    forall i :: 0 <= i < |parts| ==> parts[i].Ok?
  }

  function Values(parts: seq<Result<string>>): seq<string>
    requires AllOk(parts)
  {
    seq(|parts|, i requires 0 <= i < |parts| => parts[i].value)
  }

  function MemberText(key: string, value: Result<string>): Result<string> {
    match value
    case Err => Err
    case Ok(text) => Ok(EncodeString(key) + ":" + text)
  }

  /** Encodes a value, or raises for a number JSON cannot carry exactly. */
  function Encode(v: Json): Result<string>
    requires Valid(v)
  {
    match v
    case Null => Ok("null")
    case Bool(truth) => Ok(if truth then "true" else "false")
    case Integer(n) => if n > MAX_SAFE_INTEGER || -n > MAX_SAFE_INTEGER then Err else Ok(IntText(n))
    case Real(f) => if f.NonFinite? then Err else Ok(NumberText(NumberOf(f)))
    case Text(s) => Ok(EncodeString(s))
    case Array(items) =>
      var parts := seq(|items|, i requires 0 <= i < |items| => Encode(items[i]));
      if AllOk(parts) then Ok("[" + Join(Values(parts)) + "]") else Err
    case Object(members) =>
      var encoded :=
        seq(|members|, i requires 0 <= i < |members| => Entry(members[i].key, Encode(members[i].value)));
      var parts := MemberTexts(SortEntries(encoded));
      if AllOk(parts) then Ok("{" + Join(Values(parts)) + "}") else Err
  }

  function MemberTexts(sorted: seq<Entry<Result<string>>>): seq<Result<string>> {
    seq(|sorted|, i requires 0 <= i < |sorted| => MemberText(sorted[i].key, sorted[i].value))
  }

  // ---------------------------------------------------------------- normal forms

  /** A value without the accidents of its construction: numbers by value,
      members in key order. */
  datatype Norm =
    | NormNull
    | NormBool(truth: bool)
    | NormNumber(number: Number)
    | NormText(s: string)
    | NormArray(items: seq<Norm>)
    | NormObject(members: seq<Entry<Norm>>)

  predicate IsNormal(n: Norm) {
    match n
    case NormNumber(number) => NormalNumber(number)
    case NormArray(items) => forall i :: 0 <= i < |items| ==> IsNormal(items[i])
    case NormObject(members) => Ordered(members, ByKey()) && forall i :: 0 <= i < |members| ==> IsNormal(members[i].value)
    case _ => true
  }

  function Print(n: Norm): string
    requires IsNormal(n)
  {
    match n
    case NormNull => "null"
    case NormBool(truth) => if truth then "true" else "false"
    case NormNumber(number) => NumberText(number)
    case NormText(s) => EncodeString(s)
    case NormArray(items) => "[" + Join(seq(|items|, i requires 0 <= i < |items| => Print(items[i]))) + "]"
    case NormObject(members) =>
      "{" + Join(seq(|members|, i requires 0 <= i < |members| =>
        EncodeString(members[i].key) + ":" + Print(members[i].value))) + "}"
  }

  // ---------------------------------------------------------------- a parser

  predicate StartsWith(t: string, word: string) {
    |word| <= |t| && t[..|word|] == word
  }

  function TakeNumber(t: string): (r: string)
    ensures r <= t
  {
    if t != "" && IsNumberChar(t[0]) then [t[0]] + TakeNumber(t[1..]) else ""
  }

  function HexValue(c: char): Option<nat> {
    if '0' <= c <= '9' then Some(c as int - '0' as int)
    else if 'a' <= c <= 'f' then Some(c as int - 'a' as int + 10)
    else None
  }

  /** The character after a backslash: itself, a control, or `u00` and two
      hexadecimal digits. Returns the character and the length used. */
  function ParseEscape(t: string): Option<(char, nat)> {
    if t == "" then None
    else if t[0] == '\"' || t[0] == '\\' then Some((t[0], 1))
    else if t[0] == 'n' then Some(('\n', 1))
    else if t[0] == 'r' then Some(('\r', 1))
    else if t[0] == 't' then Some(('\t', 1))
    else if t[0] == 'b' then Some((8 as char, 1))
    else if t[0] == 'f' then Some((12 as char, 1))
    else if StartsWith(t, "u00") && |t| >= 5 && HexValue(t[3]).Some? && HexValue(t[4]).Some? then
      Some(((HexValue(t[3]).value * 16 + HexValue(t[4]).value) as char, 5))
    else None
  }

  /** The rest of a string after its opening quote, and what follows it. */
  function ParseChars(t: string): (r: Option<(string, string)>)
    ensures r.Some? ==> |r.value.1| < |t|
    decreases |t|
  {
    if t == "" then None
    else if t[0] == '\"' then Some(("", t[1..]))
    else if t[0] == '\\' then
      match ParseEscape(t[1..])
      case None => None
      case Some((c, used)) =>
        if used + 1 > |t| then None
        else match ParseChars(t[1 + used..])
             case None => None
             case Some((s, rest)) => Some(([c] + s, rest))
    else match ParseChars(t[1..])
         case None => None
         case Some((s, rest)) => Some(([t[0]] + s, rest))
  }

  function ParseNumber(t: string, token: string): Option<(Norm, string)>
    requires token <= t
  {
    match ReadNumber(token)
    case None => None
    case Some(number) => Some((NormNumber(number), t[|token|..]))
  }

  function ParseValue(t: string): Option<(Norm, string)>
    decreases |t|, 0
  {
    if t == "" then None
    else if t[0] == 'n' then (if StartsWith(t, "null") then Some((NormNull, t[4..])) else None)
    else if t[0] == 't' then (if StartsWith(t, "true") then Some((NormBool(true), t[4..])) else None)
    else if t[0] == 'f' then (if StartsWith(t, "false") then Some((NormBool(false), t[5..])) else None)
    else if t[0] == '\"' then
      match ParseChars(t[1..])
      case None => None
      case Some((s, rest)) => Some((NormText(s), rest))
    else if t[0] == '[' then
      if |t| > 1 && t[1] == ']' then Some((NormArray([]), t[2..]))
      else match ParseItems(t[1..])
           case None => None
           case Some((items, rest)) => Some((NormArray(items), rest))
    else if t[0] == '{' then
      if |t| > 1 && t[1] == '}' then Some((NormObject([]), t[2..]))
      else match ParseMembers(t[1..])
           case None => None
           case Some((members, rest)) => Some((NormObject(members), rest))
    else ParseNumber(t, TakeNumber(t))
  }

  function ParseItems(t: string): Option<(seq<Norm>, string)>
    decreases |t|, 1
  {
    match ParseValue(t)
    case None => None
    case Some((n, rest)) =>
      if rest == "" || |rest| > |t| then None
      else if rest[0] == ']' then Some(([n], rest[1..]))
      else if rest[0] != ',' then None
      else match ParseItems(rest[1..])
           case None => None
           case Some((items, rest')) => Some(([n] + items, rest'))
  }

  function ParseMembers(t: string): Option<(seq<Entry<Norm>>, string)>
    decreases |t|, 1
  {
    if t == "" || t[0] != '\"' then None
    else match ParseChars(t[1..])
         case None => None
         case Some((key, rest)) =>
           if rest == "" || rest[0] != ':' then None
           else match ParseValue(rest[1..])
                case None => None
                case Some((n, rest')) =>
                  if rest' == "" || |rest'| > |t| then None
                  else if rest'[0] == '}' then Some(([Entry(key, n)], rest'[1..]))
                  else if rest'[0] != ',' then None
                  else match ParseMembers(rest'[1..])
                       case None => None
                       case Some((members, rest'')) => Some(([Entry(key, n)] + members, rest''))
  }

  // ---------------------------------------------------------------- parsing inverts printing

  lemma {:induction false} CharRoundTrip(c: char, more: string)
    ensures
      var t := EscapeChar(c) + more;
      && t != "" && t[0] != '\"'
      && (if EscapeChar(c) == [c] then t[0] == c && t[0] != '\\' && t[1..] == more
          else t[0] == '\\' && ParseEscape(t[1..]) == Some((c, |EscapeChar(c)| - 1)) && t[|EscapeChar(c)|..] == more)
  {
    var t := EscapeChar(c) + more;
    if c as int < 0x20 && |EscapeChar(c)| == 6 {
      assert t[1..] == "u00" + [HexChar(c as int / 16), HexChar(c as int % 16)] + more;
      assert t[1..][..3] == "u00";
    } else if |EscapeChar(c)| == 2 {
      assert t[1] == EscapeChar(c)[1];
    }
  }

  lemma {:induction false} CharsRoundTrip(s: string, rest: string)
    ensures ParseChars(EscapeAll(s) + "\"" + rest) == Some((s, rest))
  {
    if s == "" {
      ClosingQuote(EscapeAll(s) + "\"" + rest, rest);
    } else {
      var more := EscapeAll(s[1..]) + "\"" + rest;
      CharsRoundTrip(s[1..], rest);
      assert EscapeAll(s) + "\"" + rest == EscapeChar(s[0]) + more;
      OneCharFirst(s[0], s[1..], more, rest, EscapeAll(s) + "\"" + rest);
      assert [s[0]] + s[1..] == s;
    }
  }

  lemma ClosingQuote(t: string, rest: string)
    requires t == "\"" + rest
    ensures ParseChars(t) == Some(("", rest))
  {
  }

  lemma OneCharFirst(c: char, s: string, more: string, rest: string, t: string)
    requires ParseChars(more) == Some((s, rest)) && t == EscapeChar(c) + more
    ensures ParseChars(t) == Some(([c] + s, rest))
  {
    CharRoundTrip(c, more);
  }

  lemma StringRoundTrip(s: string, rest: string)
    ensures EncodeString(s) + rest != "" && (EncodeString(s) + rest)[0] == '\"'
    ensures ParseChars((EncodeString(s) + rest)[1..]) == Some((s, rest))
  {
    CharsRoundTrip(s, rest);
    assert (EncodeString(s) + rest)[1..] == EscapeAll(s) + "\"" + rest;
  }

  /** What may follow a value: nothing, or a delimiter. */
  predicate Ends(rest: string) {
    rest == "" || rest[0] == ',' || rest[0] == ']' || rest[0] == '}'
  }

  lemma {:induction false} TakesNumber(text: string, rest: string)
    requires Ends(rest) && forall i :: 0 <= i < |text| ==> IsNumberChar(text[i])
    ensures TakeNumber(text + rest) == text
  {
    if text == "" {
      assert text + rest == rest;
    } else {
      assert (text + rest)[1..] == text[1..] + rest;
      TakesNumber(text[1..], rest);
      assert text == [text[0]] + text[1..];
    }
  }

  lemma NumberParses(number: Number, rest: string)
    requires NormalNumber(number) && Ends(rest)
    ensures ParseValue(NumberText(number) + rest) == Some((NormNumber(number), rest))
  {
    NumberRoundTrip(number);
    TokenParses(number, NumberText(number), rest);
  }

  lemma TokenParses(number: Number, text: string, rest: string)
    requires text != "" && (text[0] == '-' || IsDigit(text[0])) && ReadNumber(text) == Some(number) && Ends(rest)
    requires forall i :: 0 <= i < |text| ==> IsNumberChar(text[i])
    ensures ParseValue(text + rest) == Some((NormNumber(number), rest))
  {
    var t := text + rest;
    TakesNumber(text, rest);
    assert t[|text|..] == rest;
    NumberStarts(t[0]);
    NumberBranch(t);
    assert ParseNumber(t, text) == Some((NormNumber(number), rest));
  }

  lemma NumberStarts(c: char)
    requires c == '-' || IsDigit(c)
    ensures c != 'n' && c != 't' && c != 'f' && c != '\"' && c != '[' && c != '{'
  {
  }

  lemma NumberBranch(t: string)
    requires t != "" && t[0] != 'n' && t[0] != 't' && t[0] != 'f' && t[0] != '\"' && t[0] != '[' && t[0] != '{'
    ensures ParseValue(t) == ParseNumber(t, TakeNumber(t))
  {
  }

  lemma WordParses(n: Norm, rest: string)
    requires n.NormNull? || n.NormBool?
    ensures ParseValue(Print(n) + rest) == Some((n, rest))
  {
    var t := Print(n) + rest;
    assert t[..|Print(n)|] == Print(n) && t[|Print(n)|..] == rest;
  }

  lemma TextParses(s: string, rest: string)
    ensures ParseValue(EncodeString(s) + rest) == Some((NormText(s), rest))
  {
    var t := EncodeString(s) + rest;
    StringRoundTrip(s, rest);
  }

  function Prints(items: seq<Norm>): seq<string>
    requires forall i :: 0 <= i < |items| ==> IsNormal(items[i])
  {
    seq(|items|, i requires 0 <= i < |items| => Print(items[i]))
  }

  function MemberPrints(members: seq<Entry<Norm>>): seq<string>
    requires forall i :: 0 <= i < |members| ==> IsNormal(members[i].value)
  {
    seq(|members|, i requires 0 <= i < |members| => EncodeString(members[i].key) + ":" + Print(members[i].value))
  }

  lemma JoinFrom(parts: seq<string>, k: nat)
    requires k < |parts|
    ensures Join(parts[k..]) == if k + 1 == |parts| then parts[k] else parts[k] + "," + Join(parts[k + 1..])
  {
    assert parts[k..][1..] == parts[k + 1..];
  }

  /** The text of a value is never empty and starts with neither bracket that
      closes nor a comma. */
  lemma {:induction false} PrintStarts(n: Norm)
    requires IsNormal(n)
    ensures Print(n) != "" && Print(n)[0] != ']' && Print(n)[0] != '}' && Print(n)[0] != ','
  {
    if n.NormNumber? { NumberRoundTrip(n.number); }
  }

  // One step of each loop of the parser.

  lemma LastItem(t: string, n: Norm, rest: string)
    requires ParseValue(t) == Some((n, "]" + rest)) && |rest| < |t|
    ensures ParseItems(t) == Some(([n], rest))
  {
    assert ("]" + rest)[1..] == rest;
  }

  lemma NextItem(t: string, n: Norm, more: string, items: seq<Norm>, rest: string)
    requires ParseValue(t) == Some((n, "," + more)) && |more| < |t| && ParseItems(more) == Some((items, rest))
    ensures ParseItems(t) == Some(([n] + items, rest))
  {
    assert ("," + more)[1..] == more;
  }

  lemma LastMember(t: string, key: string, after: string, n: Norm, rest: string)
    requires t != "" && t[0] == '\"' && ParseChars(t[1..]) == Some((key, ":" + after))
    requires ParseValue(after) == Some((n, "}" + rest)) && |rest| < |t|
    ensures ParseMembers(t) == Some(([Entry(key, n)], rest))
  {
    assert (":" + after)[1..] == after;
    assert ("}" + rest)[1..] == rest;
  }

  lemma NextMember(
    t: string, key: string, after: string, n: Norm, more: string, members: seq<Entry<Norm>>, rest: string)
    requires t != "" && t[0] == '\"' && ParseChars(t[1..]) == Some((key, ":" + after))
    requires ParseValue(after) == Some((n, "," + more)) && |more| < |t| && ParseMembers(more) == Some((members, rest))
    ensures ParseMembers(t) == Some(([Entry(key, n)] + members, rest))
  {
    assert (":" + after)[1..] == after;
    assert ("," + more)[1..] == more;
  }

  /** The text parses as the value, whatever follows it. */
  ghost predicate Parses(text: string, n: Norm) {
    text != "" && forall rest :: Ends(rest) ==> ParseValue(text + rest) == Some((n, rest))
  }

  lemma JoinedFrom(parts: seq<string>, k: nat, close: string)
    requires k < |parts|
    ensures Join(parts[k..]) + close ==
              parts[k] + if k + 1 == |parts| then close else "," + (Join(parts[k + 1..]) + close)
  {
    assert parts[k..][1..] == parts[k + 1..];
  }

  lemma Tail<T>(xs: seq<T>, k: nat)
    requires k < |xs|
    ensures xs[k..] == [xs[k]] + xs[k + 1..]
    ensures k + 1 == |xs| ==> xs[k..] == [xs[k]]
  {
  }

  lemma FinalItem(text: string, n: Norm, rest: string)
    requires Parses(text, n)
    ensures ParseItems(text + ("]" + rest)) == Some(([n], rest))
  {
    LastItem(text + ("]" + rest), n, rest);
  }

  lemma AnotherItem(text: string, n: Norm, more: string, items: seq<Norm>, rest: string)
    requires Parses(text, n) && ParseItems(more) == Some((items, rest))
    ensures ParseItems(text + ("," + more)) == Some(([n] + items, rest))
  {
    NextItem(text + ("," + more), n, more, items, rest);
  }

  lemma {:induction false} ItemsParse(parts: seq<string>, items: seq<Norm>, k: nat, rest: string)
    requires |parts| == |items| && k < |parts| && forall i :: 0 <= i < |parts| ==> Parses(parts[i], items[i])
    ensures ParseItems(Join(parts[k..]) + ("]" + rest)) == Some((items[k..], rest))
    decreases |parts| - k
  {
    JoinedFrom(parts, k, "]" + rest);
    Tail(items, k);
    if k + 1 == |parts| {
      FinalItem(parts[k], items[k], rest);
    } else {
      ItemsParse(parts, items, k + 1, rest);
      AnotherItem(parts[k], items[k], Join(parts[k + 1..]) + ("]" + rest), items[k + 1..], rest);
    }
  }

  lemma {:induction false} MembersParse(
    keys: seq<string>, values: seq<string>, members: seq<Entry<Norm>>, parts: seq<string>, k: nat, rest: string)
    requires |keys| == |values| == |members| == |parts| && k < |parts|
    requires forall i :: 0 <= i < |parts| ==>
      && members[i].key == keys[i] && Parses(values[i], members[i].value)
      && parts[i] == EncodeString(keys[i]) + ":" + values[i]
    ensures ParseMembers(Join(parts[k..]) + ("}" + rest)) == Some((members[k..], rest))
    decreases |parts| - k
  {
    JoinedFrom(parts, k, "}" + rest);
    Tail(members, k);
    if k + 1 == |parts| {
      FinalMember(keys[k], values[k], members[k].value, rest);
    } else {
      MembersParse(keys, values, members, parts, k + 1, rest);
      AnotherMember(keys[k], values[k], members[k].value, Join(parts[k + 1..]) + ("}" + rest), members[k + 1..], rest);
    }
  }

  lemma FinalMember(key: string, text: string, value: Norm, rest: string)
    requires Parses(text, value)
    ensures ParseMembers(EncodeString(key) + ":" + text + ("}" + rest)) == Some(([Entry(key, value)], rest))
  {
    var t := EncodeString(key) + ":" + text + ("}" + rest);
    MemberSplits(t, key, text, "}" + rest);
    LastMember(t, key, text + ("}" + rest), value, rest);
  }

  lemma AnotherMember(
    key: string, text: string, value: Norm, more: string, members: seq<Entry<Norm>>, rest: string)
    requires Parses(text, value) && ParseMembers(more) == Some((members, rest))
    ensures ParseMembers(EncodeString(key) + ":" + text + ("," + more)) == Some(([Entry(key, value)] + members, rest))
  {
    var t := EncodeString(key) + ":" + text + ("," + more);
    MemberSplits(t, key, text, "," + more);
    NextMember(t, key, text + ("," + more), value, more, members, rest);
  }

  lemma MemberSplits(t: string, key: string, value: string, after: string)
    requires t == EncodeString(key) + ":" + value + after
    ensures t != "" && t[0] == '\"' && ParseChars(t[1..]) == Some((key, ":" + (value + after)))
    ensures |value + after| < |t|
  {
    assert t == EncodeString(key) + (":" + (value + after));
    StringRoundTrip(key, ":" + (value + after));
  }

  lemma Bracketed(t: string, inner: string, items: seq<Norm>, rest: string)
    requires t == "[" + inner && inner != "" && inner[0] != ']' && ParseItems(inner) == Some((items, rest))
    ensures ParseValue(t) == Some((NormArray(items), rest))
  {
    assert t[1..] == inner;
  }

  lemma Braced(t: string, inner: string, members: seq<Entry<Norm>>, rest: string)
    requires t == "{" + inner && inner != "" && inner[0] != '}' && ParseMembers(inner) == Some((members, rest))
    ensures ParseValue(t) == Some((NormObject(members), rest))
  {
    assert t[1..] == inner;
  }

  lemma EmptyParses(rest: string)
    ensures ParseValue("[]" + rest) == Some((NormArray([]), rest))
    ensures ParseValue("{}" + rest) == Some((NormObject([]), rest))
  {
    assert ("[]" + rest)[2..] == rest && ("{}" + rest)[2..] == rest;
  }

  lemma ArrayParses(parts: seq<string>, items: seq<Norm>, rest: string)
    requires |parts| == |items| && forall i :: 0 <= i < |parts| ==> Parses(parts[i], items[i])
    requires forall i :: 0 <= i < |parts| ==> parts[i] != "" && parts[i][0] != ']'
    ensures ParseValue("[" + Join(parts) + "]" + rest) == Some((NormArray(items), rest))
  {
    if parts == [] {
      assert "[" + Join(parts) + "]" + rest == "[]" + rest;
      EmptyParses(rest);
    } else {
      ItemsParse(parts, items, 0, rest);
      JoinFrom(parts, 0);
      assert parts[0..] == parts && items[0..] == items;
      assert "[" + Join(parts) + "]" + rest == "[" + (Join(parts) + ("]" + rest));
      Bracketed("[" + Join(parts) + "]" + rest, Join(parts) + ("]" + rest), items, rest);
    }
  }

  lemma ObjectParses(
    keys: seq<string>, values: seq<string>, members: seq<Entry<Norm>>, parts: seq<string>, rest: string)
    requires |keys| == |values| == |members| == |parts|
    requires forall i :: 0 <= i < |parts| ==>
      && members[i].key == keys[i] && Parses(values[i], members[i].value)
      && parts[i] == EncodeString(keys[i]) + ":" + values[i]
    ensures ParseValue("{" + Join(parts) + "}" + rest) == Some((NormObject(members), rest))
  {
    if parts == [] {
      assert "{" + Join(parts) + "}" + rest == "{}" + rest;
      EmptyParses(rest);
    } else {
      MembersParse(keys, values, members, parts, 0, rest);
      JoinFrom(parts, 0);
      assert parts[0][0] == '\"';
      assert parts[0..] == parts && members[0..] == members;
      assert "{" + Join(parts) + "}" + rest == "{" + (Join(parts) + ("}" + rest));
      Braced("{" + Join(parts) + "}" + rest, Join(parts) + ("}" + rest), members, rest);
    }
  }

  /** Parsing what was printed gives the value back and leaves what followed. */
  lemma {:induction false} PrintParses(n: Norm)
    requires IsNormal(n)
    ensures Parses(Print(n), n)
  {
    PrintStarts(n);
    forall rest | Ends(rest) ensures ParseValue(Print(n) + rest) == Some((n, rest)) {
      match n {
        case NormNull => WordParses(n, rest);
        case NormBool(_) => WordParses(n, rest);
        case NormNumber(number) => NumberParses(number, rest);
        case NormText(s) => TextParses(s, rest);
        case NormArray(items) =>
          forall i | 0 <= i < |items| ensures Parses(Prints(items)[i], items[i]) && Prints(items)[i][0] != ']' {
            PrintParses(items[i]);
            PrintStarts(items[i]);
          }
          ArrayParses(Prints(items), items, rest);
        case NormObject(members) =>
          var keys := seq(|members|, i requires 0 <= i < |members| => members[i].key);
          var values := ValuePrints(members);
          forall i | 0 <= i < |members| ensures Parses(values[i], members[i].value) {
            PrintParses(members[i].value);
          }
          ObjectParses(keys, values, members, MemberPrints(members), rest);
      }
    }
  }

  function ValuePrints(members: seq<Entry<Norm>>): seq<string>
    requires forall i :: 0 <= i < |members| ==> IsNormal(members[i].value)
  {
    seq(|members|, i requires 0 <= i < |members| => Print(members[i].value))
  }

  // ---------------------------------------------------------------- one text per value

  /** Every number in the value can be carried exactly. */
  ghost predicate Encodable(v: Json) {
    match v
    case Integer(n) => -MAX_SAFE_INTEGER <= n <= MAX_SAFE_INTEGER
    case Real(f) => !f.NonFinite?
    case Array(items) => forall i :: 0 <= i < |items| ==> Encodable(items[i])
    case Object(members) => forall i :: 0 <= i < |members| ==> Encodable(members[i].value)
    case _ => true
  }

  /** The number a value is; values that are no number, or none that JSON can
      carry, count as zero. */
  function AsNumber(v: Json): Number {
    match v
    case Integer(n) => IntegerNumber(n)
    case Real(f) => if ValidFloat(f) && !f.NonFinite? then NumberOf(f) else Zero
    case _ => Zero
  }

  function Normal(v: Json): Norm {
    match v
    case Null => NormNull
    case Bool(truth) => NormBool(truth)
    case Integer(_) => NormNumber(AsNumber(v))
    case Real(_) => NormNumber(AsNumber(v))
    case Text(s) => NormText(s)
    case Array(items) => NormArray(seq(|items|, i requires 0 <= i < |items| => Normal(items[i])))
    case Object(members) =>
      NormObject(SortEntries(
        seq(|members|, i requires 0 <= i < |members| => Entry(members[i].key, Normal(members[i].value)))))
  }

  function NormalMembers(members: seq<Entry<Json>>): seq<Entry<Norm>> {
    seq(|members|, i requires 0 <= i < |members| => Entry(members[i].key, Normal(members[i].value)))
  }

  /** The same value: numbers are compared by value and objects by their
      members, whatever their order. */
  ghost predicate Same(v: Json, w: Json)
    decreases v
  {
    match v
    case Null => w.Null?
    case Bool(truth) => w.Bool? && w.truth == truth
    case Integer(_) => (w.Integer? || w.Real?) && SameNumber(AsNumber(v), AsNumber(w))
    case Real(_) => (w.Integer? || w.Real?) && SameNumber(AsNumber(v), AsNumber(w))
    case Text(s) => w.Text? && w.s == s
    case Array(items) =>
      w.Array? && |w.items| == |items| && forall i :: 0 <= i < |items| ==> Same(items[i], w.items[i])
    case Object(members) => w.Object? && SameObject(members, w.members)
  }

  ghost predicate SameObject(members: seq<Entry<Json>>, others: seq<Entry<Json>>)
    decreases members, 1
  {
    && (forall i :: 0 <= i < |members| ==> SameAsOne(members, i, others))
    && (forall j :: 0 <= j < |others| ==> OneSameAs(members, others[j]))
  }

  ghost predicate SameAsOne(members: seq<Entry<Json>>, i: nat, others: seq<Entry<Json>>)
    requires i < |members|
    decreases members, 0
  {
    exists j :: 0 <= j < |others| && SameMember(members[i], others[j])
  }

  ghost predicate OneSameAs(members: seq<Entry<Json>>, other: Entry<Json>)
    decreases members, 0
  {
    exists i :: 0 <= i < |members| && SameMember(members[i], other)
  }

  ghost predicate SameMember(e: Entry<Json>, f: Entry<Json>)
    decreases e
  {
    e.key == f.key && Same(e.value, f.value)
  }

  lemma NumbersAreNormal(v: Json)
    requires (v.Integer? || v.Real?) && Valid(v) && Encodable(v)
    ensures NormalNumber(AsNumber(v)) && Encode(v) == Ok(NumberText(AsNumber(v)))
  {
    if v.Integer? {
      IntegersAreNumbers(v.n);
    } else if v.f.Finite? {
      ReadKeepsValue(v.f.raw);
    }
  }

  lemma {:induction false} InsertRelated<T, U>(
    es: seq<Entry<T>>, e: Entry<T>, fs: seq<Entry<U>>, f: Entry<U>, related: (T, U) -> bool)
    requires Related(es, fs, related) && e.key == f.key && related(e.value, f.value)
    ensures Related(Insert(es, e, ByKey()), Insert(fs, f, ByKey()), related)
  {
    if es != [] && !KeyLess(e.key, es[0].key) { InsertRelated(es[1..], e, fs[1..], f, related); }
  }

  predicate Related<T, U>(es: seq<Entry<T>>, fs: seq<Entry<U>>, related: (T, U) -> bool) {
    |es| == |fs| && forall i :: 0 <= i < |es| ==> es[i].key == fs[i].key && related(es[i].value, fs[i].value)
  }

  /** Sorting looks at keys only. */
  lemma {:induction false} SortRelated<T, U>(es: seq<Entry<T>>, fs: seq<Entry<U>>, related: (T, U) -> bool)
    requires Related(es, fs, related)
    ensures Related(SortEntries(es), SortEntries(fs), related)
  {
    if es != [] {
      SortRelated(es[1..], fs[1..], related);
      InsertRelated(SortEntries(es[1..]), es[0], SortEntries(fs[1..]), fs[0], related);
    }
  }

  /** A text that encodes a normal value. */
  function Encodes(): (Result<string>, Norm) -> bool {
    (r: Result<string>, n: Norm) => IsNormal(n) && r == Ok(Print(n))
  }

  lemma {:induction false} ObjectPrints(encoded: seq<Entry<Result<string>>>, normals: seq<Entry<Norm>>)
    requires Related(encoded, normals, Encodes()) && DistinctKeys(normals)
    ensures IsNormal(NormObject(SortEntries(normals)))
    ensures AllOk(MemberTexts(SortEntries(encoded)))
    ensures "{" + Join(Values(MemberTexts(SortEntries(encoded)))) + "}" == Print(NormObject(SortEntries(normals)))
  {
    SortRelated(encoded, normals, Encodes());
    ByKeyIsStrict<Norm>();
    DistinctAreComparable(normals);
    SortOrders(normals, ByKey());
    var sorted, members := SortEntries(encoded), SortEntries(normals);
    forall i | 0 <= i < |sorted| ensures sorted[i].value == Ok(Print(members[i].value)) {
      assert Encodes()(sorted[i].value, members[i].value);
    }
    assert Values(MemberTexts(sorted)) == MemberPrints(members);
  }

  lemma {:induction false} SortKeepsFailure(encoded: seq<Entry<Result<string>>>, k: nat)
    requires k < |encoded| && encoded[k].value.Err?
    ensures !AllOk(MemberTexts(SortEntries(encoded)))
  {
    SortElements(encoded, ByKey());
    var sorted := SortEntries(encoded);
    assert encoded[k] in encoded;
    var j :| 0 <= j < |sorted| && sorted[j] == encoded[k];
    assert MemberTexts(sorted)[j].Err?;
  }

  /** Encoding prints the normal form, and fails exactly for a number that JSON
      cannot carry. */
  lemma {:induction false} EncodePrintsNormal(v: Json)
    requires Valid(v)
    ensures Encode(v).Ok? <==> Encodable(v)
    ensures Encodable(v) ==> IsNormal(Normal(v)) && Encode(v) == Ok(Print(Normal(v)))
    decreases v
  {
    match v {
      case Array(items) =>
        forall i | 0 <= i < |items|
          ensures Encode(items[i]).Ok? <==> Encodable(items[i])
          ensures Encodable(items[i]) ==> IsNormal(Normal(items[i])) && Encode(items[i]) == Ok(Print(Normal(items[i])))
        {
          EncodePrintsNormal(items[i]);
        }
        ArrayPrints(items);
      case Object(members) =>
        forall i | 0 <= i < |members|
          ensures Encode(members[i].value).Ok? <==> Encodable(members[i].value)
          ensures Encodable(members[i].value) ==>
            IsNormal(Normal(members[i].value)) && Encode(members[i].value) == Ok(Print(Normal(members[i].value)))
        {
          EncodePrintsNormal(members[i].value);
        }
        ObjectEncodes(members);
      case Integer(n) => if Encodable(v) { NumbersAreNormal(v); }
      case Real(f) => if Encodable(v) { NumbersAreNormal(v); }
      case _ =>
    }
  }

  lemma {:induction false} ArrayPrints(items: seq<Json>)
    requires Valid(Array(items))
    requires forall i :: 0 <= i < |items| ==> (Encode(items[i]).Ok? <==> Encodable(items[i]))
    requires forall i :: 0 <= i < |items| && Encodable(items[i]) ==>
      IsNormal(Normal(items[i])) && Encode(items[i]) == Ok(Print(Normal(items[i])))
    ensures Encode(Array(items)).Ok? <==> Encodable(Array(items))
    ensures Encodable(Array(items)) ==>
      IsNormal(Normal(Array(items))) && Encode(Array(items)) == Ok(Print(Normal(Array(items))))
  {
    var parts := seq(|items|, i requires 0 <= i < |items| => Encode(items[i]));
    if Encodable(Array(items)) {
      var normals := seq(|items|, i requires 0 <= i < |items| => Normal(items[i]));
      assert Normal(Array(items)) == NormArray(normals);
      assert Values(parts) == Prints(normals);
      assert Print(NormArray(normals)) == "[" + Join(Prints(normals)) + "]";
    } else {
      var k :| 0 <= k < |items| && !Encodable(items[k]);
      assert parts[k].Err?;
    }
  }

  lemma {:induction false} ObjectEncodes(members: seq<Entry<Json>>)
    requires Valid(Object(members))
    requires forall i :: 0 <= i < |members| ==> (Encode(members[i].value).Ok? <==> Encodable(members[i].value))
    requires forall i :: 0 <= i < |members| && Encodable(members[i].value) ==>
      IsNormal(Normal(members[i].value)) && Encode(members[i].value) == Ok(Print(Normal(members[i].value)))
    ensures Encode(Object(members)).Ok? <==> Encodable(Object(members))
    ensures Encodable(Object(members)) ==>
      IsNormal(Normal(Object(members))) && Encode(Object(members)) == Ok(Print(Normal(Object(members))))
  {
    var encoded := seq(|members|, i requires 0 <= i < |members| => Entry(members[i].key, Encode(members[i].value)));
    if Encodable(Object(members)) {
      ObjectPrints(encoded, NormalMembers(members));
    } else {
      var k :| 0 <= k < |members| && !Encodable(members[k].value);
      SortKeepsFailure(encoded, k);
    }
  }

  /** Two values have the same normal form exactly when they are the same. */
  lemma {:induction false} NormalIffSame(v: Json, w: Json)
    requires Valid(v) && Encodable(v) && Valid(w) && Encodable(w)
    ensures Normal(v) == Normal(w) <==> Same(v, w)
    decreases v
  {
    match v {
      case Array(items) =>
        if w.Array? && |w.items| != |items| {
          assert |Normal(v).items| == |items| && |Normal(w).items| == |w.items|;
        } else if w.Array? {
          forall i | 0 <= i < |items| ensures Normal(items[i]) == Normal(w.items[i]) <==> Same(items[i], w.items[i]) {
            NormalIffSame(items[i], w.items[i]);
          }
          ArraysSame(items, w.items);
        }
      case Object(members) =>
        if w.Object? {
          forall i, j | 0 <= i < |members| && 0 <= j < |w.members|
            ensures EqualMember(members[i], w.members[j]) <==> SameMember(members[i], w.members[j])
          {
            NormalIffSame(members[i].value, w.members[j].value);
          }
          ObjectsSame(members, w.members);
        }
      case Integer(_) => if w.Integer? || w.Real? { NumbersSame(v, w); }
      case Real(_) => if w.Integer? || w.Real? { NumbersSame(v, w); }
      case _ =>
    }
  }

  lemma NumbersSame(v: Json, w: Json)
    requires (v.Integer? || v.Real?) && (w.Integer? || w.Real?)
    requires Valid(v) && Encodable(v) && Valid(w) && Encodable(w)
    ensures AsNumber(v) == AsNumber(w) <==> SameNumber(AsNumber(v), AsNumber(w))
  {
    NumbersAreNormal(v);
    NumbersAreNormal(w);
    SameTextIffSameNumber(AsNumber(v), AsNumber(w));
    NumberRoundTrip(AsNumber(v));
    NumberRoundTrip(AsNumber(w));
  }

  lemma {:induction false} ArraysSame(items: seq<Json>, others: seq<Json>)
    requires |items| == |others|
    requires forall i :: 0 <= i < |items| ==> (Normal(items[i]) == Normal(others[i]) <==> Same(items[i], others[i]))
    ensures Normal(Array(items)) == Normal(Array(others)) <==> Same(Array(items), Array(others))
  {
    var a, b := Normal(Array(items)).items, Normal(Array(others)).items;
    assert forall i :: 0 <= i < |items| ==> a[i] == Normal(items[i]) && b[i] == Normal(others[i]);
    if a == b {
      forall i | 0 <= i < |items| ensures Same(items[i], others[i]) { assert a[i] == b[i]; }
    }
  }

  ghost predicate EqualMember(e: Entry<Json>, f: Entry<Json>) {
    e.key == f.key && Normal(e.value) == Normal(f.value)
  }

  /** A member with the key and the normal value of e. */
  lemma NormalMember(members: seq<Entry<Json>>, e: Entry<Norm>)
    ensures e in NormalMembers(members) <==>
              exists i :: 0 <= i < |members| && members[i].key == e.key && Normal(members[i].value) == e.value
  {
    var normals := NormalMembers(members);
    if e in normals {
      var i :| 0 <= i < |normals| && normals[i] == e;
      assert members[i].key == e.key;
    }
    if i :| 0 <= i < |members| && members[i].key == e.key && Normal(members[i].value) == e.value {
      assert normals[i] == e;
    }
  }

  lemma SameAsNormal(members: seq<Entry<Json>>, i: nat, others: seq<Entry<Json>>)
    requires i < |members|
    requires forall j :: 0 <= j < |others| ==>
      (EqualMember(members[i], others[j]) <==> SameMember(members[i], others[j]))
    ensures SameAsOne(members, i, others) <==> Entry(members[i].key, Normal(members[i].value)) in NormalMembers(others)
  {
    NormalMember(others, Entry(members[i].key, Normal(members[i].value)));
    if SameAsOne(members, i, others) {
      var j :| 0 <= j < |others| && SameMember(members[i], others[j]);
      assert EqualMember(members[i], others[j]);
    }
    if j :| 0 <= j < |others| && others[j].key == members[i].key && Normal(others[j].value) == Normal(members[i].value) {
      assert EqualMember(members[i], others[j]);
    }
  }

  lemma NormalSameAs(members: seq<Entry<Json>>, other: Entry<Json>)
    requires forall i :: 0 <= i < |members| ==> (EqualMember(members[i], other) <==> SameMember(members[i], other))
    ensures OneSameAs(members, other) <==> Entry(other.key, Normal(other.value)) in NormalMembers(members)
  {
    NormalMember(members, Entry(other.key, Normal(other.value)));
    if OneSameAs(members, other) {
      var i :| 0 <= i < |members| && SameMember(members[i], other);
      assert EqualMember(members[i], other);
    }
    if i :| 0 <= i < |members| && members[i].key == other.key && Normal(members[i].value) == Normal(other.value) {
      assert EqualMember(members[i], other);
    }
  }

  lemma SameObjectMembers(members: seq<Entry<Json>>, others: seq<Entry<Json>>)
    requires forall i, j :: 0 <= i < |members| && 0 <= j < |others| ==>
      (EqualMember(members[i], others[j]) <==> SameMember(members[i], others[j]))
    ensures SameObject(members, others) <==> SameElements(NormalMembers(members), NormalMembers(others))
  {
    var a, b := NormalMembers(members), NormalMembers(others);
    forall i | 0 <= i < |members| ensures SameAsOne(members, i, others) <==> a[i] in b {
      SameAsNormal(members, i, others);
    }
    forall j | 0 <= j < |others| ensures OneSameAs(members, others[j]) <==> b[j] in a {
      NormalSameAs(members, others[j]);
    }
    if SameElements(a, b) {
      forall i | 0 <= i < |members| ensures SameAsOne(members, i, others) { assert a[i] in a; }
      forall j | 0 <= j < |others| ensures OneSameAs(members, others[j]) { assert b[j] in b; }
    }
  }

  lemma {:induction false} ObjectsSame(members: seq<Entry<Json>>, others: seq<Entry<Json>>)
    requires DistinctKeys(members) && DistinctKeys(others)
    requires forall i, j :: 0 <= i < |members| && 0 <= j < |others| ==>
      (EqualMember(members[i], others[j]) <==> SameMember(members[i], others[j]))
    ensures Normal(Object(members)) == Normal(Object(others)) <==> SameObject(members, others)
  {
    var a, b := NormalMembers(members), NormalMembers(others);
    SameObjectMembers(members, others);
    SortedEqual(a, b);
    assert Normal(Object(members)) == NormObject(SortEntries(a));
    assert Normal(Object(others)) == NormObject(SortEntries(b));
  }

  lemma SortedEqual(a: seq<Entry<Norm>>, b: seq<Entry<Norm>>)
    requires DistinctKeys(a) && DistinctKeys(b)
    ensures SortEntries(a) == SortEntries(b) <==> SameElements(a, b)
  {
    ByKeyIsStrict<Norm>();
    DistinctAreComparable(a);
    DistinctAreComparable(b);
    SortElements(a, ByKey());
    SortElements(b, ByKey());
    if SameElements(a, b) { SortIgnoresOrder(a, b, ByKey()); }
  }

  /** The law of canonical encoding: two values have the same bytes exactly when
      they are the same value. */
  lemma {:induction false} SameTextIffSameValue(v: Json, w: Json)
    requires Valid(v) && Encodable(v) && Valid(w) && Encodable(w)
    ensures Encode(v) == Encode(w) <==> Same(v, w)
  {
    EncodePrintsNormal(v);
    EncodePrintsNormal(w);
    NormalIffSame(v, w);
    PrintParses(Normal(v));
    PrintParses(Normal(w));
    assert Print(Normal(v)) + "" == Print(Normal(v)) && Print(Normal(w)) + "" == Print(Normal(w));
  }
}
