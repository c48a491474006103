/**
 * The part of `JSON.stringify` and `JSON.parse` the session store relies
 * on: values made of null, booleans, integers, strings, arrays and
 * objects (fields kept in insertion order). `Serialize` writes what
 * `JSON.stringify` writes for such a value (no white space, the short
 * escapes, `\u00xx` for other control units, `\udxxx` for a surrogate
 * that is not part of a pair, as ECMAScript 2019 does). `ParseValue` is a
 * recursive-descent reader of the same grammar; `Parse` fails (stands for
 * the `SyntaxError` that `JSON.parse` throws) unless it consumes the whole
 * text. Reading back what was written gives the value back.
 */
module Json {
  import opened Wrappers
  import opened JsString

  datatype Json =
    | JNull
    | JBool(b: bool)
    | JNum(n: int)
    | JStr(s: JsString)
    | JArr(items: seq<Json>)
    | JObj(fields: seq<Field>)

  datatype Field = Field(key: JsString, value: Json)

  const QUOTE: CodeUnit := 0x22
  const BACKSLASH: CodeUnit := 0x5C
  const COMMA: CodeUnit := 0x2C
  const COLON: CodeUnit := 0x3A
  const MINUS: CodeUnit := 0x2D
  const LBRACKET: CodeUnit := 0x5B
  const RBRACKET: CodeUnit := 0x5D
  const LBRACE: CodeUnit := 0x7B
  const RBRACE: CodeUnit := 0x7D
  const NULL: JsString := [0x6E, 0x75, 0x6C, 0x6C]
  const TRUE: JsString := [0x74, 0x72, 0x75, 0x65]
  const FALSE: JsString := [0x66, 0x61, 0x6C, 0x73, 0x65]

  /** The object `JSON.parse` builds from the members of an object literal: a later
    * member with the same key replaces an earlier one. */
  function ObjectOf(fields: seq<Field>): (r: map<JsString, Json>)
  {
    if |fields| == 0 then map[]
    else ObjectOf(fields[..|fields| - 1])[fields[|fields| - 1].key := fields[|fields| - 1].value]
  }

  /** The object has exactly the keys of the members. */
  lemma {:induction false} ObjectOfKeys(fields: seq<Field>, k: JsString)
    ensures k in ObjectOf(fields) <==> exists i :: 0 <= i < |fields| && fields[i].key == k
  {
    if |fields| > 0 {
      var init := fields[..|fields| - 1];
      ObjectOfKeys(init, k);
      if k in ObjectOf(init) {
        var i :| 0 <= i < |init| && init[i].key == k;
        assert fields[i].key == k;
      }
      if exists i :: 0 <= i < |fields| && fields[i].key == k {
        var i :| 0 <= i < |fields| && fields[i].key == k;
        if i < |init| { assert init[i].key == k; }
      }
    }
  }

  /** The members of a later part win over those of an earlier part. */
  lemma {:induction false} ObjectOfAppend(a: seq<Field>, b: seq<Field>)
    ensures ObjectOf(a + b) == ObjectOf(a) + ObjectOf(b)
  {
    if |b| == 0 {
      assert a + b == a;
    } else {
      var ab := a + b;
      var last := b[|b| - 1];
      assert ab[..|ab| - 1] == a + b[..|b| - 1];
      assert ab[|ab| - 1] == last;
      ObjectOfAppend(a, b[..|b| - 1]);
      var m1, m2 := ObjectOf(a), ObjectOf(b[..|b| - 1]);
      assert (m1 + m2)[last.key := last.value] == m1 + m2[last.key := last.value];
    }
  }

  /** The member a key maps to is the last member with that key. */
  lemma ObjectOfLast(fields: seq<Field>, i: nat)
    requires i < |fields|
    requires forall j :: i < j < |fields| ==> fields[j].key != fields[i].key
    ensures fields[i].key in ObjectOf(fields) && ObjectOf(fields)[fields[i].key] == fields[i].value
  {
    ObjectOfAppend(fields[..i + 1], fields[i + 1..]);
    assert fields[..i + 1] + fields[i + 1..] == fields;
    assert fields[..i + 1][..i] == fields[..i];
  }

  // ---------------------------------------------------------------------
  // Writing
  // ---------------------------------------------------------------------

  predicate IsHighSurrogate(c: CodeUnit) {
    0xD800 <= c <= 0xDBFF
  }

  predicate IsLowSurrogate(c: CodeUnit) {
    0xDC00 <= c <= 0xDFFF
  }

  /** `\u` and the unit in four lower-case hex digits. */
  function HexEscape(c: CodeUnit): (r: JsString)
    ensures |r| == 6 && r[0] == BACKSLASH && r[1] == 0x75
    ensures forall i :: 1 <= i < 6 ==> r[i] <= 0x7F
  {
    [BACKSLASH, 0x75, DigitUnit(c / 16 / 16 / 16), DigitUnit(c / 16 / 16 % 16), DigitUnit(c / 16 % 16), DigitUnit(c % 16)]
  }

  /**
   * How `JSON.stringify` writes one code unit inside a string literal,
   * when the unit is not half of a surrogate pair.
   */
  function EscapeUnit(c: CodeUnit): (r: JsString)
    ensures 0 < |r|
    ensures 0xD800 <= c <= 0xDFFF ==> Latin1(r)
  {
    if c == QUOTE then [BACKSLASH, QUOTE]
    else if c == BACKSLASH then [BACKSLASH, BACKSLASH]
    else if c == 0x08 then [BACKSLASH, 0x62]
    else if c == 0x0C then [BACKSLASH, 0x66]
    else if c == 0x0A then [BACKSLASH, 0x6E]
    else if c == 0x0D then [BACKSLASH, 0x72]
    else if c == 0x09 then [BACKSLASH, 0x74]
    else if c < 0x20 || 0xD800 <= c <= 0xDFFF then HexEscape(c)
    else [c]
  }

  /** The body of a string literal: a surrogate pair is copied, every other unit escaped alone. */
  function Escape(s: JsString): (r: JsString)
  {
    if |s| == 0 then []
    else if |s| >= 2 && IsHighSurrogate(s[0]) && IsLowSurrogate(s[1]) then [s[0], s[1]] + Escape(s[2..])
    else EscapeUnit(s[0]) + Escape(s[1..])
  }

  function Quote(s: JsString): (r: JsString)
  {
    [QUOTE] + Escape(s) + [QUOTE]
  }

  function Serialize(j: Json): (r: JsString)
    ensures 0 < |r|
    decreases j
  {
    match j
    case JNull => NULL
    case JBool(b) => if b then TRUE else FALSE
    case JNum(n) => Signed(n, 10)
    case JStr(s) => Quote(s)
    case JArr(items) => [LBRACKET] + SerializeElements(items) + [RBRACKET]
    case JObj(fields) => [LBRACE] + SerializeMembers(fields) + [RBRACE]
  }

  function SerializeElements(items: seq<Json>): (r: JsString)
    ensures |items| > 0 ==> 0 < |r|
    decreases items
  {
    if |items| == 0 then []
    else if |items| == 1 then Serialize(items[0])
    else Serialize(items[0]) + [COMMA] + SerializeElements(items[1..])
  }

  function SerializeMember(f: Field): (r: JsString)
    ensures 0 < |r| && r[0] == QUOTE
    decreases f
  {
    Quote(f.key) + [COLON] + Serialize(f.value)
  }

  function SerializeMembers(fields: seq<Field>): (r: JsString)
    ensures |fields| > 0 ==> 0 < |r| && r[0] == QUOTE
    decreases fields
  {
    if |fields| == 0 then []
    else if |fields| == 1 then SerializeMember(fields[0])
    else SerializeMember(fields[0]) + [COMMA] + SerializeMembers(fields[1..])
  }

  // ---------------------------------------------------------------------
  // Reading
  // ---------------------------------------------------------------------

  /** The unit a one-letter escape stands for (`\"`, `\\`, `\/`, `\b`, `\f`, `\n`, `\r`, `\t`). */
  function EscapeTarget(e: CodeUnit): (r: Option<CodeUnit>)
  {
    if e == QUOTE then Some(QUOTE)
    else if e == BACKSLASH then Some(BACKSLASH)
    else if e == 0x2F then Some(0x2F)
    else if e == 0x62 then Some(0x08)
    else if e == 0x66 then Some(0x0C)
    else if e == 0x6E then Some(0x0A)
    else if e == 0x72 then Some(0x0D)
    else if e == 0x74 then Some(0x09)
    else None
  }

  /** A hexadecimal digit of either case. */
  function HexValue(c: CodeUnit): (r: Option<nat>)
    ensures r.Some? ==> r.value < 16
  {
    if 0x41 <= c <= 0x46 then Some(c - 0x41 + 10) else DigitValue(c, 16)
  }

  /** The unit written by four hex digits, after `\\u`. */
  function Hex4(s: JsString): (r: Option<CodeUnit>)
    requires |s| == 4
  {
    match (HexValue(s[0]), HexValue(s[1]), HexValue(s[2]), HexValue(s[3]))
    case (Some(a), Some(b), Some(c), Some(d)) => Some(((a * 16 + b) * 16 + c) * 16 + d)
    case _ => None
  }

  function ConsUnit(c: CodeUnit, r: Option<(JsString, JsString)>): (o: Option<(JsString, JsString)>)
  {
    match r
    case None => None
    case Some((t, rest)) => Some(([c] + t, rest))
  }

  /** The body of a string literal up to its closing quote, and what follows the quote. */
  function ParseChars(s: JsString): (r: Option<(JsString, JsString)>)
    ensures r.Some? ==> |r.value.1| < |s|
    decreases |s|
  {
    if |s| == 0 then None
    else if s[0] == QUOTE then Some(([], s[1..]))
    else if s[0] < 0x20 then None
    else if s[0] != BACKSLASH then ConsUnit(s[0], ParseChars(s[1..]))
    else if |s| >= 2 && EscapeTarget(s[1]).Some? then ConsUnit(EscapeTarget(s[1]).value, ParseChars(s[2..]))
    else if |s| >= 6 && s[1] == 0x75 && Hex4(s[2..6]).Some? then ConsUnit(Hex4(s[2..6]).value, ParseChars(s[6..]))
    else None
  }

  predicate IsDecimalDigit(c: CodeUnit) {
    0x30 <= c <= 0x39
  }

  /** The length of the run of decimal digits at the front of s. */
  function DigitRun(s: JsString): (n: nat)
    ensures n <= |s|
    ensures forall i :: 0 <= i < n ==> IsDecimalDigit(s[i])
    ensures n < |s| ==> !IsDecimalDigit(s[n])
  {
    if |s| == 0 || !IsDecimalDigit(s[0]) then 0 else 1 + DigitRun(s[1..])
  }

  /** An integer: an optional '-', then "0" or digits without a leading zero. */
  function ParseNumber(s: JsString): (r: Option<(Json, JsString)>)
    ensures r.Some? ==> |r.value.1| < |s|
  {
    var neg := |s| > 0 && s[0] == MINUS;
    var body := if neg then s[1..] else s;
    var n := DigitRun(body);
    var magnitude: int := UnitsToNat(body[..n], 10);
    if n == 0 || (n > 1 && body[0] == 0x30) then None
    else Some((JNum(if neg then -magnitude else magnitude), body[n..]))
  }

  /** One value at the front of s, and the text after it. */
  function ParseValue(s: JsString): (r: Option<(Json, JsString)>)
    ensures r.Some? ==> |r.value.1| < |s|
    decreases |s|, 0
  {
    if |s| == 0 then None
    else if s[0] == 0x6E then (if |s| >= 4 && s[..4] == NULL then Some((JNull, s[4..])) else None)
    else if s[0] == 0x74 then (if |s| >= 4 && s[..4] == TRUE then Some((JBool(true), s[4..])) else None)
    else if s[0] == 0x66 then (if |s| >= 5 && s[..5] == FALSE then Some((JBool(false), s[5..])) else None)
    else if s[0] == QUOTE then
      match ParseChars(s[1..])
      case None => None
      case Some((t, rest)) => Some((JStr(t), rest))
    else if s[0] == LBRACKET then
      if |s| >= 2 && s[1] == RBRACKET then Some((JArr([]), s[2..]))
      else match ParseElements(s[1..])
        case None => None
        case Some((items, rest)) => Some((JArr(items), rest))
    else if s[0] == LBRACE then
      if |s| >= 2 && s[1] == RBRACE then Some((JObj([]), s[2..]))
      else match ParseMembers(s[1..])
        case None => None
        case Some((fields, rest)) => Some((JObj(fields), rest))
    else ParseNumber(s)
  }

  /** One or more comma-separated values and the closing ']'. */
  function ParseElements(s: JsString): (r: Option<(seq<Json>, JsString)>)
    ensures r.Some? ==> |r.value.1| < |s|
    decreases |s|, 1
  {
    match ParseValue(s)
    case None => None
    case Some((v, rest)) =>
      if |rest| == 0 then None
      else if rest[0] == RBRACKET then Some(([v], rest[1..]))
      else if rest[0] != COMMA then None
      else match ParseElements(rest[1..])
        case None => None
        case Some((vs, rest')) => Some(([v] + vs, rest'))
  }

  /** One or more comma-separated `"key":value` members and the closing '}'. */
  function ParseMembers(s: JsString): (r: Option<(seq<Field>, JsString)>)
    ensures r.Some? ==> |r.value.1| < |s|
    decreases |s|, 1
  {
    if |s| == 0 || s[0] != QUOTE then None
    else match ParseChars(s[1..])
      case None => None
      case Some((k, rest)) =>
        if |rest| == 0 || rest[0] != COLON then None
        else match ParseValue(rest[1..])
          case None => None
          case Some((v, rest')) =>
            if |rest'| == 0 then None
            else if rest'[0] == RBRACE then Some(([Field(k, v)], rest'[1..]))
            else if rest'[0] != COMMA then None
            else match ParseMembers(rest'[1..])
              case None => None
              case Some((fs, rest'')) => Some(([Field(k, v)] + fs, rest''))
  }

  /** `JSON.parse`: one value and nothing after it. */
  function Parse(s: JsString): (r: Option<Json>)
    ensures r.Some? ==> ParseValue(s) == Some((r.value, []))
  {
    match ParseValue(s)
    case Some((j, rest)) => if rest == [] then Some(j) else None
    case None => None
  }

  // ---------------------------------------------------------------------
  // Reading back what was written
  // ---------------------------------------------------------------------

  lemma EscapeUnitStep(c: CodeUnit, tail: JsString)
    ensures ParseChars(EscapeUnit(c) + tail) == ConsUnit(c, ParseChars(tail))
  {
    if c == QUOTE || c == BACKSLASH || c == 0x08 || c == 0x0C || c == 0x0A || c == 0x0D || c == 0x09 {
      ShortEscapeStep(c, tail);
    } else if c < 0x20 || 0xD800 <= c <= 0xDFFF {
      HexEscapeStep(c, tail);
    } else {
      assert (EscapeUnit(c) + tail)[1..] == tail;
    }
  }

  lemma ShortEscapeStep(c: CodeUnit, tail: JsString)
    requires c == QUOTE || c == BACKSLASH || c == 0x08 || c == 0x0C || c == 0x0A || c == 0x0D || c == 0x09
    ensures ParseChars(EscapeUnit(c) + tail) == ConsUnit(c, ParseChars(tail))
  {
    var s := EscapeUnit(c) + tail;
    assert s[0] == BACKSLASH && EscapeTarget(s[1]) == Some(c);
    assert s[2..] == tail;
  }

  /** The four hex digits of `HexEscape` read back as the unit. */
  lemma Hex4OfHexEscape(c: CodeUnit)
    ensures Hex4(HexEscape(c)[2..6]) == Some(c)
  {
    var q1 := c / 16;
    var q2 := q1 / 16;
    var a, b, d, e := q2 / 16, q2 % 16, q1 % 16, c % 16;
    DigitValueOfUnit(a, 16);
    DigitValueOfUnit(b, 16);
    DigitValueOfUnit(d, 16);
    DigitValueOfUnit(e, 16);
    assert q2 == a * 16 + b;
    assert q1 == q2 * 16 + d;
    assert c == q1 * 16 + e;
  }

  lemma HexEscapeStep(c: CodeUnit, tail: JsString)
    requires c < 0x20 || 0xD800 <= c <= 0xDFFF
    requires !(c == QUOTE || c == BACKSLASH || c == 0x08 || c == 0x0C || c == 0x0A || c == 0x0D || c == 0x09)
    ensures ParseChars(EscapeUnit(c) + tail) == ConsUnit(c, ParseChars(tail))
  {
    var s := EscapeUnit(c) + tail;
    assert EscapeUnit(c) == HexEscape(c);
    assert s[0] == BACKSLASH && s[1] == 0x75;
    assert EscapeTarget(s[1]).None?;
    assert s[2..6] == HexEscape(c)[2..6];
    Hex4OfHexEscape(c);
    assert s[6..] == tail;
  }

  /** A surrogate pair is read back unit by unit. */
  lemma PairStep(hi: CodeUnit, lo: CodeUnit, tail: JsString)
    requires IsHighSurrogate(hi) && IsLowSurrogate(lo)
    ensures ParseChars([hi, lo] + tail) == ConsUnit(hi, ConsUnit(lo, ParseChars(tail)))
  {
    assert ([hi, lo] + tail)[1..] == [lo] + tail;
    assert ([lo] + tail)[1..] == tail;
  }

  lemma {:induction false} ParseCharsOfEscape(t: JsString, rest: JsString)
    ensures ParseChars(Escape(t) + [QUOTE] + rest) == Some((t, rest))
    decreases |t|
  {
    if |t| == 0 {
      assert Escape(t) + [QUOTE] + rest == [QUOTE] + rest;
    } else if |t| >= 2 && IsHighSurrogate(t[0]) && IsLowSurrogate(t[1]) {
      ParseCharsOfEscape(t[2..], rest);
      PairText(t, rest);
    } else {
      ParseCharsOfEscape(t[1..], rest);
      UnitText(t, rest);
    }
  }

  lemma PairText(t: JsString, rest: JsString)
    requires |t| >= 2 && IsHighSurrogate(t[0]) && IsLowSurrogate(t[1])
    requires ParseChars(Escape(t[2..]) + [QUOTE] + rest) == Some((t[2..], rest))
    ensures ParseChars(Escape(t) + [QUOTE] + rest) == Some((t, rest))
  {
    var tail := Escape(t[2..]) + [QUOTE] + rest;
    assert Escape(t) + [QUOTE] + rest == [t[0], t[1]] + tail;
    PairStep(t[0], t[1], tail);
    assert [t[0]] + ([t[1]] + t[2..]) == t;
  }

  lemma UnitText(t: JsString, rest: JsString)
    requires |t| >= 1 && !(|t| >= 2 && IsHighSurrogate(t[0]) && IsLowSurrogate(t[1]))
    requires ParseChars(Escape(t[1..]) + [QUOTE] + rest) == Some((t[1..], rest))
    ensures ParseChars(Escape(t) + [QUOTE] + rest) == Some((t, rest))
  {
    var tail := Escape(t[1..]) + [QUOTE] + rest;
    assert Escape(t) + [QUOTE] + rest == EscapeUnit(t[0]) + tail;
    EscapeUnitStep(t[0], tail);
    assert [t[0]] + t[1..] == t;
  }

  /** A surrogate without its partner is written as `\u` and lower-case hex. */
  lemma LoneSurrogateEscaped()
    ensures Serialize(JStr([0xD800])) == [QUOTE, BACKSLASH, 0x75, 0x64, 0x38, 0x30, 0x30, QUOTE]
    ensures Serialize(JStr([0xD83D, 0xDE00])) == [QUOTE, 0xD83D, 0xDE00, QUOTE]
  {
    assert HexEscape(0xD800) == [BACKSLASH, 0x75, 0x64, 0x38, 0x30, 0x30];
    assert Escape([0xD800]) == EscapeUnit(0xD800) + Escape([]);
    assert Escape([0xD83D, 0xDE00]) == [0xD83D, 0xDE00] + Escape([]);
  }

  lemma {:induction false} NoLeadingZero(n: nat)
    requires |NatToUnits(n, 10)| > 1
    ensures NatToUnits(n, 10)[0] != 0x30
    decreases n
  {
    NatToUnitsStep(n, 10);
    if n / 10 >= 10 {
      NoLeadingZero(n / 10);
    }
  }

  lemma {:induction false} DigitRunOf(d: JsString, rest: JsString)
    requires AllDigits(d, 10)
    requires rest == [] || !IsDecimalDigit(rest[0])
    ensures DigitRun(d + rest) == |d|
  {
    if |d| > 0 {
      assert DigitValue(d[0], 10).Some?;
      assert (d + rest)[1..] == d[1..] + rest;
      DigitRunOf(d[1..], rest);
    } else {
      assert d + rest == rest;
    }
  }

  /** A delimiter that may follow a value inside a larger text. */
  predicate Delimits(rest: JsString) {
    rest == [] || rest[0] == COMMA || rest[0] == RBRACKET || rest[0] == RBRACE
  }

  lemma ParseNumberOfSigned(n: int, rest: JsString)
    requires Delimits(rest)
    ensures ParseNumber(Signed(n, 10) + rest) == Some((JNum(n), rest))
  {
    var m: nat := if n < 0 then -n else n;
    var d := NatToUnits(m, 10);
    var s := Signed(n, 10) + rest;
    var body := d + rest;
    assert s == (if n < 0 then [MINUS] + body else body);
    if n < 0 { assert s[1..] == body; }
    NatToUnitsAreDigits(m, 10);
    DigitValueOfUnit(0, 10);
    assert !IsDecimalDigit(MINUS);
    DigitRunOf(d, rest);
    assert body[..|d|] == d;
    assert body[|d|..] == rest;
    UnitsToNatOfDigits(m, 10);
    if |d| > 1 { NoLeadingZero(m); }
  }

  lemma ParseSerializeScalar(j: Json, rest: JsString)
    requires j.JNull? || j.JBool? || j.JStr?
    ensures ParseValue(Serialize(j) + rest) == Some((j, rest))
  {
    var s := Serialize(j) + rest;
    match j
    case JNull => assert s[..4] == NULL; assert s[4..] == rest;
    case JBool(b) =>
      if b { assert s[..4] == TRUE; assert s[4..] == rest; }
      else { assert s[..5] == FALSE; assert s[5..] == rest; }
    case JStr(t) =>
      assert s[1..] == Escape(t) + [QUOTE] + rest;
      ParseCharsOfEscape(t, rest);
  }

  lemma ParseSerializeNumber(n: int, rest: JsString)
    requires Delimits(rest)
    ensures ParseValue(Serialize(JNum(n)) + rest) == Some((JNum(n), rest))
  {
    var s := Serialize(JNum(n)) + rest;
    ParseNumberOfSigned(n, rest);
    var m: nat := if n < 0 then -n else n;
    NatToUnitsAreDigits(m, 10);
    assert DigitValue(NatToUnits(m, 10)[0], 10).Some?;
    assert s[0] == MINUS || IsDecimalDigit(s[0]);
  }

  /** A written value never starts with ']' or '}', so a non-empty list is not mistaken for an empty one. */
  lemma SerializeFirst(j: Json)
    ensures Serialize(j)[0] != RBRACKET && Serialize(j)[0] != RBRACE
  {
    if j.JNum? {
      var m: nat := if j.n < 0 then -j.n else j.n;
      NatToUnitsAreDigits(m, 10);
      assert DigitValue(NatToUnits(m, 10)[0], 10).Some?;
    }
  }

  lemma ElementsUnfold(items: seq<Json>, tail: JsString)
    requires |items| > 1
    ensures SerializeElements(items) + tail == Serialize(items[0]) + ([COMMA] + (SerializeElements(items[1..]) + tail))
  {
    var head, rest := Serialize(items[0]), SerializeElements(items[1..]);
    assert SerializeElements(items) == head + [COMMA] + rest;
    Regroup(head, [COMMA], rest, tail);
  }

  lemma MembersUnfold(fields: seq<Field>, tail: JsString)
    requires |fields| > 1
    ensures SerializeMembers(fields) + tail == SerializeMember(fields[0]) + ([COMMA] + (SerializeMembers(fields[1..]) + tail))
  {
    var head, rest := SerializeMember(fields[0]), SerializeMembers(fields[1..]);
    assert SerializeMembers(fields) == head + [COMMA] + rest;
    Regroup(head, [COMMA], rest, tail);
  }

  lemma Regroup(a: JsString, b: JsString, c: JsString, d: JsString)
    ensures a + b + c + d == a + (b + (c + d))
  {
    assert a + b + c == a + (b + c);
    assert (a + (b + c)) + d == a + ((b + c) + d);
  }

  lemma ConsSlice(c: CodeUnit, x: JsString)
    ensures ([c] + x)[0] == c && ([c] + x)[1..] == x
  {
  }

  lemma ArrayText(items: seq<Json>, rest: JsString)
    ensures Serialize(JArr(items)) + rest == [LBRACKET] + (SerializeElements(items) + [RBRACKET] + rest)
  {
  }

  lemma ElementsNotClosed(items: seq<Json>, rest: JsString)
    requires |items| > 0
    ensures (SerializeElements(items) + [RBRACKET] + rest)[0] != RBRACKET
  {
    ElementsFirst(items, [RBRACKET] + rest);
    assert SerializeElements(items) + [RBRACKET] + rest == SerializeElements(items) + ([RBRACKET] + rest);
    SerializeFirst(items[0]);
  }

  lemma ArrayShape(items: seq<Json>, rest: JsString)
    requires |items| > 0
    ensures var s := Serialize(JArr(items)) + rest;
      s[0] == LBRACKET && s[1] != RBRACKET && s[1..] == SerializeElements(items) + [RBRACKET] + rest
  {
    ArrayText(items, rest);
    ConsSlice(LBRACKET, SerializeElements(items) + [RBRACKET] + rest);
    ElementsNotClosed(items, rest);
  }

  lemma ElementsFirst(items: seq<Json>, tail: JsString)
    requires |items| > 0
    ensures (SerializeElements(items) + tail)[0] == Serialize(items[0])[0]
  {
    if |items| > 1 {
      ElementsUnfold(items, tail);
    }
  }

  lemma ObjectShape(fields: seq<Field>, rest: JsString)
    requires |fields| > 0
    ensures var s := Serialize(JObj(fields)) + rest;
      s[0] == LBRACE && s[1] == QUOTE && s[1..] == SerializeMembers(fields) + [RBRACE] + rest
  {
    var e := SerializeMembers(fields);
    var x := e + [RBRACE] + rest;
    assert Serialize(JObj(fields)) + rest == [LBRACE] + x;
    ConsSlice(LBRACE, x);
    assert x[0] == e[0];
  }

  lemma {:induction false} ParseSerialize(j: Json, rest: JsString)
    requires Delimits(rest)
    ensures ParseValue(Serialize(j) + rest) == Some((j, rest))
    decreases j, 1
  {
    match j
    case JNum(n) => ParseSerializeNumber(n, rest);
    case JArr(items) =>
      if |items| == 0 {
        var s := Serialize(j) + rest;
        assert Serialize(j) == [LBRACKET, RBRACKET];
        assert s[1] == RBRACKET && s[2..] == rest;
      } else {
        ArrayShape(items, rest);
        ParseSerializeElements(items, rest);
      }
    case JObj(fields) =>
      if |fields| == 0 {
        var s := Serialize(j) + rest;
        assert Serialize(j) == [LBRACE, RBRACE];
        assert s[1] == RBRACE && s[2..] == rest;
      } else {
        ObjectShape(fields, rest);
        ParseSerializeMembers(fields, rest);
      }
    case _ => ParseSerializeScalar(j, rest);
  }

  lemma {:induction false} ParseSerializeElements(items: seq<Json>, rest: JsString)
    requires |items| > 0
    ensures ParseElements(SerializeElements(items) + [RBRACKET] + rest) == Some((items, rest))
    decreases items, 0
  {
    if |items| == 1 {
      OneElementText(items, rest);
      ParseSerialize(items[0], [RBRACKET] + rest);
      LastElement(items[0], rest);
      assert [items[0]] == items;
    } else {
      var more := SerializeElements(items[1..]) + [RBRACKET] + rest;
      MoreElementsText(items, rest);
      ParseSerialize(items[0], [COMMA] + more);
      ParseSerializeElements(items[1..], rest);
      NextElement(items[0], items[1..], more, rest);
      assert [items[0]] + items[1..] == items;
    }
  }

  lemma OneElementText(items: seq<Json>, rest: JsString)
    requires |items| == 1
    ensures SerializeElements(items) + [RBRACKET] + rest == Serialize(items[0]) + ([RBRACKET] + rest)
  {
  }

  lemma MoreElementsText(items: seq<Json>, rest: JsString)
    requires |items| > 1
    ensures SerializeElements(items) + [RBRACKET] + rest
              == Serialize(items[0]) + ([COMMA] + (SerializeElements(items[1..]) + [RBRACKET] + rest))
  {
    ElementsUnfold(items, [RBRACKET] + rest);
    Assoc(SerializeElements(items), [RBRACKET], rest);
    Assoc(SerializeElements(items[1..]), [RBRACKET], rest);
  }

  lemma Assoc(a: JsString, b: JsString, c: JsString)
    ensures a + b + c == a + (b + c)
  {
  }

  lemma LastElement(v: Json, rest: JsString)
    requires ParseValue(Serialize(v) + ([RBRACKET] + rest)) == Some((v, [RBRACKET] + rest))
    ensures ParseElements(Serialize(v) + ([RBRACKET] + rest)) == Some(([v], rest))
  {
    ConsSlice(RBRACKET, rest);
  }

  lemma NextElement(v: Json, vs: seq<Json>, more: JsString, rest: JsString)
    requires ParseValue(Serialize(v) + ([COMMA] + more)) == Some((v, [COMMA] + more))
    requires ParseElements(more) == Some((vs, rest))
    ensures ParseElements(Serialize(v) + ([COMMA] + more)) == Some(([v] + vs, rest))
  {
    ConsSlice(COMMA, more);
  }

  lemma MemberShape(f: Field, tail: JsString)
    ensures var s := SerializeMember(f) + tail;
      s[0] == QUOTE && s[1..] == Escape(f.key) + [QUOTE] + ([COLON] + (Serialize(f.value) + tail))
  {
  }

  /** Reading `"key":value` and then '}' gives the member back. */
  lemma {:induction false} ParseLastMember(f: Field, rest: JsString)
    ensures ParseMembers(SerializeMember(f) + ([RBRACE] + rest)) == Some(([f], rest))
    decreases f, 2
  {
    var tail := [RBRACE] + rest;
    MemberShape(f, tail);
    var afterKey := [COLON] + (Serialize(f.value) + tail);
    ParseCharsOfEscape(f.key, afterKey);
    ConsSlice(COLON, Serialize(f.value) + tail);
    ParseSerialize(f.value, tail);
    ConsSlice(RBRACE, rest);
  }

  /** Reading `"key":value` and then ',' goes on with the members after the comma. */
  lemma {:induction false} ParseNextMember(f: Field, more: JsString, fs: seq<Field>, rest: JsString)
    requires ParseMembers(more) == Some((fs, rest))
    ensures ParseMembers(SerializeMember(f) + ([COMMA] + more)) == Some(([f] + fs, rest))
    decreases f, 2
  {
    var tail := [COMMA] + more;
    MemberShape(f, tail);
    var afterKey := [COLON] + (Serialize(f.value) + tail);
    ParseCharsOfEscape(f.key, afterKey);
    ConsSlice(COLON, Serialize(f.value) + tail);
    ParseSerialize(f.value, tail);
    ConsSlice(COMMA, more);
  }

  lemma {:induction false} ParseSerializeMembers(fields: seq<Field>, rest: JsString)
    requires |fields| > 0
    ensures ParseMembers(SerializeMembers(fields) + [RBRACE] + rest) == Some((fields, rest))
    decreases fields, 0
  {
    if |fields| == 1 {
      assert SerializeMembers(fields) + [RBRACE] + rest == SerializeMember(fields[0]) + ([RBRACE] + rest);
      ParseLastMember(fields[0], rest);
      assert [fields[0]] == fields;
    } else {
      var more := SerializeMembers(fields[1..]) + [RBRACE] + rest;
      MembersUnfold(fields, [RBRACE] + rest);
      assert SerializeMembers(fields) + [RBRACE] + rest == SerializeMember(fields[0]) + ([COMMA] + more);
      ParseSerializeMembers(fields[1..], rest);
      ParseNextMember(fields[0], more, fields[1..], rest);
      assert [fields[0]] + fields[1..] == fields;
    }
  }

  /** `JSON.parse(JSON.stringify(j))` gives j back. */
  lemma ParseOfSerialize(j: Json)
    ensures Parse(Serialize(j)) == Some(j)
  {
    ParseSerialize(j, []);
    assert Serialize(j) + [] == Serialize(j);
  }

  /** Two values are written the same only if they are the same. */
  lemma SerializeInjective(a: Json, b: Json)
    ensures Serialize(a) == Serialize(b) <==> a == b
  {
    if Serialize(a) == Serialize(b) {
      ParseOfSerialize(a);
      ParseOfSerialize(b);
    }
  }
}
