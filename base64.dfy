/**
 * The browser's `btoa` and `atob`, as the obfuscated store uses them.
 * `btoa` reads each code unit of its argument as one byte and fails
 * (throws) when a unit is above 0xFF; it writes the base64 alphabet of
 * section 4 of RFC 4648 with '=' padding. `atob` is the "forgiving-base64
 * decode" of the HTML standard: ASCII white space is dropped, one or two
 * trailing '=' are dropped when the length is a multiple of 4, a length of
 * 1 modulo 4 or a unit outside the alphabet fails, and the bits left over
 * after the last whole byte are ignored.
 */
module Base64 {
  import opened Wrappers
  import opened JsString

  type Sextet = x: int | 0 <= x < 64

  const PAD: CodeUnit := 0x3D  // '='

  /** The alphabet: A-Z, a-z, 0-9, '+', '/'. */
  function Letter(v: Sextet): (c: CodeUnit)
    ensures c != PAD
  {
    if v < 26 then 0x41 + v
    else if v < 52 then 0x61 + (v - 26)
    else if v < 62 then 0x30 + (v - 52)
    else if v == 62 then 0x2B
    else 0x2F
  }

  /** The value of an alphabet letter; None for any other unit. */
  function SextetOf(c: CodeUnit): (r: Option<Sextet>)
    ensures r.Some? ==> Letter(r.value) == c
  {
    if 0x41 <= c <= 0x5A then Some(c - 0x41)
    else if 0x61 <= c <= 0x7A then Some(c - 0x61 + 26)
    else if 0x30 <= c <= 0x39 then Some(c - 0x30 + 52)
    else if c == 0x2B then Some(62)
    else if c == 0x2F then Some(63)
    else None
  }

  lemma SextetOfLetter(v: Sextet)
    ensures SextetOf(Letter(v)) == Some(v)
  {
  }

  function Letters(xs: seq<Sextet>): (r: JsString)
    ensures |r| == |xs|
  {
    seq(|xs|, i requires 0 <= i < |xs| => Letter(xs[i]))
  }

  /** The sextets of a string made of alphabet letters only; None otherwise. */
  function Sextets(d: JsString): (r: Option<seq<Sextet>>)
    ensures r.Some? ==> |r.value| == |d|
  {
    if |d| == 0 then Some([])
    else match (SextetOf(d[0]), Sextets(d[1..]))
      case (Some(v), Some(vs)) => Some([v] + vs)
      case _ => None
  }

  lemma {:induction false} SextetsOfLetters(xs: seq<Sextet>)
    ensures Sextets(Letters(xs)) == Some(xs)
  {
    if |xs| > 0 {
      SextetOfLetter(xs[0]);
      assert Letters(xs)[1..] == Letters(xs[1..]);
      SextetsOfLetters(xs[1..]);
      assert xs == [xs[0]] + xs[1..];
    }
  }

  /** Bytes to sextets, three bytes to four sextets; a short tail gives 2 or 3. */
  function EncodeGroups(b: JsString): (r: seq<Sextet>)
    requires Latin1(b)
    ensures |r| == 4 * (|b| / 3) + (if |b| % 3 == 0 then 0 else |b| % 3 + 1)
  {
    if |b| >= 3 then
      [b[0] / 4, (b[0] % 4) * 16 + b[1] / 16, (b[1] % 16) * 4 + b[2] / 64, b[2] % 64]
      + EncodeGroups(b[3..])
    else if |b| == 2 then [b[0] / 4, (b[0] % 4) * 16 + b[1] / 16, (b[1] % 16) * 4]
    else if |b| == 1 then [b[0] / 4, (b[0] % 4) * 16]
    else []
  }

  /** Sextets to bytes, four to three; a tail of 2 or 3 gives 1 or 2 bytes, dropping spare bits. */
  function DecodeGroups(s: seq<Sextet>): (r: JsString)
    ensures Latin1(r)
  {
    if |s| >= 4 then
      var group: JsString :=
        [s[0] as int * 4 + s[1] / 16, (s[1] % 16) as int * 16 + s[2] / 4, (s[2] % 4) as int * 64 + s[3]];
      group + DecodeGroups(s[4..])
    else if |s| == 3 then [s[0] as int * 4 + s[1] / 16, (s[1] % 16) as int * 16 + s[2] / 4]
    else if |s| == 2 then [s[0] as int * 4 + s[1] / 16]
    else []
  }

  /** The bit arithmetic of one group: three bytes split into four sextets join back into the same bytes. */
  lemma ThreeBytes(b0: int, b1: int, b2: int)
    requires 0 <= b0 < 256 && 0 <= b1 < 256 && 0 <= b2 < 256
    ensures var x0, x1, x2, x3 := b0 / 4, (b0 % 4) * 16 + b1 / 16, (b1 % 16) * 4 + b2 / 64, b2 % 64;
      x0 * 4 + x1 / 16 == b0 && (x1 % 16) * 16 + x2 / 4 == b1 && (x2 % 4) * 64 + x3 == b2
  {
    var x1 := (b0 % 4) * 16 + b1 / 16;
    assert x1 / 16 == b0 % 4 && x1 % 16 == b1 / 16;
    var x2 := (b1 % 16) * 4 + b2 / 64;
    assert x2 / 4 == b1 % 16 && x2 % 4 == b2 / 64;
  }

  lemma {:induction false} DecodeEncodeGroups(b: JsString)
    requires Latin1(b)
    ensures DecodeGroups(EncodeGroups(b)) == b
    decreases |b|
  {
    if |b| >= 3 {
      DecodeFirstGroup(b);
      DecodeEncodeGroups(b[3..]);
      assert b == b[..3] + b[3..];
    } else {
      DecodeEncodeTail(b);
    }
  }

  /** The first three bytes come back from the first four sextets; the rest is encoded on its own. */
  lemma {:induction false} DecodeFirstGroup(b: JsString)
    requires Latin1(b) && |b| >= 3
    ensures DecodeGroups(EncodeGroups(b)) == b[..3] + DecodeGroups(EncodeGroups(b[3..]))
  {
    ThreeBytes(b[0], b[1], b[2]);
    var g := EncodeGroups(b);
    assert g[4..] == EncodeGroups(b[3..]);
  }

  /** A tail of fewer than three bytes comes back from its two or three sextets. */
  lemma {:induction false} DecodeEncodeTail(b: JsString)
    requires Latin1(b) && |b| < 3
    ensures DecodeGroups(EncodeGroups(b)) == b
  {
    if |b| == 2 {
      ThreeBytes(b[0], b[1], 0);
    } else if |b| == 1 {
      ThreeBytes(b[0], 0, 0);
    }
  }

  function Padding(n: nat): (r: JsString)
  {
    if n % 3 == 1 then [PAD, PAD] else if n % 3 == 2 then [PAD] else []
  }

  /** `btoa(s)`: None stands for the InvalidCharacterError it throws. */
  function Btoa(s: JsString): (r: Option<JsString>)
    ensures r.Some? <==> Latin1(s)
  {
    if Latin1(s) then Some(Letters(EncodeGroups(s)) + Padding(|s|)) else None
  }

  predicate IsAsciiWhiteSpace(c: CodeUnit) {
    c == 0x09 || c == 0x0A || c == 0x0C || c == 0x0D || c == 0x20
  }

  function RemoveWhiteSpace(s: JsString): (r: JsString)
    ensures |r| <= |s|
  {
    if |s| == 0 then []
    else if IsAsciiWhiteSpace(s[0]) then RemoveWhiteSpace(s[1..])
    else [s[0]] + RemoveWhiteSpace(s[1..])
  }

  /** Step 2 of forgiving-base64 decode: drop one or two trailing '=' when the length is a multiple of 4. */
  function StripPadding(d: JsString): (r: JsString)
  {
    if |d| % 4 == 0 && |d| >= 1 && d[|d| - 1] == PAD then
      if |d| >= 2 && d[|d| - 2] == PAD then d[..|d| - 2] else d[..|d| - 1]
    else d
  }

  /** `atob(s)`: None stands for the InvalidCharacterError it throws. */
  function Atob(s: JsString): (r: Option<JsString>)
    ensures r.Some? ==> Latin1(r.value)
  {
    var d := StripPadding(RemoveWhiteSpace(s));
    if |d| % 4 == 1 then None
    else match Sextets(d)
      case None => None
      case Some(xs) => Some(DecodeGroups(xs))
  }

  lemma {:induction false} NoWhiteSpaceToRemove(s: JsString)
    requires forall i :: 0 <= i < |s| ==> !IsAsciiWhiteSpace(s[i])
    ensures RemoveWhiteSpace(s) == s
  {
    if |s| > 0 {
      NoWhiteSpaceToRemove(s[1..]);
      assert s == [s[0]] + s[1..];
    }
  }

  lemma PaddedHasNoWhiteSpace(xs: seq<Sextet>, n: nat)
    ensures RemoveWhiteSpace(Letters(xs) + Padding(n)) == Letters(xs) + Padding(n)
  {
    var e := Letters(xs) + Padding(n);
    forall i | 0 <= i < |e| ensures !IsAsciiWhiteSpace(e[i]) {
      if i < |xs| { assert e[i] == Letter(xs[i]); } else { assert e[i] == PAD; }
    }
    NoWhiteSpaceToRemove(e);
  }

  /** The padding `btoa` adds is exactly what step 2 of `atob` removes. */
  lemma StripPaddingOfPadded(xs: seq<Sextet>, n: nat)
    requires |xs| == 4 * (n / 3) + (if n % 3 == 0 then 0 else n % 3 + 1)
    ensures StripPadding(Letters(xs) + Padding(n)) == Letters(xs)
  {
    var body := Letters(xs);
    var e := body + Padding(n);
    if n % 3 == 1 {
      assert |e| % 4 == 0 && e[|e| - 1] == PAD && e[|e| - 2] == PAD;
      assert e[..|e| - 2] == body;
    } else if n % 3 == 2 {
      assert |e| % 4 == 0 && e[|e| - 1] == PAD;
      assert e[|e| - 2] == Letter(xs[|xs| - 1]);
      assert e[..|e| - 1] == body;
    } else {
      assert e == body;
      if |e| > 0 { assert e[|e| - 1] == Letter(xs[|xs| - 1]); }
    }
  }

  lemma ModFour(q: int, c: int)
    requires 0 <= c < 4
    ensures (4 * q + c) % 4 == c
  {
  }

  /** What `btoa` writes for a group sequence, `atob` reads back as that sequence's bytes. */
  lemma AtobOfPadded(xs: seq<Sextet>, n: nat)
    requires |xs| == 4 * (n / 3) + (if n % 3 == 0 then 0 else n % 3 + 1)
    ensures Atob(Letters(xs) + Padding(n)) == Some(DecodeGroups(xs))
  {
    var e := Letters(xs) + Padding(n);
    PaddedHasNoWhiteSpace(xs, n);
    StripPaddingOfPadded(xs, n);
    var d := StripPadding(RemoveWhiteSpace(e));
    assert d == Letters(xs);
    var q, r := n / 3, n % 3;
    var tail := if r == 0 then 0 else r + 1;
    assert |d| == 4 * q + tail;
    ModFour(q, tail);
    SextetsOfLetters(xs);
    assert Sextets(d) == Some(xs);
  }

  /** `atob(btoa(s)) == s` for every string `btoa` accepts. */
  lemma AtobBtoa(s: JsString)
    requires Latin1(s)
    ensures Btoa(s).Some? && Atob(Btoa(s).value) == Some(s)
  {
    var xs := EncodeGroups(s);
    assert Btoa(s) == Some(Letters(xs) + Padding(|s|));
    AtobOfPadded(xs, |s|);
    DecodeEncodeGroups(s);
  }

  /** `btoa` fails exactly on strings with a unit above 0xFF. */
  lemma BtoaRejectsWide(s: JsString, i: nat)
    requires i < |s| && s[i] > 0xFF
    ensures Btoa(s) == None
  {
  }
}
