/**
 * JavaScript strings as the program sees them: sequences of UTF-16 code
 * units. Everything the core does to text (charCodeAt, XOR, comparison,
 * `sort()`, `toString(radix)`, `trim()`, `toLowerCase()`, `startsWith`,
 * `endsWith`) is defined here on code units.
 */
module JsString {
  import opened Wrappers

  /** A UTF-16 code unit, the value `charCodeAt` returns. */
  type CodeUnit = x: int | 0 <= x < 0x1_0000
  type JsString = seq<CodeUnit>

  /** The code units of a Dafny string literal (all literals used here are ASCII). */
  function Str(s: string): (r: JsString)
    ensures |r| == |s|
  {
    seq(|s|, i requires 0 <= i < |s| => s[i] as int % 0x1_0000)
  }

  /** Every code unit fits in one byte: what `btoa` accepts. */
  predicate Latin1(s: JsString) {
    forall i :: 0 <= i < |s| ==> s[i] <= 0xFF
  }

  // ---------------------------------------------------------------------
  // Code-unit order: JavaScript's `<` on strings and the order used by
  // `Array.prototype.sort()` without a comparator.
  // ---------------------------------------------------------------------

  predicate LessEq(a: JsString, b: JsString)
    decreases |a|
  {
    |a| == 0 || (|b| > 0 && (a[0] < b[0] || (a[0] == b[0] && LessEq(a[1..], b[1..]))))
  }

  lemma {:induction false} LessEqTotal(a: JsString, b: JsString)
    ensures LessEq(a, b) || LessEq(b, a)
    decreases |a|
  {
    if |a| > 0 && |b| > 0 && a[0] == b[0] {
      LessEqTotal(a[1..], b[1..]);
    }
  }

  lemma {:induction false} LessEqAntisymmetric(a: JsString, b: JsString)
    requires LessEq(a, b) && LessEq(b, a)
    ensures a == b
    decreases |a|
  {
    if |a| > 0 {
      LessEqAntisymmetric(a[1..], b[1..]);
      assert a == [a[0]] + a[1..] && b == [b[0]] + b[1..];
    }
  }

  lemma {:induction false} LessEqTransitive(a: JsString, b: JsString, c: JsString)
    requires LessEq(a, b) && LessEq(b, c)
    ensures LessEq(a, c)
    decreases |a|
  {
    if |a| > 0 && a[0] == b[0] && b[0] == c[0] {
      LessEqTransitive(a[1..], b[1..], c[1..]);
    }
  }

  predicate Sorted(s: seq<JsString>) {
    forall i, j :: 0 <= i < j < |s| ==> LessEq(s[i], s[j])
  }

  /** Insertion of one string into a sorted list (helper of SortStrings). */
  function Insert(x: JsString, s: seq<JsString>): (r: seq<JsString>)
    ensures |r| == |s| + 1
  {
    if |s| == 0 then [x]
    else if LessEq(x, s[0]) then [x] + s
    else [s[0]] + Insert(x, s[1..])
  }

  /** `array.sort()` on an array of strings: ascending code-unit order. */
  function SortStrings(xs: seq<JsString>): (r: seq<JsString>)
    ensures |r| == |xs|
  {
    if |xs| == 0 then [] else Insert(xs[0], SortStrings(xs[1..]))
  }

  lemma {:induction false} LessEqReflexive(a: JsString)
    ensures LessEq(a, a)
    decreases |a|
  {
    if |a| > 0 { LessEqReflexive(a[1..]); }
  }

  lemma {:induction false} InsertMultiset(x: JsString, s: seq<JsString>)
    ensures multiset(Insert(x, s)) == multiset(s) + multiset{x}
  {
    if |s| > 0 {
      assert s == [s[0]] + s[1..];
      if !LessEq(x, s[0]) { InsertMultiset(x, s[1..]); }
    }
  }

  lemma {:induction false} InsertSorted(x: JsString, s: seq<JsString>)
    requires Sorted(s)
    ensures Sorted(Insert(x, s))
  {
    if |s| == 0 {
    } else if LessEq(x, s[0]) {
      var r := [x] + s;
      forall i, j | 0 <= i < j < |r| ensures LessEq(r[i], r[j]) {
        if i == 0 && j > 1 { LessEqTransitive(x, s[0], s[j - 1]); }
      }
    } else {
      LessEqTotal(x, s[0]);
      InsertSorted(x, s[1..]);
      var t := Insert(x, s[1..]);
      InsertMultiset(x, s[1..]);
      forall j | 0 <= j < |t| ensures LessEq(s[0], t[j]) {
        assert t[j] in multiset(t);
        if t[j] != x {
          assert t[j] in multiset(s[1..]);
          var k :| 0 <= k < |s[1..]| && s[1..][k] == t[j];
          assert s[k + 1] == t[j];
        }
      }
      var r := [s[0]] + t;
      forall i, j | 0 <= i < j < |r| ensures LessEq(r[i], r[j]) {
        if i == 0 { assert r[j] == t[j - 1]; }
      }
    }
  }

  /** The sort yields a sorted permutation of its input. */
  lemma {:induction false} SortStringsCorrect(xs: seq<JsString>)
    ensures Sorted(SortStrings(xs))
    ensures multiset(SortStrings(xs)) == multiset(xs)
  {
    if |xs| > 0 {
      var rest := SortStrings(xs[1..]);
      SortStringsCorrect(xs[1..]);
      InsertSorted(xs[0], rest);
      InsertMultiset(xs[0], rest);
      assert multiset(xs) == multiset(xs[1..]) + multiset{xs[0]} by {
        assert xs == [xs[0]] + xs[1..];
      }
    }
  }

  lemma SortedHeadLeast(a: seq<JsString>, x: JsString)
    requires Sorted(a) && x in multiset(a)
    ensures LessEq(a[0], x)
  {
    var i :| 0 <= i < |a| && a[i] == x;
    LessEqReflexive(a[0]);
    if i > 0 {
      assert LessEq(a[0], a[i]);
    }
  }

  lemma SortedTail(a: seq<JsString>)
    requires Sorted(a) && |a| > 0
    ensures Sorted(a[1..])
  {
    forall i, j | 0 <= i < j < |a| - 1 ensures LessEq(a[1..][i], a[1..][j]) {
      assert a[1..][i] == a[i + 1] && a[1..][j] == a[j + 1];
    }
  }

  lemma SortedSameHead(a: seq<JsString>, b: seq<JsString>)
    requires Sorted(a) && Sorted(b) && multiset(a) == multiset(b) && |a| > 0
    ensures |b| > 0 && a[0] == b[0]
  {
    assert a[0] in multiset(a);
    assert |b| > 0;
    assert b[0] in multiset(b);
    SortedHeadLeast(a, b[0]);
    SortedHeadLeast(b, a[0]);
    LessEqAntisymmetric(a[0], b[0]);
  }

  lemma SameTail(a: seq<JsString>, b: seq<JsString>)
    requires multiset(a) == multiset(b) && |a| > 0 && |b| > 0 && a[0] == b[0]
    ensures multiset(a[1..]) == multiset(b[1..])
  {
    assert a == [a[0]] + a[1..] && b == [b[0]] + b[1..];
    assert multiset(a[1..]) == multiset(a) - multiset{a[0]};
    assert multiset(b[1..]) == multiset(b) - multiset{b[0]};
  }

  /** Two sorted lists with the same elements are the same list. */
  lemma {:induction false} SortedUnique(a: seq<JsString>, b: seq<JsString>)
    requires Sorted(a) && Sorted(b) && multiset(a) == multiset(b)
    ensures a == b
  {
    if |a| == 0 {
      assert |multiset(b)| == 0;
    } else {
      SortedSameHead(a, b);
      SameTail(a, b);
      SortedTail(a);
      SortedTail(b);
      SortedUnique(a[1..], b[1..]);
      assert a == [a[0]] + a[1..] && b == [b[0]] + b[1..];
    }
  }

  /** The order of the input never shows in the output of the sort. */
  lemma SortStringsIgnoresOrder(xs: seq<JsString>, ys: seq<JsString>)
    requires multiset(xs) == multiset(ys)
    ensures SortStrings(xs) == SortStrings(ys)
  {
    SortStringsCorrect(xs);
    SortStringsCorrect(ys);
    SortedUnique(SortStrings(xs), SortStrings(ys));
  }

  // ---------------------------------------------------------------------
  // Number#toString(radix) for integers, and reading digits back.
  // ---------------------------------------------------------------------

  /** The lower-case digit for 0 <= d < 16 ('0'-'9', 'a'-'f'). */
  function DigitUnit(d: nat): (c: CodeUnit)
    requires d < 16
  {
    if d < 10 then 0x30 + d else 0x61 + (d - 10)
  }

  /** The value of a lower-case digit in the given base, if it is one. */
  function DigitValue(c: CodeUnit, base: nat): (r: Option<nat>)
    requires base == 10 || base == 16
    ensures r.Some? ==> r.value < base && DigitUnit(r.value) == c
  {
    if 0x30 <= c <= 0x39 && c - 0x30 < base then Some(c - 0x30)
    else if 0x61 <= c <= 0x66 && c - 0x61 + 10 < base then Some(c - 0x61 + 10)
    else None
  }

  lemma DigitValueOfUnit(d: nat, base: nat)
    requires (base == 10 || base == 16) && d < base
    ensures DigitValue(DigitUnit(d), base) == Some(d)
  {
  }

  /** The digits of n in the given base, most significant first, no leading zeros. */
  function NatToUnits(n: nat, base: nat): (r: JsString)
    requires base == 10 || base == 16
    ensures |r| > 0
    decreases n
  {
    if n < base then [DigitUnit(n)] else NatToUnits(n / base, base) + [DigitUnit(n % base)]
  }

  /** Integer-to-text conversion: a '-' sign, then the digits of the magnitude. */
  function Signed(n: int, base: nat): (r: JsString)
    requires base == 10 || base == 16
  {
    if n < 0 then [0x2D] + NatToUnits(-n, base) else NatToUnits(n, base)
  }

  predicate AllDigits(s: JsString, base: nat)
    requires base == 10 || base == 16
  {
    forall i :: 0 <= i < |s| ==> DigitValue(s[i], base).Some?
  }

  lemma {:induction false} NatToUnitsAreDigits(n: nat, base: nat)
    requires base == 10 || base == 16
    ensures AllDigits(NatToUnits(n, base), base)
    decreases n
  {
    DigitValueOfUnit(n % base, base);
    if n >= base { NatToUnitsAreDigits(n / base, base); }
  }

  /** The value of a string of digits (a unit that is not a digit counts as 0). */
  function UnitsToNat(s: JsString, base: nat): (n: nat)
    requires base == 10 || base == 16
  {
    if |s| == 0 then 0
    else UnitsToNat(s[..|s| - 1], base) * base + DigitValue(s[|s| - 1], base).GetOr(0)
  }

  lemma DivMod(n: nat, b: nat)
    requires b == 10 || b == 16
    ensures n == (n / b) * b + n % b
    ensures n > 0 ==> n / b < n
  {
  }

  lemma NatToUnitsStep(n: nat, base: nat)
    requires (base == 10 || base == 16) && n >= base
    ensures NatToUnits(n, base) == NatToUnits(n / base, base) + [DigitUnit(n % base)]
  {
  }

  lemma UnitsToNatStep(hi: JsString, d: nat, base: nat)
    requires (base == 10 || base == 16) && d < base
    ensures UnitsToNat(hi + [DigitUnit(d)], base) == UnitsToNat(hi, base) * base + d
  {
    DigitValueOfUnit(d, base);
    var s := hi + [DigitUnit(d)];
    assert s[..|s| - 1] == hi;
  }

  lemma {:induction false} UnitsToNatOfDigits(n: nat, base: nat)
    requires base == 10 || base == 16
    ensures UnitsToNat(NatToUnits(n, base), base) == n
    decreases n
  {
    if n < base {
      UnitsToNatStep([], n, base);
      assert [] + [DigitUnit(n)] == NatToUnits(n, base);
    } else {
      var q, d := n / base, n % base;
      DivMod(n, base);
      NatToUnitsStep(n, base);
      UnitsToNatStep(NatToUnits(q, base), d, base);
      UnitsToNatOfDigits(q, base);
    }
  }

  /** Reads back what Signed writes. */
  function ParseSigned(s: JsString, base: nat): (r: Option<int>)
    requires base == 10 || base == 16
  {
    var neg := |s| > 0 && s[0] == 0x2D;
    var digits := if neg then s[1..] else s;
    var magnitude: int := UnitsToNat(digits, base);
    if |digits| > 0 && AllDigits(digits, base) then Some(if neg then -magnitude else magnitude)
    else None
  }

  /** The rendering of an integer determines the integer. */
  lemma ParseSignedOfSigned(n: int, base: nat)
    requires base == 10 || base == 16
    ensures ParseSigned(Signed(n, base), base) == Some(n)
  {
    var s := Signed(n, base);
    if n < 0 {
      assert s[1..] == NatToUnits(-n, base);
      NatToUnitsAreDigits(-n, base);
      UnitsToNatOfDigits(-n, base);
    } else {
      NatToUnitsAreDigits(n, base);
      assert DigitValue(s[0], base).Some?;
      UnitsToNatOfDigits(n, base);
    }
  }

  lemma SignedInjective(m: int, n: int, base: nat)
    requires base == 10 || base == 16
    ensures Signed(m, base) == Signed(n, base) <==> m == n
  {
    if Signed(m, base) == Signed(n, base) {
      ParseSignedOfSigned(m, base);
      ParseSignedOfSigned(n, base);
    }
  }

  // ---------------------------------------------------------------------
  // trim(), toLowerCase(), startsWith(), endsWith()
  // ---------------------------------------------------------------------

  /** WhiteSpace and LineTerminator code units, as `String.prototype.trim` removes them. */
  predicate IsJsWhiteSpace(c: CodeUnit) {
    c == 0x09 || c == 0x0A || c == 0x0B || c == 0x0C || c == 0x0D || c == 0x20 || c == 0xA0
    || c == 0x1680 || (0x2000 <= c <= 0x200A) || c == 0x2028 || c == 0x2029 || c == 0x202F
    || c == 0x205F || c == 0x3000 || c == 0xFEFF
  }

  function TrimStart(s: JsString): (r: JsString)
    ensures |r| <= |s| && r == s[|s| - |r|..]
    ensures |r| > 0 ==> !IsJsWhiteSpace(r[0])
    ensures forall i :: 0 <= i < |s| - |r| ==> IsJsWhiteSpace(s[i])
  {
    if |s| > 0 && IsJsWhiteSpace(s[0]) then TrimStart(s[1..]) else s
  }

  function TrimEnd(s: JsString): (r: JsString)
    ensures |r| <= |s| && r == s[..|r|]
    ensures |r| > 0 ==> !IsJsWhiteSpace(r[|r| - 1])
    ensures forall i :: |r| <= i < |s| ==> IsJsWhiteSpace(s[i])
  {
    if |s| > 0 && IsJsWhiteSpace(s[|s| - 1]) then TrimEnd(s[..|s| - 1]) else s
  }

  /** `s.trim()`: the string without leading and trailing white space. */
  function Trim(s: JsString): (r: JsString)
    ensures r == [] <==> forall i :: 0 <= i < |s| ==> IsJsWhiteSpace(s[i])
    ensures r != [] ==> !IsJsWhiteSpace(r[0]) && !IsJsWhiteSpace(r[|r| - 1])
    ensures exists a, b :: 0 <= a <= b <= |s| && r == s[a..b]
              && (forall i :: 0 <= i < a ==> IsJsWhiteSpace(s[i]))
              && (forall i :: b <= i < |s| ==> IsJsWhiteSpace(s[i]))
  {
    var t := TrimStart(s);
    var r := TrimEnd(t);
    assert r == [] ==> t == [];
    SliceBetweenWhiteSpace(s, t, r);
    r
  }

  /**
   * A suffix `t` of `s` behind white space, cut to a prefix `r` before
   * white space, is a slice of `s` with only white space around it.
   */
  lemma SliceBetweenWhiteSpace(s: JsString, t: JsString, r: JsString)
    requires |t| <= |s| && t == s[|s| - |t|..] && (forall i :: 0 <= i < |s| - |t| ==> IsJsWhiteSpace(s[i]))
    requires |r| <= |t| && r == t[..|r|] && (forall i :: |r| <= i < |t| ==> IsJsWhiteSpace(t[i]))
    ensures exists a, b :: 0 <= a <= b <= |s| && r == s[a..b]
              && (forall i :: 0 <= i < a ==> IsJsWhiteSpace(s[i]))
              && (forall i :: b <= i < |s| ==> IsJsWhiteSpace(s[i]))
  {
    var a, b := |s| - |t|, |s| - |t| + |r|;
    assert r == s[a..b];
    forall i | b <= i < |s|
      ensures IsJsWhiteSpace(s[i])
    {
      assert s[i] == t[i - a];
    }
  }

  /** `toLowerCase()` on the ASCII letters A-Z; every other unit is kept. */
  function LowerAscii(s: JsString): (r: JsString)
    ensures |r| == |s|
    ensures forall i :: 0 <= i < |s| ==> (r[i] != s[i] <==> 0x41 <= s[i] <= 0x5A)
    ensures forall i :: 0 <= i < |s| && 0x41 <= s[i] <= 0x5A ==> r[i] == s[i] + 0x20
    ensures forall i :: 0 <= i < |s| ==> !(0x41 <= r[i] <= 0x5A)
  {
    seq(|s|, i requires 0 <= i < |s| => if 0x41 <= s[i] <= 0x5A then s[i] + 0x20 else s[i])
  }

  predicate StartsWith(s: JsString, prefix: JsString) {
    |prefix| <= |s| && s[..|prefix|] == prefix
  }

  predicate EndsWith(s: JsString, suffix: JsString) {
    |suffix| <= |s| && s[|s| - |suffix|..] == suffix
  }
}
