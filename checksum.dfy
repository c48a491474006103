/**
 * The integrity checksum of a user record (`calculateChecksum` in
 * src/App.tsx). Six members of the record are written as a JSON object,
 * with the entity ids sorted, and the text is folded into a signed 32-bit
 * integer, 31 * hash + unit at each step, which is rendered in base 16 with
 * a '-' sign when negative.
 */
module Checksum {
  import opened Wrappers
  import opened JsString
  import opened Json
  import opened Records

  const TWO_32: int := 0x1_0000_0000
  const TWO_31: int := 0x8000_0000

  /** ToInt32 of ECMAScript: the signed 32-bit integer congruent to x modulo 2^32. */
  function ToInt32(x: int): (r: int)
    ensures -TWO_31 <= r < TWO_31
    ensures (x - r) % TWO_32 == 0
  {
    var m := x % TWO_32;
    if m >= TWO_31 then m - TWO_32 else m
  }

  /** Integers congruent modulo 2^32 have the same ToInt32. */
  lemma ToInt32Congruent(x: int, y: int)
    requires (x - y) % TWO_32 == 0
    ensures ToInt32(x) == ToInt32(y)
  {
    var k := (x - y) / TWO_32;
    assert x == y + k * TWO_32;
    assert x % TWO_32 == y % TWO_32;
  }

  /** ToInt32 leaves a signed 32-bit integer as it is. */
  lemma ToInt32OfInt32(x: int)
    requires -TWO_31 <= x < TWO_31
    ensures ToInt32(x) == x
  {
    if x < 0 {
      assert x % TWO_32 == x + TWO_32;
    }
  }

  /**
   * One step of the loop as the source writes it: `(hash << 5) - hash + c`,
   * where `<<` works on ToInt32 of its operand, then `hash & hash`, which is
   * ToInt32 again.
   */
  function ShiftStep(hash: int, c: CodeUnit): (r: int)
  {
    ToInt32(ToInt32(hash * 32) - hash + c)
  }

  /** The shift-and-subtract step is the int32 truncation of 31 * hash + c. */
  lemma ShiftStepIsTimes31(hash: int, c: CodeUnit)
    ensures ShiftStep(hash, c) == ToInt32(31 * hash + c)
  {
    var shifted := ToInt32(hash * 32);
    assert (hash * 32 - shifted) % TWO_32 == 0;
    assert (shifted - hash + c) - (31 * hash + c) == shifted - hash * 32;
    ToInt32Congruent(shifted - hash + c, 31 * hash + c);
  }

  /** The hash of a text: start at 0, then hash := int32(31 * hash + unit) for each unit in order. */
  function HashOf(s: JsString): (h: int)
    ensures -TWO_31 <= h < TWO_31
  {
    if |s| == 0 then 0 else ToInt32(31 * HashOf(s[..|s| - 1]) + s[|s| - 1])
  }

  /** The object `calculateChecksum` writes out, with the entity ids already sorted. */
  function CanonicalSlots(u: User, sortedIds: seq<JsString>): (r: seq<Slot>)
  {
    [Slot(K_USERNAME, Some(JStr(u.username))),
     Slot(K_ROLE, Some(JStr(u.role))),
     Slot(K_SUBSCRIPTION, Some(JStr(u.subscription))),
     Slot(K_ACCESSIBLE, Some(JArr(Strings(sortedIds)))),
     Slot(K_STRIKES, Some(JNum(u.strikes))),
     Slot(K_TOUR, BoolOf(u.hasCompletedTour))]
  }

  /** The text that is hashed: the six members in order, the ids sorted by code units. */
  function CanonicalText(u: User): (r: JsString)
    ensures |r| > 0
  {
    Serialize(JObj(Members(CanonicalSlots(u, SortStrings(u.accessibleEntities)))))
  }

  /** `calculateChecksum(u)`: the hash of the canonical text in base 16. */
  function ChecksumOf(u: User): (r: JsString)
  {
    Signed(HashOf(CanonicalText(u)), 16)
  }

  /**
   * `calculateChecksum`, step by step. The source sorts the caller's
   * `accessibleEntities` array in place as a side effect; the sorted list is
   * returned so that the caller can store it in its record.
   */
  method CalculateChecksum(u: User) returns (checksum: JsString, sortedIds: seq<JsString>)
    ensures sortedIds == SortStrings(u.accessibleEntities)
    ensures Sorted(sortedIds) && multiset(sortedIds) == multiset(u.accessibleEntities)
    ensures checksum == ChecksumOf(u)
  {
    sortedIds := SortStrings(u.accessibleEntities);
    SortStringsCorrect(u.accessibleEntities);
    var userString := Serialize(JObj(Members(CanonicalSlots(u, sortedIds))));
    var hash := 0;
    var i := 0;
    while i < |userString|
      invariant 0 <= i <= |userString|
      invariant hash == HashOf(userString[..i])
    {
      var c := userString[i];
      ShiftStepIsTimes31(hash, c);
      hash := ShiftStep(hash, c);
      assert userString[..i + 1][..i] == userString[..i];
      i := i + 1;
    }
    assert userString[..i] == userString;
    checksum := Signed(hash, 16);
  }

  /**
   * The checksum reads only username, role, subscription, the multiset of
   * entity ids, strikes and hasCompletedTour: the order of the ids and every
   * other member (keys, dates, timestamps) make no difference.
   */
  lemma ChecksumDependsOnSixMembers(u: User, v: User)
    requires u.username == v.username && u.role == v.role && u.subscription == v.subscription
    requires multiset(u.accessibleEntities) == multiset(v.accessibleEntities)
    requires u.strikes == v.strikes && u.hasCompletedTour == v.hasCompletedTour
    ensures ChecksumOf(u) == ChecksumOf(v)
  {
    SortStringsIgnoresOrder(u.accessibleEntities, v.accessibleEntities);
  }

  /** Sorting the ids first, as the source does to its caller's record, keeps the checksum. */
  lemma ChecksumOfSorted(u: User)
    ensures ChecksumOf(u.(accessibleEntities := SortStrings(u.accessibleEntities))) == ChecksumOf(u)
  {
    SortStringsCorrect(u.accessibleEntities);
    ChecksumDependsOnSixMembers(u, u.(accessibleEntities := SortStrings(u.accessibleEntities)));
  }

  /** A negative hash is rendered with a leading '-' and a non-negative one without. */
  lemma ChecksumSign(u: User)
    ensures |ChecksumOf(u)| > 0
    ensures ChecksumOf(u)[0] == 0x2D <==> HashOf(CanonicalText(u)) < 0
  {
    var h := HashOf(CanonicalText(u));
    if h >= 0 {
      NatToUnitsAreDigits(h, 16);
      assert DigitValue(ChecksumOf(u)[0], 16).Some?;
    }
  }

  /** The rendering loses nothing: the text of a checksum determines the hash. */
  lemma ChecksumDeterminesHash(u: User, v: User)
    ensures ChecksumOf(u) == ChecksumOf(v) <==> HashOf(CanonicalText(u)) == HashOf(CanonicalText(v))
  {
    SignedInjective(HashOf(CanonicalText(u)), HashOf(CanonicalText(v)), 16);
  }

  /** Appending one unit to a text takes the hash one step of the fold further. */
  lemma HashStep(s: JsString, c: CodeUnit)
    ensures HashOf(s + [c]) == ToInt32(31 * HashOf(s) + c)
  {
    assert (s + [c])[..|s|] == s;
  }
}
