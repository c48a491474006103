/**
 * The obfuscated key-value store (src/utils/secureStorage.ts).
 *
 * A value is stored as `btoa(cipher(value))`, where `cipher` XORs code
 * unit i with unit i mod 26 of a fixed key. `localStorage` itself is a
 * map from keys to stored strings, held by the `Store` class. `setItem`
 * swallows the exception `btoa` throws for units above 0xFF, so such a
 * write changes nothing; `getItem` deletes an entry `atob` rejects.
 */
module SecureStorage {
  import opened Wrappers
  import opened JsString
  import opened Base64

  // ---------------------------------------------------------------------
  // Bitwise XOR on non-negative integers
  // ---------------------------------------------------------------------

  function Pow2(k: nat): (r: nat)
    ensures r > 0
  {
    if k == 0 then 1 else 2 * Pow2(k - 1)
  }

  /** `a ^ b`, bit by bit from the least significant end. */
  function Xor(a: nat, b: nat): (r: nat)
    decreases a + b
  {
    if a == 0 && b == 0 then 0 else 2 * Xor(a / 2, b / 2) + (a % 2 + b % 2) % 2
  }

  lemma XorStep(a: nat, b: nat)
    ensures Xor(a, b) / 2 == Xor(a / 2, b / 2) && Xor(a, b) % 2 == (a % 2 + b % 2) % 2
  {
  }

  lemma BitInvolution(x: nat, y: nat)
    requires x < 2 && y < 2
    ensures ((x + y) % 2 + y) % 2 == x
  {
  }

  /** XOR-ing twice with the same b gives a back. */
  lemma {:induction false} XorInvolution(a: nat, b: nat)
    ensures Xor(Xor(a, b), b) == a
    decreases a + b
  {
    if a != 0 || b != 0 {
      var c := Xor(a, b);
      XorStep(a, b);
      XorInvolution(a / 2, b / 2);
      XorStep(c, b);
      BitInvolution(a % 2, b % 2);
      var d := Xor(c, b);
      assert d / 2 == a / 2 && d % 2 == a % 2;
    }
  }

  /** XOR of two k-bit numbers is a k-bit number. */
  lemma {:induction false} XorBelow(a: nat, b: nat, k: nat)
    requires a < Pow2(k) && b < Pow2(k)
    ensures Xor(a, b) < Pow2(k)
    decreases k
  {
    if a == 0 && b == 0 {
    } else {
      assert k > 0;
      XorBelow(a / 2, b / 2, k - 1);
    }
  }

  lemma Pow2Values()
    ensures Pow2(7) == 0x80 && Pow2(8) == 0x100 && Pow2(16) == 0x1_0000
  {
    assert Pow2(4) == 16;
    assert Pow2(7) == 0x80;
    assert Pow2(8) == 0x100;
    assert Pow2(12) == 0x1000;
    assert Pow2(16) == 0x1_0000;
  }

  // ---------------------------------------------------------------------
  // cipher
  // ---------------------------------------------------------------------

  /** 'LumenSanctumSovereigntyKey' */
  const KEY: JsString := [
    0x4C, 0x75, 0x6D, 0x65, 0x6E, 0x53, 0x61, 0x6E, 0x63, 0x74, 0x75, 0x6D, 0x53,
    0x6F, 0x76, 0x65, 0x72, 0x65, 0x69, 0x67, 0x6E, 0x74, 0x79, 0x4B, 0x65, 0x79]

  lemma KeyIsAscii(i: nat)
    requires i < |KEY|
    ensures KEY[i] < 0x80
  {
  }

  /** Unit i of the cipher text: unit i of the plain text XOR key unit i mod 26. */
  function CipherUnit(c: CodeUnit, i: nat): (r: CodeUnit)
    ensures c <= 0xFF <==> r <= 0xFF
  {
    KeyIsAscii(i % |KEY|);
    XorWithAscii(c, KEY[i % |KEY|]);
    Xor(c, KEY[i % |KEY|])
  }

  /** XOR with an ASCII unit keeps a code unit a code unit, and a Latin-1 unit Latin-1 (both ways). */
  lemma XorWithAscii(c: CodeUnit, k: nat)
    requires k < 0x80
    ensures Xor(c, k) < 0x1_0000
    ensures c <= 0xFF <==> Xor(c, k) <= 0xFF
  {
    Pow2Values();
    XorBelow(c, k, 16);
    if c <= 0xFF {
      XorBelow(c, k, 8);
    }
    if Xor(c, k) <= 0xFF {
      XorBelow(Xor(c, k), k, 8);
      XorInvolution(c, k);
    }
  }

  /** What `cipher(s)` returns. */
  function Ciphered(s: JsString): (r: JsString)
    ensures |r| == |s|
  {
    seq(|s|, i requires 0 <= i < |s| => CipherUnit(s[i], i))
  }

  /** `cipher`: a loop that appends one enciphered unit per unit of `str`. */
  method Cipher(str: JsString) returns (result: JsString)
    ensures result == Ciphered(str)
  {
    result := [];
    for i := 0 to |str|
      invariant result == Ciphered(str[..i])
    {
      result := result + [CipherUnit(str[i], i)];
    }
    assert str[..|str|] == str;
  }

  /** `cipher(cipher(s)) == s`. */
  lemma CipherInvolution(s: JsString)
    ensures Ciphered(Ciphered(s)) == s
  {
    forall i | 0 <= i < |s| ensures Ciphered(Ciphered(s))[i] == s[i] {
      XorInvolution(s[i], KEY[i % |KEY|]);
    }
  }

  /** Enciphering keeps a string within Latin-1 and keeps a wider string wide. */
  lemma CipherLatin1(s: JsString)
    ensures Latin1(Ciphered(s)) <==> Latin1(s)
  {
    if !Latin1(s) {
      var i :| 0 <= i < |s| && s[i] > 0xFF;
      assert Ciphered(s)[i] > 0xFF;
    }
  }

  /** Unit i of the cipher text depends only on unit i of the plain text and on i. */
  lemma CipherPrefix(s: JsString, t: JsString)
    ensures Ciphered(s + t)[..|s|] == Ciphered(s)
  {
  }

  // ---------------------------------------------------------------------
  // localStorage operations on the map of stored strings
  // ---------------------------------------------------------------------

  type Items = map<JsString, JsString>

  /** What `setItem(key, value)` leaves in storage. */
  function SetItemMap(m: Items, key: JsString, value: JsString): (r: Items)
    ensures Latin1(value) ==> Stored(r, key) == Some(value)
    ensures !Latin1(value) ==> r == m
  {
    RevealCiphered(value);
    match Btoa(Ciphered(value))
    case Some(obfuscated) => m[key := obfuscated]
    case None => m
  }

  /** The value `getItem` reads out of a stored string, unless `atob` rejects it. */
  function Reveal(stored: JsString): (r: Option<JsString>)
  {
    match Atob(stored)
    case Some(bytes) => Some(Ciphered(bytes))
    case None => None
  }

  datatype Read = Read(value: Option<JsString>, items: Items)

  /** What `getItem(key)` returns and what it leaves in storage. */
  function GetItemMap(m: Items, key: JsString): (r: Read)
    ensures r.value == Stored(m, key)
    ensures r.items == m || (r.value.None? && r.items == m - {key})
  {
    if key !in m then Read(None, m)
    else match Reveal(m[key])
      case Some(v) => Read(Some(v), m)
      case None => Read(None, m - {key})
  }

  /**
   * The obfuscated form of a Latin-1 value exists and reveals the value;
   * a value with a unit above 0xFF has none, as `btoa` throws on it.
   */
  lemma RevealCiphered(value: JsString)
    ensures Latin1(value) <==> Btoa(Ciphered(value)).Some?
    ensures Latin1(value) ==> Reveal(Btoa(Ciphered(value)).value) == Some(value)
  {
    CipherLatin1(value);
    if Latin1(value) {
      AtobBtoa(Ciphered(value));
      CipherInvolution(value);
    }
  }

  /** A value of Latin-1 units is read back as written. */
  lemma GetAfterSet(m: Items, key: JsString, value: JsString)
    requires Latin1(value)
    ensures GetItemMap(SetItemMap(m, key, value), key) == Read(Some(value), SetItemMap(m, key, value))
    ensures key in SetItemMap(m, key, value)
  {
  }

  /** Writing one key leaves every other key as it was. */
  lemma SetKeepsOthers(m: Items, key: JsString, value: JsString, other: JsString)
    requires other != key
    ensures other in SetItemMap(m, key, value) <==> other in m
    ensures other in m ==> SetItemMap(m, key, value)[other] == m[other]
  {
  }

  /** Reading an absent key returns null and changes nothing. */
  lemma GetAbsent(m: Items, key: JsString)
    requires key !in m
    ensures GetItemMap(m, key) == Read(None, m)
  {
  }

  /** Reading an entry `atob` rejects returns null and removes exactly that entry. */
  lemma GetCorrupt(m: Items, key: JsString)
    requires key in m && Atob(m[key]).None?
    ensures GetItemMap(m, key).value.None?
    ensures GetItemMap(m, key).items.Keys == m.Keys - {key}
    ensures forall k :: k in m && k != key ==> GetItemMap(m, key).items[k] == m[k]
  {
  }

  /** Reading never adds or changes an entry; at most it removes the one it read. */
  lemma GetOnlyRemovesItsKey(m: Items, key: JsString)
    ensures var r := GetItemMap(m, key);
      (r.items == m || r.items == m - {key}) && (r.items != m ==> r.value.None?)
  {
  }

  /** The value `getItem(key)` would return from m. */
  function Stored(m: Items, key: JsString): (r: Option<JsString>)
  {
    if key in m then Reveal(m[key]) else None
  }

  /** `getItem` returns the stored value and keeps every other key as it was. */
  lemma GetItemStored(m: Items, key: JsString)
    ensures GetItemMap(m, key).value == Stored(m, key)
    ensures forall k :: k != key ==> (k in GetItemMap(m, key).items <==> k in m)
    ensures forall k :: k != key && k in m ==> GetItemMap(m, key).items[k] == m[k]
    ensures forall k :: k != key ==> Stored(GetItemMap(m, key).items, k) == Stored(m, k)
  {
  }

  /** The browser's `localStorage`, holding the obfuscated strings. */
  class Store {
    var items: Items

    constructor()
      ensures items == map[]
    {
      items := map[];
    }

    /** `setItem`: `btoa(cipher(value))` under key; a `btoa` failure is swallowed. */
    method SetItem(key: JsString, value: JsString)
      modifies this
      ensures items == SetItemMap(old(items), key, value)
    {
      var ciphered := Cipher(value);
      match Btoa(ciphered) {
        case Some(obfuscated) => items := items[key := obfuscated];
        case None =>
      }
    }

    /** `getItem`: null when absent; null and the entry removed when `atob` fails. */
    method GetItem(key: JsString) returns (value: Option<JsString>)
      modifies this
      ensures Read(value, items) == GetItemMap(old(items), key)
    {
      if key !in items {
        return None;
      }
      match Atob(items[key]) {
        case None =>
          items := items - {key};
          value := None;
        case Some(bytes) =>
          var plain := Cipher(bytes);
          value := Some(plain);
      }
    }

    method RemoveItem(key: JsString)
      modifies this
      ensures items == old(items) - {key}
    {
      items := items - {key};
    }

    method Clear()
      modifies this
      ensures items == map[]
    {
      items := map[];
    }
  }

  // ---------------------------------------------------------------------
  // isCodeFile
  // ---------------------------------------------------------------------

  const CODE_EXTENSIONS: seq<JsString> := [
    Str(".js"), Str(".jsx"), Str(".ts"), Str(".tsx"), Str(".py"), Str(".java"), Str(".c"),
    Str(".cpp"), Str(".h"), Str(".hpp"), Str(".cs"), Str(".html"), Str(".css"), Str(".scss"),
    Str(".json"), Str(".xml"), Str(".yaml"), Str(".yml"), Str(".md"), Str(".sh"), Str(".bat"),
    Str(".ps1"), Str(".rb"), Str(".php"), Str(".go")]

  const CODE_MIME_TYPES: seq<JsString> := [
    Str("application/javascript"), Str("text/javascript"), Str("text/html"), Str("text/css"),
    Str("application/json"), Str("application/xml"), Str("text/x-python"), Str("text/x-java-source")]

  /** `types.some(t => s.startsWith(t))`, scanning the list in order. */
  function SomePrefix(s: JsString, types: seq<JsString>): (r: bool)
    ensures r <==> exists i :: 0 <= i < |types| && StartsWith(s, types[i])
  {
    if |types| == 0 then false
    else StartsWith(s, types[0]) || SomePrefix(s, types[1..])
  }

  /** `exts.some(e => s.endsWith(e))`, scanning the list in order. */
  function SomeSuffix(s: JsString, exts: seq<JsString>): (r: bool)
    ensures r <==> exists i :: 0 <= i < |exts| && EndsWith(s, exts[i])
  {
    if |exts| == 0 then false
    else EndsWith(s, exts[0]) || SomeSuffix(s, exts[1..])
  }

  /** A file counts as code when its MIME type starts with a listed type (case-sensitive)
    * or its lower-cased name ends with a listed extension. */
  function IsCodeFile(name: JsString, mimeType: JsString): (r: bool)
    ensures r <==> ((exists i :: 0 <= i < |CODE_MIME_TYPES| && StartsWith(mimeType, CODE_MIME_TYPES[i]))
                 || (exists i :: 0 <= i < |CODE_EXTENSIONS| && EndsWith(LowerAscii(name), CODE_EXTENSIONS[i])))
  {
    SomePrefix(mimeType, CODE_MIME_TYPES) || SomeSuffix(LowerAscii(name), CODE_EXTENSIONS)
  }

  lemma LowerAsciiIdempotent(s: JsString)
    ensures LowerAscii(LowerAscii(s)) == LowerAscii(s)
  {
  }

  /** The name is compared without regard to ASCII case. */
  lemma IsCodeFileIgnoresNameCase(name: JsString, mimeType: JsString)
    ensures IsCodeFile(LowerAscii(name), mimeType) == IsCodeFile(name, mimeType)
  {
    LowerAsciiIdempotent(name);
  }
}
