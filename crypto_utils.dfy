/**
 * Placeholder wallet addresses and their validation (utils/cryptoUtils.js).
 * `Math.random()` is the stream `random(0), random(1), …` of draws in [0, 1).
 */
module CryptoUtils {
  import opened JsValues
  import opened JsStrings
  import opened Regex

  const UpperLetters := "ABCDEFGHIJKLMNOPQRSTUVWXYZ"
  const LowerLetters := "abcdefghijklmnopqrstuvwxyz"
  const Digits := "0123456789"
  /** `ABCDEFGHIJKLMNOPQRSTUVWXYZabcdefghijklmnopqrstuvwxyz0123456789` */
  const BtcAlphabet := UpperLetters + LowerLetters + Digits
  /** `0123456789abcdef` */
  const HexAlphabet := Digits + "abcdef"

  const AlnumClass := [Range('a', 'z'), Range('A', 'Z'), Range('0', '9')]
  const HexClass := [Range('a', 'f'), Range('A', 'F'), Range('0', '9')]

  /** `/^(1|3|bc1)[a-zA-Z0-9]{25,62}$/` */
  const BtcPattern := [Alt(["1", "3", "bc1"]), Repeat(AlnumClass, 25, 62)]

  /** `/^0x[a-fA-F0-9]{40}$/` */
  const EthPattern := [Alt(["0x"]), Repeat(HexClass, 40, 40)]

  /** The crypto types each `switch` groups together, after `toLowerCase()`. */
  const BtcNames := {"bitcoin", "btc"}
  const EthNames := {"ethereum", "eth", "polygon", "binance", "bnb"}

  // ---------------------------------------------------------------------------
  // Random strings

  /** Every draw of `Math.random()` lies in [0, 1). */
  ghost predicate UnitDraws(random: nat -> real) {
    forall i: nat :: 0.0 <= random(i) < 1.0
  }

  /** `Math.floor(draw * n)` */
  function DrawIndex(draw: real, n: nat): int {
    (draw * n as real).Floor
  }

  lemma DrawIndexInRange(draw: real, n: nat)
    requires 0.0 <= draw < 1.0 && n > 0
    ensures 0 <= DrawIndex(draw, n) < n
  {
    assert draw * n as real < 1.0 * n as real;
    assert 0.0 <= draw * n as real;
  }

  /** `chars.charAt(i)`: the character at `i`, or the empty string when `i` is out of range. */
  function CharAt(chars: string, i: int): string {
    if 0 <= i < |chars| then [chars[i]] else ""
  }

  /** What `generateRandomString(length, chars)` returns for the draws `random`. */
  function RandomString(length: nat, chars: string, random: nat -> real): (r: string)
    ensures |r| <= length
    ensures forall i :: 0 <= i < |r| ==> r[i] in chars
  {
    if length == 0 then ""
    else RandomString(length - 1, chars, random) + CharAt(chars, DrawIndex(random(length - 1), |chars|))
  }

  /**
   * With draws in [0, 1) the string has exactly `length` characters, the k-th
   * being `chars[floor(random(k) * |chars|)]`; with no characters to draw
   * from, `charAt` yields "" every time and the result is empty.
   */
  lemma {:induction false} RandomStringShape(length: nat, chars: string, random: nat -> real)
    requires UnitDraws(random)
    ensures chars == "" ==> RandomString(length, chars, random) == ""
    ensures chars != "" ==>
      && |RandomString(length, chars, random)| == length
      && forall k :: 0 <= k < length ==>
           0 <= DrawIndex(random(k), |chars|) < |chars| &&
           RandomString(length, chars, random)[k] == chars[DrawIndex(random(k), |chars|)]
  {
    if length > 0 {
      RandomStringShape(length - 1, chars, random);
      if chars != "" {
        DrawIndexInRange(random(length - 1), |chars|);
        forall k | 0 <= k < length - 1 ensures 0 <= DrawIndex(random(k), |chars|) < |chars| {
          DrawIndexInRange(random(k), |chars|);
        }
      }
    }
  }

  /** `generateRandomString(length, chars)`: appends one drawn character per iteration. */
  method GenerateRandomString(length: nat, chars: string, random: nat -> real) returns (result: string)
    requires UnitDraws(random)
    ensures result == RandomString(length, chars, random)
    ensures chars != "" ==> |result| == length && forall k :: 0 <= k < |result| ==> result[k] in chars
    ensures chars == "" ==> result == ""
  {
    result := "";
    var i := 0;
    while i < length
      invariant 0 <= i <= length
      invariant result == RandomString(i, chars, random)
    {
      result := result + CharAt(chars, DrawIndex(random(i), |chars|));
      i := i + 1;
    }
    RandomStringShape(length, chars, random);
  }

  // ---------------------------------------------------------------------------
  // Generation and validation

  /** `generateWalletAddress(cryptoType)` */
  function GenerateWalletAddress(cryptoType: string, random: nat -> real): (a: string)
    ensures ToLower(cryptoType) in BtcNames ==> |a| >= 1 && a[0] == '1'
    ensures ToLower(cryptoType) !in BtcNames ==> |a| >= 2 && a[..2] == "0x"
  {
    match ToLower(cryptoType)
    case "bitcoin" | "btc" => "1" + RandomString(25, BtcAlphabet, random)
    case "ethereum" | "eth" => "0x" + RandomString(40, HexAlphabet, random)
    case "polygon" => "0x" + RandomString(40, HexAlphabet, random)
    case "binance" | "bnb" => "0x" + RandomString(40, HexAlphabet, random)
    case _ => "0x" + RandomString(40, HexAlphabet, random)
  }

  /** `validateWalletAddress(address, cryptoType)` */
  function ValidateWalletAddress(address: Value, cryptoType: string): (ok: bool)
    ensures ok ==> address.Str? && address.s != ""
    ensures ok ==> ToLower(cryptoType) in BtcNames + EthNames
  {
    if !Truthy(address) || !address.Str? then false
    else
      match ToLower(cryptoType)
      case "bitcoin" | "btc" => Test(BtcPattern, address.s)
      case "ethereum" | "eth" | "polygon" | "binance" | "bnb" => Test(EthPattern, address.s)
      case _ => false
  }

  // ---------------------------------------------------------------------------
  // The address formats, stated without the regular expressions

  predicate IsAsciiAlnum(c: char) {
    'a' <= c <= 'z' || 'A' <= c <= 'Z' || '0' <= c <= '9'
  }

  predicate IsHexDigit(c: char) {
    '0' <= c <= '9' || 'a' <= c <= 'f' || 'A' <= c <= 'F'
  }

  /** `0x` and then exactly 40 hex digits of either case. */
  predicate IsEthAddress(a: string) {
    |a| == 42 && a[0] == '0' && a[1] == 'x' && forall i :: 2 <= i < 42 ==> IsHexDigit(a[i])
  }

  /** `1`, `3` or `bc1`, and then 25 to 62 ASCII letters and digits. */
  predicate IsBtcAddress(a: string) {
    || (|a| >= 1 && (a[0] == '1' || a[0] == '3') && 26 <= |a| <= 63
        && forall i :: 1 <= i < |a| ==> IsAsciiAlnum(a[i]))
    || (|a| >= 3 && a[0] == 'b' && a[1] == 'c' && a[2] == '1' && 28 <= |a| <= 65
        && forall i :: 3 <= i < |a| ==> IsAsciiAlnum(a[i]))
  }

  lemma InAlnumClass(c: char)
    ensures InClass(c, AlnumClass) <==> IsAsciiAlnum(c)
  {
    if 'a' <= c <= 'z' { assert AlnumClass[0].lo <= c <= AlnumClass[0].hi; }
    else if 'A' <= c <= 'Z' { assert AlnumClass[1].lo <= c <= AlnumClass[1].hi; }
    else if '0' <= c <= '9' { assert AlnumClass[2].lo <= c <= AlnumClass[2].hi; }
  }

  lemma InHexClass(c: char)
    ensures InClass(c, HexClass) <==> IsHexDigit(c)
  {
    if 'a' <= c <= 'f' { assert HexClass[0].lo <= c <= HexClass[0].hi; }
    else if 'A' <= c <= 'F' { assert HexClass[1].lo <= c <= HexClass[1].hi; }
    else if '0' <= c <= '9' { assert HexClass[2].lo <= c <= HexClass[2].hi; }
  }

  /** A final repeated class matches exactly the strings of an allowed length made of that class. */
  lemma TestLastRepeat(cls: seq<Range>, min: nat, max: nat, u: string)
    ensures Test([Repeat(cls, min, max)], u) <==> min <= |u| <= max && AllInClass(u, cls)
  {
    var p := [Repeat(cls, min, max)];
    assert p[1..] == [];
    if min <= |u| <= max && AllInClass(u, cls) {
      assert u[..|u|] == u && u[|u|..] == [];
      assert Test(p[1..], u[|u|..]);
    }
    if Test(p, u) {
      var n :| min <= n <= max && n <= |u| && AllInClass(u[..n], cls) && Test(p[1..], u[n..]);
      assert u[n..] == [];
      assert u[..n] == u;
    }
  }

  lemma {:induction false} EthPatternExactly(s: string)
    ensures Test(EthPattern, s) <==> IsEthAddress(s)
  {
    var rest := [Repeat(HexClass, 40, 40)];
    var opts := ["0x"];
    assert EthPattern[1..] == rest;
    forall c { InHexClass(c); }
    if |s| >= 2 {
      TestLastRepeat(HexClass, 40, 40, s[2..]);
      assert forall i :: 2 <= i < |s| ==> s[i] == s[2..][i - 2];
    }
    if IsEthAddress(s) {
      assert s[..2] == "0x";
      assert StartsWith(s, opts[0]) && Test(rest, s[|opts[0]|..]);
    }
    if Test(EthPattern, s) {
      var k :| 0 <= k < 1 && StartsWith(s, opts[k]) && Test(rest, s[|opts[k]|..]);
      assert s[..2] == "0x";
    }
  }

  /** After position `j`, the bitcoin pattern's counted class matches exactly 25 to 62 alphanumerics. */
  lemma AlnumTail(s: string, j: nat)
    requires j <= |s|
    ensures Test([Repeat(AlnumClass, 25, 62)], s[j..]) <==>
      j + 25 <= |s| <= j + 62 && forall i :: j <= i < |s| ==> IsAsciiAlnum(s[i])
  {
    TestLastRepeat(AlnumClass, 25, 62, s[j..]);
    forall c { InAlnumClass(c); }
    assert forall i :: j <= i < |s| ==> s[i] == s[j..][i - j];
  }

  /** The alternation `(1|3|bc1)` tried option by option. */
  lemma BtcAlternatives(s: string)
    ensures Test(BtcPattern, s) <==>
      || (StartsWith(s, "1") && Test([Repeat(AlnumClass, 25, 62)], s[1..]))
      || (StartsWith(s, "3") && Test([Repeat(AlnumClass, 25, 62)], s[1..]))
      || (StartsWith(s, "bc1") && Test([Repeat(AlnumClass, 25, 62)], s[3..]))
  {
    var opts := ["1", "3", "bc1"];
    assert BtcPattern[0] == Alt(opts);
    assert BtcPattern[1..] == [Repeat(AlnumClass, 25, 62)];
    assert |opts[0]| == 1 && |opts[1]| == 1 && |opts[2]| == 3;
  }

  lemma {:induction false} BtcPatternExactly(s: string)
    ensures Test(BtcPattern, s) <==> IsBtcAddress(s)
  {
    BtcAlternatives(s);
    if |s| >= 1 {
      AlnumTail(s, 1);
      assert StartsWith(s, "1") <==> s[0] == '1';
      assert StartsWith(s, "3") <==> s[0] == '3';
    }
    if |s| >= 3 {
      AlnumTail(s, 3);
      assert StartsWith(s, "bc1") <==> s[0] == 'b' && s[1] == 'c' && s[2] == '1';
    }
  }

  // ---------------------------------------------------------------------------
  // Properties of validation and generation

  /** A falsy or non-string address is rejected whatever the crypto type. */
  lemma RejectsNonString(address: Value, cryptoType: string)
    requires !Truthy(address) || !address.Str?
    ensures !ValidateWalletAddress(address, cryptoType)
  {
  }

  /** For the Ethereum-style types an address is valid iff it is `0x` and 40 hex digits. */
  lemma EthFamilyValidIff(address: string, cryptoType: string)
    requires ToLower(cryptoType) in EthNames
    ensures ValidateWalletAddress(Str(address), cryptoType) <==> IsEthAddress(address)
  {
    EthPatternExactly(address);
  }

  /** For bitcoin/btc an address is valid iff it is `1`, `3` or `bc1` and 25 to 62 alphanumerics. */
  lemma BtcFamilyValidIff(address: string, cryptoType: string)
    requires ToLower(cryptoType) in BtcNames
    ensures ValidateWalletAddress(Str(address), cryptoType) <==> IsBtcAddress(address)
  {
    BtcPatternExactly(address);
  }

  /** A crypto type outside both families rejects every address. */
  lemma UnknownTypeRejected(address: Value, cryptoType: string)
    requires ToLower(cryptoType) !in BtcNames + EthNames
    ensures !ValidateWalletAddress(address, cryptoType)
  {
  }

  /** Both functions see the crypto type only through `toLowerCase()`. */
  lemma CaseInsensitive(address: Value, cryptoType: string, random: nat -> real)
    ensures ValidateWalletAddress(address, cryptoType) == ValidateWalletAddress(address, ToLower(cryptoType))
    ensures GenerateWalletAddress(cryptoType, random) == GenerateWalletAddress(ToLower(cryptoType), random)
  {
    ToLowerIdempotent(cryptoType);
  }

  lemma AlphabetPartsAlnum()
    ensures forall c :: c in UpperLetters ==> IsAsciiAlnum(c)
    ensures forall c :: c in LowerLetters ==> IsAsciiAlnum(c)
    ensures forall c :: c in Digits ==> IsAsciiAlnum(c)
  {
  }

  lemma ConcatAlnum(a: string, b: string, c: string)
    requires forall x :: x in a ==> IsAsciiAlnum(x)
    requires forall x :: x in b ==> IsAsciiAlnum(x)
    requires forall x :: x in c ==> IsAsciiAlnum(x)
    ensures forall x :: x in a + b + c ==> IsAsciiAlnum(x)
  {
  }

  lemma BtcAlphabetAlnum()
    ensures forall c :: c in BtcAlphabet ==> IsAsciiAlnum(c)
  {
    AlphabetPartsAlnum();
    ConcatAlnum(UpperLetters, LowerLetters, Digits);
  }

  lemma HexAlphabetHex()
    ensures forall c :: c in HexAlphabet ==> IsHexDigit(c)
  {
  }

  /** `0x` and 40 characters of the hex alphabet make an Ethereum address. */
  lemma HexShaped(r: string)
    requires |r| == 40 && forall k :: 0 <= k < |r| ==> r[k] in HexAlphabet
    ensures IsEthAddress("0x" + r)
  {
    HexAlphabetHex();
    var a := "0x" + r;
    forall i | 2 <= i < 42 ensures IsHexDigit(a[i]) {
      assert a[i] == r[i - 2];
    }
  }

  /** `1` and 25 characters of the bitcoin alphabet make a bitcoin address. */
  lemma AlnumShaped(r: string)
    requires |r| == 25 && forall k :: 0 <= k < |r| ==> r[k] in BtcAlphabet
    ensures IsBtcAddress("1" + r)
  {
    BtcAlphabetAlnum();
    var a := "1" + r;
    forall i | 1 <= i < |a| ensures IsAsciiAlnum(a[i]) {
      assert a[i] == r[i - 1];
    }
  }

  /** The shape of every Ethereum-style address generation produces. */
  lemma EthStyleGenerated(random: nat -> real)
    requires UnitDraws(random)
    ensures IsEthAddress("0x" + RandomString(40, HexAlphabet, random))
  {
    RandomStringShape(40, HexAlphabet, random);
    HexShaped(RandomString(40, HexAlphabet, random));
  }

  /** Generation makes a bitcoin-style address for the bitcoin names and an Ethereum-style one for every other type. */
  lemma GenerateByFamily(cryptoType: string, random: nat -> real)
    ensures ToLower(cryptoType) in BtcNames ==>
      GenerateWalletAddress(cryptoType, random) == "1" + RandomString(25, BtcAlphabet, random)
    ensures ToLower(cryptoType) !in BtcNames ==>
      GenerateWalletAddress(cryptoType, random) == "0x" + RandomString(40, HexAlphabet, random)
  {
  }

  /** The shape of every bitcoin address generation produces. */
  lemma BtcGenerated(random: nat -> real)
    requires UnitDraws(random)
    ensures IsBtcAddress("1" + RandomString(25, BtcAlphabet, random))
  {
    RandomStringShape(25, BtcAlphabet, random);
    AlnumShaped(RandomString(25, BtcAlphabet, random));
  }

  /** Round trip: a generated address passes validation for the same crypto type. */
  lemma GeneratedAddressValidates(cryptoType: string, random: nat -> real)
    requires UnitDraws(random)
    requires ToLower(cryptoType) in BtcNames + EthNames
    ensures ValidateWalletAddress(Str(GenerateWalletAddress(cryptoType, random)), cryptoType)
  {
    var a := GenerateWalletAddress(cryptoType, random);
    GenerateByFamily(cryptoType, random);
    if ToLower(cryptoType) in BtcNames {
      BtcGenerated(random);
      BtcFamilyValidIff(a, cryptoType);
    } else {
      EthStyleGenerated(random);
      EthFamilyValidIff(a, cryptoType);
    }
  }

  /** For an unknown crypto type generation falls back to an Ethereum-style address that validation then rejects. */
  lemma UnknownTypeAsymmetry(cryptoType: string, random: nat -> real)
    requires UnitDraws(random)
    requires ToLower(cryptoType) !in BtcNames + EthNames
    ensures IsEthAddress(GenerateWalletAddress(cryptoType, random))
    ensures !ValidateWalletAddress(Str(GenerateWalletAddress(cryptoType, random)), cryptoType)
  {
    GenerateByFamily(cryptoType, random);
    EthStyleGenerated(random);
  }
}
