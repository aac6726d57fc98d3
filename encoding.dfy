/**
 * The two textual encodings the core produces: `Buffer#toString('hex')`
 * (two lower-case hex digits per byte) and `Number#toString(36)` on a
 * non-negative integer (the clock value in generated IDs). Each comes with
 * its decoder and the round trip between them.
 */
module Encoding {

  newtype byte = x: int | 0 <= x < 256

  /** The lower-case digit for `d` in base 16 or 36. */
  function Digit(d: nat): char
    requires d < 36
  {
    if d < 10 then ('0' as int + d) as char else ('a' as int + d - 10) as char
  }

  function DigitValue(c: char): (d: int)
    ensures IsBase36Digit(c) ==> 0 <= d < 36
    ensures IsLowerHex(c) ==> 0 <= d < 16
  {
    if '0' <= c <= '9' then c as int - '0' as int
    else if 'a' <= c <= 'z' then c as int - 'a' as int + 10
    else -1
  }

  predicate IsLowerHex(c: char) {
    '0' <= c <= '9' || 'a' <= c <= 'f'
  }

  predicate IsBase36Digit(c: char) {
    '0' <= c <= '9' || 'a' <= c <= 'z'
  }

  lemma DigitValueOfDigit(d: nat)
    requires d < 36
    ensures DigitValue(Digit(d)) == d
    ensures IsBase36Digit(Digit(d))
    ensures d < 16 ==> IsLowerHex(Digit(d))
  {
  }

  /** `Buffer.from(bytes).toString('hex')`. */
  function Hex(bytes: seq<byte>): (r: string)
    ensures |r| == 2 * |bytes|
    ensures forall i :: 0 <= i < |r| ==> IsLowerHex(r[i])
  {
    if bytes == [] then ""
    else
      var b := bytes[0] as int;
      DigitValueOfDigit(b / 16);
      DigitValueOfDigit(b % 16);
      [Digit(b / 16), Digit(b % 16)] + Hex(bytes[1..])
  }

  /** Reads pairs of hex digits back into bytes. */
  function Unhex(s: string): seq<byte>
    requires |s| % 2 == 0
    requires forall i :: 0 <= i < |s| ==> IsLowerHex(s[i])
  {
    if s == [] then []
    else [(16 * DigitValue(s[0]) + DigitValue(s[1])) as byte] + Unhex(s[2..])
  }

  lemma {:induction false} HexRoundTrip(bytes: seq<byte>)
    ensures Unhex(Hex(bytes)) == bytes
  {
    if bytes != [] {
      var b := bytes[0] as int;
      DigitValueOfDigit(b / 16);
      DigitValueOfDigit(b % 16);
      HexRoundTrip(bytes[1..]);
      assert Hex(bytes)[2..] == Hex(bytes[1..]);
    }
  }

  /** `n.toString(36)` for a non-negative integer: no leading zero, "0" for zero. */
  function ToBase36(n: nat): (r: string)
    ensures |r| >= 1
    ensures forall i :: 0 <= i < |r| ==> IsBase36Digit(r[i])
    ensures n > 0 ==> r[0] != '0'
    decreases n
  {
    DigitValueOfDigit(n % 36);
    if n < 36 then [Digit(n)] else ToBase36(n / 36) + [Digit(n % 36)]
  }

  /** `parseInt(s, 36)` on a string of base-36 digits. */
  function FromBase36(s: string): nat
    requires forall i :: 0 <= i < |s| ==> IsBase36Digit(s[i])
  {
    if s == [] then 0
    else FromBase36(s[..|s| - 1]) * 36 + DigitValue(s[|s| - 1])
  }

  lemma {:induction false} Base36RoundTrip(n: nat)
    ensures FromBase36(ToBase36(n)) == n
    decreases n
  {
    DigitValueOfDigit(n % 36);
    if n >= 36 {
      Base36RoundTrip(n / 36);
      var r := ToBase36(n);
      assert r[..|r| - 1] == ToBase36(n / 36);
    }
  }
}
