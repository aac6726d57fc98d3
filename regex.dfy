/**
 * The fragment of JavaScript regular expressions used by the wallet-address
 * checks: an anchored pattern `^…$` that is a sequence of pieces, each
 * either a group of literal alternatives `(a|b|c)` or a character class
 * repeated between `min` and `max` times, `[a-zA-Z0-9]{min,max}`.
 * `Test` says whether `pattern.test(s)` succeeds: some way of cutting `s`
 * matches the pieces in order, which is what backtracking finds.
 */
module Regex {
  import opened JsStrings

  datatype Range = Range(lo: char, hi: char)

  datatype Piece =
    | Alt(options: seq<string>)
    | Repeat(cls: seq<Range>, min: nat, max: nat)

  predicate InClass(c: char, cls: seq<Range>) {
    exists i :: 0 <= i < |cls| && cls[i].lo <= c <= cls[i].hi
  }

  predicate AllInClass(s: string, cls: seq<Range>) {
    forall i :: 0 <= i < |s| ==> InClass(s[i], cls)
  }

  /** `/^pattern$/.test(s)` */
  predicate Test(pattern: seq<Piece>, s: string)
    decreases |pattern|
  {
    if pattern == [] then s == []
    else match pattern[0]
      case Alt(options) =>
        exists k :: 0 <= k < |options| && StartsWith(s, options[k]) && Test(pattern[1..], s[|options[k]|..])
      case Repeat(cls, min, max) =>
        exists n :: min <= n <= max && n <= |s| && AllInClass(s[..n], cls) && Test(pattern[1..], s[n..])
  }
}
