/**
 * Prefixed identifiers (utils/idGenerator.js): `<prefix>_<clock in base 36><9 hex digits>`.
 * The clock (`Date.now()`) and the nine random bytes are parameters.
 */
module IdGenerator {
  import opened JsValues
  import opened JsStrings
  import opened Encoding

  /** `generateId(prefix)`: the first 9 of the 18 hex digits of the random bytes follow the timestamp. */
  function GenerateId(prefix: string, now: nat, random: seq<byte>): (id: string)
    requires |random| == 9
    ensures StartsWith(id, prefix + "_")
    ensures |id| == |prefix| + 1 + |ToBase36(now)| + 9
    ensures id[|prefix| + 1 .. |id| - 9] == ToBase36(now)
    ensures forall i :: |id| - 9 <= i < |id| ==> IsLowerHex(id[i])
  {
    var id := prefix + "_" + ToBase36(now) + Hex(random)[..9];
    assert forall i :: |id| - 9 <= i < |id| ==> id[i] == Hex(random)[i - (|id| - 9)];
    id
  }

  /** `validateId(id, prefix)`: a non-empty string that starts with `prefix_`. */
  function ValidateId(id: Value, prefix: string): (ok: bool)
    ensures ok <==> id.Str? && StartsWith(id.s, prefix + "_")
  {
    if !Truthy(id) || !id.Str? then false
    else StartsWith(id.s, prefix + "_")
  }

  /** Everything after the prefix is left unchecked. */
  lemma ValidateIdIgnoresRest(prefix: string, rest: string)
    ensures ValidateId(Str(prefix + "_" + rest), prefix)
  {
    assert (prefix + "_" + rest)[..|prefix| + 1] == prefix + "_";
  }

  /** A generated id validates for its own prefix. */
  lemma GeneratedIdValidates(prefix: string, now: nat, random: seq<byte>)
    requires |random| == 9
    ensures ValidateId(Str(GenerateId(prefix, now, random)), prefix)
  {
  }

  /** The clock value can be read back from a generated id: the text between `prefix_` and the last nine characters. */
  lemma {:induction false} GeneratedIdTimestamp(prefix: string, now: nat, random: seq<byte>)
    requires |random| == 9
    ensures var id := GenerateId(prefix, now, random);
      var stamp := id[|prefix| + 1 .. |id| - 9];
      (forall i :: 0 <= i < |stamp| ==> IsBase36Digit(stamp[i])) && FromBase36(stamp) == now
  {
    Base36RoundTrip(now);
  }
}
