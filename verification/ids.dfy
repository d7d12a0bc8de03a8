/**
 * Document identifiers. A user id travels as text; the handlers turn it into a BSON ObjectId
 * (`ObjectId(s)`) or keep it as a string, and a stored `user_id` is one or the other.
 */
module Ids {

  predicate IsHexDigit(c: char)
  {
    '0' <= c <= '9' || 'a' <= c <= 'f' || 'A' <= c <= 'F'
  }

  /** `ObjectId.is_valid(s)` for a string: exactly 24 hexadecimal digits. */
  predicate IsValidObjectId(s: string)
  {
    |s| == 24 && forall i :: 0 <= i < |s| ==> IsHexDigit(s[i])
  }

  function LowerHex(c: char): char
  {
    if 'A' <= c <= 'F' then (c as int + 32) as char else c
  }

  /** `str(ObjectId(s))`: the same 12 bytes, spelled in lower case. */
  function Canonical(s: string): (r: string)
    requires IsValidObjectId(s)
    ensures IsValidObjectId(r)
    ensures forall i :: 0 <= i < |r| ==> !('A' <= r[i] <= 'F') && r[i] == LowerHex(s[i])
  {
    seq(24, i requires 0 <= i < 24 => LowerHex(s[i]))
  }

  /** A stored `user_id` value: a BSON ObjectId or a plain string. The two never compare equal. */
  datatype Key = Oid(hex: string) | Str(text: string)

  /** The key a filter `{"user_id": ObjectId(s)}` matches. */
  function ObjectIdKey(s: string): (k: Key)
    requires IsValidObjectId(s)
    ensures k.Oid? && IsValidObjectId(k.hex)
  {
    Oid(Canonical(s))
  }
}
