/**
 * BSON ObjectIds: twelve bytes, rendered by `ObjectId::to_hex` as 24
 * lower-case hexadecimal digits and read back by `ObjectId::parse_str`,
 * which accepts exactly 24 hexadecimal digits of either case.
 * `string_id_to_obj_id` is `parse_str(..).ok()`.
 */
module ObjectIds {
  import opened Wrappers

  newtype Byte = x: int | 0 <= x < 256

  type ObjectId = s: seq<Byte> | |s| == 12 witness seq(12, _ => 0)

  predicate IsHexDigit(c: char) {
    ('0' <= c <= '9') || ('a' <= c <= 'f') || ('A' <= c <= 'F')
  }

  function HexDigit(n: nat): (c: char)
    requires n < 16
    ensures IsHexDigit(c) && !('A' <= c <= 'F')
  {
    "0123456789abcdef"[n]
  }

  function HexValue(c: char): (n: nat)
    requires IsHexDigit(c)
    ensures n < 16
  {
    if '0' <= c <= '9' then (c - '0') as nat
    else if 'a' <= c <= 'f' then (c - 'a') as nat + 10
    else (c - 'A') as nat + 10
  }

  lemma HexValueOfDigit(n: nat)
    requires n < 16
    ensures HexValue(HexDigit(n)) == n
  {
  }

  /** Two lower-case hex digits per byte, most significant first. */
  function HexOfBytes(b: seq<Byte>): (s: string)
    ensures |s| == 2 * |b|
    ensures forall i :: 0 <= i < |s| ==> IsHexDigit(s[i])
  {
    if b == [] then "" else [HexDigit(b[0] as nat / 16), HexDigit(b[0] as nat % 16)] + HexOfBytes(b[1..])
  }

  /** Reads pairs of hex digits; None as soon as a character is not a hex digit. */
  function BytesOfHex(s: string): (r: Option<seq<Byte>>)
    requires |s| % 2 == 0
    ensures r.Some? <==> forall i :: 0 <= i < |s| ==> IsHexDigit(s[i])
    ensures r.Some? ==> 2 * |r.value| == |s|
  {
    if s == [] then Some([])
    else if !IsHexDigit(s[0]) || !IsHexDigit(s[1]) then None
    else match BytesOfHex(s[2..])
      case None => None
      case Some(rest) => Some([(HexValue(s[0]) * 16 + HexValue(s[1])) as Byte] + rest)
  }

  /** `ObjectId::to_hex` */
  function ToHex(id: ObjectId): (s: string)
    ensures |s| == 24
  {
    HexOfBytes(id)
  }

  /** `string_id_to_obj_id`: Some exactly for strings of 24 hexadecimal digits. */
  function ParseObjectId(s: string): (r: Option<ObjectId>)
    ensures r.Some? <==> |s| == 24 && forall i :: 0 <= i < |s| ==> IsHexDigit(s[i])
  {
    if |s| != 24 then None
    else match BytesOfHex(s)
      case None => None
      case Some(b) => Some(b)
  }

  lemma {:induction false} BytesOfHexOfBytes(b: seq<Byte>)
    ensures BytesOfHex(HexOfBytes(b)) == Some(b)
  {
    if b != [] {
      var s := HexOfBytes(b);
      var hi, lo := b[0] as nat / 16, b[0] as nat % 16;
      HexValueOfDigit(hi);
      HexValueOfDigit(lo);
      assert s[0] == HexDigit(hi) && s[1] == HexDigit(lo);
      assert s[2..] == HexOfBytes(b[1..]);
      BytesOfHexOfBytes(b[1..]);
      assert hi * 16 + lo == b[0] as nat;
      assert [b[0]] + b[1..] == b;
    }
  }

  /** An id printed with `to_hex` parses back to the same id. */
  lemma ParseToHex(id: ObjectId)
    ensures ParseObjectId(ToHex(id)) == Some(id)
  {
    BytesOfHexOfBytes(id);
  }

  lemma ParseToHexEvery()
    ensures forall id: ObjectId :: ParseObjectId(ToHex(id)) == Some(id)
  {
    forall id: ObjectId ensures ParseObjectId(ToHex(id)) == Some(id) {
      ParseToHex(id);
    }
  }

  /** Two ids with the same hex rendering are the same id. */
  lemma ToHexInjective(a: ObjectId, b: ObjectId)
    ensures ToHex(a) == ToHex(b) ==> a == b
  {
    ParseToHex(a);
    ParseToHex(b);
  }
}
