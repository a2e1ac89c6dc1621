/** Network byte order integers, as struct packs and unpacks them. */
module Bytes {

  type Byte = b: int | 0 <= b < 256

  const TWO_TO_31 := 0x8000_0000
  const TWO_TO_32 := 0x1_0000_0000

  predicate IsUnsigned32(v: int) {
    0 <= v < TWO_TO_32
  }

  predicate IsInt32(v: int) {
    -TWO_TO_31 <= v < TWO_TO_31
  }

  function PutUnsigned(v: int): (s: seq<Byte>)
    requires IsUnsigned32(v)
    ensures |s| == 4
  {
    [LowByte(v / 0x100_0000), LowByte(v / 0x1_0000), LowByte(v / 256), LowByte(v)]
  }

  function LowByte(v: int): Byte {
    v % 256
  }

  function GetUnsigned(s: seq<Byte>): (v: int)
    requires |s| == 4
    ensures IsUnsigned32(v)
  {
    var a: int, b: int, c: int, d: int := s[0], s[1], s[2], s[3];
    a * 0x100_0000 + b * 0x1_0000 + c * 256 + d
  }

  lemma {:induction false} GetPutUnsigned(v: int)
    requires IsUnsigned32(v)
    ensures GetUnsigned(PutUnsigned(v)) == v
  {
    assert v / 0x1_0000 == v / 0x100_0000 * 256 + v / 0x1_0000 % 256;
    assert v / 256 == v / 0x1_0000 * 256 + v / 256 % 256;
  }

  lemma {:induction false} PutGetUnsigned(s: seq<Byte>)
    requires |s| == 4
    ensures PutUnsigned(GetUnsigned(s)) == s
  {
    var v := GetUnsigned(s);
    var a: int, b: int, c: int := s[0], s[1], s[2];
    assert v / 256 == a * 0x1_0000 + b * 256 + c;
    assert v / 0x1_0000 == a * 256 + b;
    assert v / 0x100_0000 == s[0];
  }

  /** Two's complement. */
  function PutInt32(v: int): (s: seq<Byte>)
    requires IsInt32(v)
    ensures |s| == 4
  {
    PutUnsigned(if v < 0 then v + TWO_TO_32 else v)
  }

  function GetInt32(s: seq<Byte>): (v: int)
    requires |s| == 4
    ensures IsInt32(v)
  {
    var u := GetUnsigned(s);
    if u >= TWO_TO_31 then u - TWO_TO_32 else u
  }

  lemma {:induction false} Int32RoundTrip(v: int, s: seq<Byte>)
    requires IsInt32(v) && |s| == 4
    ensures GetInt32(PutInt32(v)) == v
    ensures PutInt32(GetInt32(s)) == s
  {
    GetPutUnsigned(if v < 0 then v + TWO_TO_32 else v);
    PutGetUnsigned(s);
  }

  function PackAll(values: seq<int>): (s: seq<Byte>)
    requires forall i | 0 <= i < |values| :: IsInt32(values[i])
    ensures |s| == 4 * |values|
  {
    if values == [] then [] else PutInt32(values[0]) + PackAll(values[1..])
  }

  function UnpackAll(s: seq<Byte>): (values: seq<int>)
    requires |s| % 4 == 0
    ensures |values| == |s| / 4
    ensures forall i | 0 <= i < |values| :: IsInt32(values[i])
  {
    if s == [] then [] else [GetInt32(s[..4])] + UnpackAll(s[4..])
  }

  lemma {:induction false} UnpackPacked(values: seq<int>)
    requires forall i | 0 <= i < |values| :: IsInt32(values[i])
    ensures UnpackAll(PackAll(values)) == values
  {
    if values != [] {
      var s := PackAll(values);
      UnpackPacked(values[1..]);
      assert s[..4] == PutInt32(values[0]) && s[4..] == PackAll(values[1..]);
      Int32RoundTrip(values[0], s[..4]);
    }
  }

  lemma {:induction false} PackUnpacked(s: seq<Byte>)
    requires |s| % 4 == 0
    ensures PackAll(UnpackAll(s)) == s
  {
    if s != [] {
      PackUnpacked(s[4..]);
      assert UnpackAll(s)[1..] == UnpackAll(s[4..]);
      Int32RoundTrip(0, s[..4]);
      assert s == s[..4] + s[4..];
    }
  }

  /** The first two integers depend only on the first eight bytes. */
  lemma {:induction false} UnpackFront(s: seq<Byte>)
    requires |s| % 4 == 0 && |s| >= 8
    ensures UnpackAll(s)[0] == GetInt32(s[..4]) && UnpackAll(s)[1] == GetInt32(s[4..8])
  {
    hide GetInt32;
    assert s[4..][..4] == s[4..8];
    assert UnpackAll(s) == [GetInt32(s[..4])] + UnpackAll(s[4..]);
  }

  function Flatten(parts: seq<seq<Byte>>): seq<Byte> {
    if parts == [] then [] else parts[0] + Flatten(parts[1..])
  }
}
