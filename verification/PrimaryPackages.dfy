/** The Primary-interface state packet of app/robot_rtde.py: a header and length-prefixed packages by type. */
module PrimaryPackages {
  import opened Outcomes
  import opened Bytes

  const HEADER_BYTES := 5
  const STATE_MESSAGE := 16

  datatype Package = Package(kind: Byte, content: seq<Byte>)

  datatype PacketError = NotAState | Malformed | Truncated

  /** Four bytes of size, one of type, then the content. */
  function Encode(p: Package): seq<Byte>
    requires Encodable(p)
  {
    PutUnsigned(|p.content| + 5) + [p.kind] + p.content
  }

  predicate Encodable(p: Package) {
    IsUnsigned32(|p.content| + 5)
  }

  predicate AllEncodable(ps: seq<Package>) {
    forall i | 0 <= i < |ps| :: Encodable(ps[i])
  }

  function EncodeAll(ps: seq<Package>): seq<Byte>
    requires AllEncodable(ps)
  {
    if ps == [] then [] else Encode(ps[0]) + EncodeAll(ps[1..])
  }

  /** The contents by type; of packages of the same type the last. */
  function ByType(ps: seq<Package>): map<Byte, seq<Byte>> {
    if ps == [] then map[] else
      var n := |ps| - 1;
      ByType(ps[..n])[ps[n].kind := ps[n].content]
  }

  predicate IsLastOf(ps: seq<Package>, kind: Byte, i: nat) {
    i < |ps| && ps[i].kind == kind && forall j | i < j < |ps| :: ps[j].kind != kind
  }

  /** Each type present has the content of the last package of that type, and no other type is present. */
  lemma {:induction false} ByTypeKeepsTheLast(ps: seq<Package>)
    ensures forall i: nat, kind :: IsLastOf(ps, kind, i) ==> kind in ByType(ps) && ByType(ps)[kind] == ps[i].content
    ensures forall kind :: kind in ByType(ps) ==> exists i: nat :: IsLastOf(ps, kind, i)
    decreases |ps|
  {
    if ps != [] {
      var n := |ps| - 1;
      var fewer := ps[..n];
      ByTypeKeepsTheLast(fewer);
      forall i: nat, kind | IsLastOf(ps, kind, i)
        ensures kind in ByType(ps) && ByType(ps)[kind] == ps[i].content
      {
        assert i < n ==> IsLastOf(fewer, kind, i);
      }
      forall kind | kind in ByType(ps)
        ensures exists i: nat :: IsLastOf(ps, kind, i)
      {
        if kind == ps[n].kind {
          assert IsLastOf(ps, kind, n);
        } else {
          assert kind in ByType(fewer);
          var i: nat :| IsLastOf(fewer, kind, i);
          assert IsLastOf(ps, kind, i);
        }
      }
    }
  }

  function SizeAt(packet: seq<Byte>, offset: nat): int
    requires offset + 5 <= |packet|
  {
    GetUnsigned(packet[offset..offset + 4])
  }

  /** The packages from an offset on, if they fill the packet exactly. */
  function Tiles(packet: seq<Byte>, offset: nat): Result<seq<Package>, PacketError>
    requires offset <= |packet|
    decreases |packet| - offset
  {
    if offset + 5 > |packet| then if offset == |packet| then Success([]) else Failure(Truncated)
    else
      var size := SizeAt(packet, offset);
      if size < 5 || offset + size > |packet| then Failure(Malformed)
      else
        var rest := Tiles(packet, offset + size);
        if rest.Failure? then rest
        else Success([Package(packet[offset + 4], packet[offset + 5..offset + size])] + rest.value)
  }

  method PrimarySubpackages(packet: seq<Byte>) returns (r: Result<map<Byte, seq<Byte>>, PacketError>)
    ensures |packet| < HEADER_BYTES || packet[4] != STATE_MESSAGE ==> r == Failure(NotAState)
    ensures |packet| >= HEADER_BYTES && packet[4] == STATE_MESSAGE ==>
              var tiles := Tiles(packet, HEADER_BYTES);
              r == if tiles.Success? then Success(ByType(tiles.value)) else Failure(tiles.error)
  {
    hide GetUnsigned;
    if |packet| < 5 || packet[4] != 16 {
      return Failure(NotAState);
    }
    var packages: map<Byte, seq<Byte>> := map[];
    var offset := 5;
    ghost var seen: seq<Package> := [];
    StartTiling(packet);
    while offset + 5 <= |packet|
      invariant 5 <= offset <= |packet|
      invariant packages == ByType(seen)
      invariant Tiles(packet, 5) == Behind(seen, Tiles(packet, offset))
      decreases |packet| - offset
    {
      var packageSize := GetUnsigned(packet[offset..offset + 4]);
      if packageSize < 5 || offset + packageSize > |packet| {
        return Failure(Malformed);
      }
      ghost var p := Package(packet[offset + 4], packet[offset + 5..offset + packageSize]);
      BehindOneMore(seen, p, Tiles(packet, offset + packageSize));
      assert (seen + [p])[..|seen|] == seen;
      packages := packages[packet[offset + 4] := packet[offset + 5..offset + packageSize]];
      seen := seen + [p];
      offset := offset + packageSize;
    }
    assert seen + [] == seen;
    if offset != |packet| {
      return Failure(Truncated);
    }
    return Success(packages);
  }

  function Behind(seen: seq<Package>, rest: Result<seq<Package>, PacketError>): Result<seq<Package>, PacketError> {
    if rest.Failure? then rest else Success(seen + rest.value)
  }

  lemma {:induction false} StartTiling(packet: seq<Byte>)
    requires |packet| >= 5
    ensures Tiles(packet, 5) == Behind([], Tiles(packet, 5))
  {
    var t := Tiles(packet, 5);
    if t.Success? {
      assert [] + t.value == t.value;
    }
  }

  lemma {:induction false} BehindOneMore(seen: seq<Package>, p: Package, rest: Result<seq<Package>, PacketError>)
    ensures Behind(seen, Behind([p], rest)) == Behind(seen + [p], rest)
  {
    if rest.Success? {
      assert seen + ([p] + rest.value) == seen + [p] + rest.value;
    }
  }

  // ---------- exactly the tiled bodies are accepted ----------

  lemma {:induction false} FourParts(packet: seq<Byte>, offset: nat, size: nat)
    requires 5 <= size && offset + size <= |packet|
    ensures packet[offset..]
         == packet[offset..offset + 4] + [packet[offset + 4]] + packet[offset + 5..offset + size] + packet[offset + size..]
  {
  }

  lemma {:induction false} TilesEncode(packet: seq<Byte>, offset: nat)
    requires offset <= |packet| && Tiles(packet, offset).Success?
    ensures AllEncodable(Tiles(packet, offset).value) && EncodeAll(Tiles(packet, offset).value) == packet[offset..]
    decreases |packet| - offset
  {
    if offset + 5 <= |packet| {
      var size := SizeAt(packet, offset);
      TilesEncode(packet, offset + size);
      var tiles := Tiles(packet, offset).value;
      PutGetUnsigned(packet[offset..offset + 4]);
      assert tiles[1..] == Tiles(packet, offset + size).value;
      assert |tiles[0].content| + 5 == size;
      FourParts(packet, offset, size);
    }
  }

  lemma {:induction false} EncodedTiles(front: seq<Byte>, ps: seq<Package>)
    requires AllEncodable(ps)
    ensures Tiles(front + EncodeAll(ps), |front|) == Success(ps)
    decreases |ps|
  {
    if ps == [] {
      assert front + EncodeAll(ps) == front;
    } else {
      FirstTile(front, ps[0], EncodeAll(ps[1..]));
      EncodedTiles(front + Encode(ps[0]), ps[1..]);
      hide Tiles, Encode;
      Regroup(front, Encode(ps[0]), EncodeAll(ps[1..]));
      assert ps == [ps[0]] + ps[1..];
    }
  }

  lemma {:induction false} Regroup(a: seq<Byte>, b: seq<Byte>, c: seq<Byte>)
    ensures a + (b + c) == a + b + c
  {
  }

  /** An encoded package is read back, wherever it stands. */
  lemma {:induction false} FirstTile(front: seq<Byte>, p: Package, later: seq<Byte>)
    requires Encodable(p)
    ensures var packet, offset, rest := front + Encode(p) + later, |front|, Tiles(front + Encode(p) + later, |front + Encode(p)|);
            Tiles(packet, offset) == Behind([p], rest)
  {
    hide PutUnsigned, GetUnsigned;
    var packet, offset, size := front + Encode(p) + later, |front|, |p.content| + 5;
    GetPutUnsigned(size);
    assert packet[offset..offset + 4] == PutUnsigned(size);
    assert packet[offset + 4] == p.kind;
    assert packet[offset + 5..offset + size] == p.content;
  }

  /** A state packet is taken exactly when its body is made of whole packages, and those packages are unique. */
  lemma {:induction false} AcceptedIffTiled(packet: seq<Byte>)
    requires |packet| >= HEADER_BYTES
    ensures Tiles(packet, HEADER_BYTES).Success? <==> exists ps :: AllEncodable(ps) && EncodeAll(ps) == packet[HEADER_BYTES..]
    ensures forall ps :: AllEncodable(ps) && EncodeAll(ps) == packet[HEADER_BYTES..] ==> Tiles(packet, HEADER_BYTES) == Success(ps)
  {
    if Tiles(packet, HEADER_BYTES).Success? {
      TilesEncode(packet, HEADER_BYTES);
    }
    forall ps | AllEncodable(ps) && EncodeAll(ps) == packet[HEADER_BYTES..]
      ensures Tiles(packet, HEADER_BYTES) == Success(ps)
    {
      EncodedTiles(packet[..HEADER_BYTES], ps);
      assert packet[..HEADER_BYTES] + EncodeAll(ps) == packet;
    }
  }
}
