/** What the checksum of the robot's frames is worth: any one damaged integer, or byte, is found at either end. */
module FrameDamage {
  import opened Outcomes
  import opened Bytes
  import opened Frames
  import opened RobotProgram

  predicate IsMultiple(x: int) {
    x % CHECKSUM_MODULUS == 0
  }

  // ---------- the sum ----------

  lemma {:induction false} SumAdds(a: seq<int>, b: seq<int>)
    ensures Sum(a + b) == Sum(a) + Sum(b)
  {
    if a == [] {
      assert a + b == b;
    } else {
      assert (a + b)[1..] == a[1..] + b;
      SumAdds(a[1..], b);
    }
  }

  lemma {:induction false} SumChanges(values: seq<int>, i: nat, v: int)
    requires i < |values|
    ensures Sum(values[i := v]) == Sum(values) - values[i] + v
  {
    if i == 0 {
      assert values[i := v][1..] == values[1..];
    } else {
      assert values[i := v][1..] == values[1..][i - 1 := v];
      SumChanges(values[1..], i - 1, v);
    }
  }

  // ---------- what an encoded frame ends with ----------

  /** A frame's last integer lies in 0 to 65520 and is the sum of the others but for a multiple of 65521. */
  lemma {:induction false} EncodedFrameAddsUp(kind: int, fields: seq<int>)
    requires EncodeFrame(kind, fields).Success?
    ensures |EncodeFrame(kind, fields).value| == 4 * |fields| + 12
    ensures var words := UnpackAll(EncodeFrame(kind, fields).value);
            && |words| == |fields| + 3 && words[..|fields| + 2] == [PROTOCOL_VERSION, kind] + fields
            && 0 <= words[|fields| + 2] <= 65520
            && IsMultiple(PROTOCOL_VERSION + kind + Sum(fields) - words[|fields| + 2])
  {
    var body := [PROTOCOL_VERSION, kind] + fields;
    var words := body + [Checksum(body)];
    DecodeEncoded(kind, fields);
    UnpackPacked(words);
    assert words[..|fields| + 2] == body;
    SumAdds([PROTOCOL_VERSION, kind], fields);
    assert [PROTOCOL_VERSION, kind][1..] == [kind];
    assert Sum([PROTOCOL_VERSION, kind]) == PROTOCOL_VERSION + kind;
  }

  lemma {:induction false} UnpackAt(s: seq<Byte>, k: nat)
    requires |s| % 4 == 0 && 4 * k < |s|
    ensures UnpackAll(s)[k] == GetInt32(s[4 * k..4 * k + 4]) && s[4 * k..4 * k + 4] == PutInt32(UnpackAll(s)[k])
  {
    hide GetInt32, PutInt32;
    if k == 0 {
      Int32RoundTrip(0, s[..4]);
    } else {
      UnpackAt(s[4..], k - 1);
      assert s[4..][4 * (k - 1)..4 * (k - 1) + 4] == s[4 * k..4 * k + 4];
    }
  }

  lemma {:induction false} SmallInt(n: int)
    requires 0 <= n < 256
    ensures IsInt32(n) && PutInt32(n) == [0, 0, 0, n]
  {
  }

  /** A heartbeat of session 7: network order, the kind second, and 1 + 11 + 7 at the end. */
  lemma {:induction false} HeartbeatBytes()
    ensures var frame := EncodeFrame(KIND_HEARTBEAT, [7, 0, 0, 0, 0, 0]);
            && frame.Success? && |frame.value| == 36
            && frame.value[..4] == [0, 0, 0, 1] && frame.value[4..8] == [0, 0, 0, 11]
            && frame.value[8..12] == [0, 0, 0, 7] && frame.value[32..36] == [0, 0, 0, 19]
  {
    hide EncodeFrame, DecodeFrame, UnpackAll, Sum, PutInt32;
    var fields := [7, 0, 0, 0, 0, 0];
    DecodeEncoded(KIND_HEARTBEAT, fields);
    EncodedFrameAddsUp(KIND_HEARTBEAT, fields);
    SumOfOne(7, 5);
    assert fields == [7] + Nothing(5);
    var frame := EncodeFrame(KIND_HEARTBEAT, fields).value;
    var words := UnpackAll(frame);
    assert words[..8][0] == 1 && words[..8][1] == 11 && words[..8][2] == 7 && words[8] == 19;
    UnpackAt(frame, 0);
    UnpackAt(frame, 1);
    UnpackAt(frame, 2);
    UnpackAt(frame, 8);
    SmallInt(1);
    SmallInt(11);
    SmallInt(7);
    SmallInt(19);
  }

  function Nothing(n: nat): seq<int> {
    seq(n, _ => 0)
  }

  lemma {:induction false} SumOfOne(x: int, n: nat)
    ensures Sum([x] + Nothing(n)) == x
  {
    assert ([x] + Nothing(n))[1..] == Nothing(n);
    SumOfNothing(n);
  }

  lemma {:induction false} SumOfNothing(n: nat)
    ensures Sum(Nothing(n)) == 0
  {
    if n > 0 {
      assert Nothing(n)[1..] == Nothing(n - 1);
      SumOfNothing(n - 1);
    }
  }

  // ---------- one damaged integer ----------

  lemma {:induction false} ChecksumMoves(words: seq<int>, i: nat, v: int)
    requires i < |words| && !IsMultiple(v - words[i])
    requires Checksum(words[..|words| - 1]) == words[|words| - 1]
    ensures var damaged := words[i := v];
            Checksum(damaged[..|damaged| - 1]) != damaged[|damaged| - 1]
  {
    var last := |words| - 1;
    var damaged := words[i := v];
    if i < last {
      assert damaged[..last] == words[..last][i := v];
      SumChanges(words[..last], i, v);
      if Sum(damaged[..last]) % CHECKSUM_MODULUS == Sum(words[..last]) % CHECKSUM_MODULUS {
        SameRemainder(Sum(damaged[..last]), Sum(words[..last]));
        assert false;
      }
    } else {
      assert damaged[..last] == words[..last];
    }
  }

  lemma {:induction false} SameRemainder(x: int, y: int)
    requires x % CHECKSUM_MODULUS == y % CHECKSUM_MODULUS
    ensures IsMultiple(x - y)
  {
  }

  /**
   Changing one integer of a frame that decodes, by an amount that 65521 does not divide, makes a frame that neither
   decodes nor is taken from the stream.
   */
  lemma {:induction false} DamagedIntegerIsFound(frame: seq<Byte>, damaged: seq<Byte>, i: nat, v: int)
    requires DecodeFrame(frame).Success? && |damaged| == |frame|
    requires i < |UnpackAll(frame)| && UnpackAll(damaged) == UnpackAll(frame)[i := v] && !IsMultiple(v - UnpackAll(frame)[i])
    ensures DecodeFrame(damaged).Failure? && !WholeFrame(damaged)
  {
    ChecksumMoves(UnpackAll(frame), i, v);
    hide Checksum, UnpackAll;
  }

  /** The robot hears it as damage, which stops any command in flight from completing. */
  lemma {:induction false} DamagedIntegerIsHeard(words: seq<int>, i: nat, v: int, s: int)
    requires |words| == 9 && GoodFrame(words) && i < 9 && !IsMultiple(v - words[i])
    ensures !GoodFrame(words[i := v])
  {
    ChecksumMoves(words, i, v);
    hide Checksum;
  }

  // ---------- one damaged byte ----------

  lemma {:induction false} UnpackChanged(s: seq<Byte>, p: nat, b: Byte)
    requires |s| % 4 == 0 && p < |s|
    ensures var k := p / 4;
            && UnpackAll(s[p := b]) == UnpackAll(s)[k := GetInt32(s[4 * k..4 * k + 4][p % 4 := b])]
            && UnpackAll(s)[k] == GetInt32(s[4 * k..4 * k + 4])
  {
    hide GetInt32;
    if p < 4 {
      assert s[p := b][..4] == s[..4][p := b] && s[p := b][4..] == s[4..];
    } else {
      UnpackChanged(s[4..], p - 4, b);
      var k := p / 4;
      assert (p - 4) / 4 == k - 1 && (p - 4) % 4 == p % 4;
      assert s[p := b][..4] == s[..4] && s[p := b][4..] == s[4..][p - 4 := b];
      assert s[4..][4 * (k - 1)..4 * (k - 1) + 4] == s[4 * k..4 * k + 4];
    }
  }

  /** 65521 is a prime greater than 255, so it divides no change of one byte at any place. */
  lemma {:induction false} NoMultiple(e: int)
    requires e != 0 && -255 <= e <= 255
    ensures !IsMultiple(e) && !IsMultiple(e * 256) && !IsMultiple(e * 0x1_0000) && !IsMultiple(e * 0x100_0000)
  {
    assert e * 0x1_0000 == e * CHECKSUM_MODULUS + 15 * e;
    Reduced(e * 0x1_0000, e, 15 * e);
    assert e * 0x100_0000 == (e * 256) * CHECKSUM_MODULUS + 3840 * e;
    Reduced(e * 0x100_0000, e * 256, 3840 * e);
    NeverEqual(e);
    if IsMultiple(3840 * e) {
      var q := QuotientOf(3840 * e);
    }
  }

  lemma {:induction false} QuotientOf(x: int) returns (q: int)
    requires IsMultiple(x) && -15 * CHECKSUM_MODULUS < x < 15 * CHECKSUM_MODULUS
    ensures -15 < q < 15 && Equal(x, q)
  {
    q := x / CHECKSUM_MODULUS;
  }

  predicate Equal(x: int, q: int) {
    x == q * CHECKSUM_MODULUS
  }

  lemma {:induction false} NeverEqual(e: int)
    requires e != 0 && -255 <= e <= 255
    ensures forall q | -15 < q < 15 :: !Equal(3840 * e, q)
  {
  }

  lemma {:induction false} Reduced(x: int, q: int, r: int)
    requires x == q * CHECKSUM_MODULUS + r
    ensures IsMultiple(x) <==> IsMultiple(r)
  {
  }

  lemma {:induction false} ByteMovesInt(s: seq<Byte>, j: nat, b: Byte)
    requires |s| == 4 && j < 4 && b != s[j]
    ensures !IsMultiple(GetInt32(s[j := b]) - GetInt32(s))
  {
    var u, v := GetUnsigned(s), GetUnsigned(s[j := b]);
    var e: int := (b as int) - (s[j] as int);
    NoMultiple(e);
    var top: int, next: int := s[0] as int, s[j := b][0] as int;
    assert u >= TWO_TO_31 <==> top >= 128;
    assert v >= TWO_TO_31 <==> next >= 128;
    if j == 0 {
      var signed := e + (if top >= 128 then 256 else 0) - (if next >= 128 then 256 else 0);
      assert GetInt32(s[j := b]) - GetInt32(s) == signed * 0x100_0000;
      NoMultiple(signed);
    }
  }

  /** Any one damaged byte of a frame that decodes is found: it neither decodes nor is taken from the stream. */
  lemma {:induction false} DamagedByteIsFound(frame: seq<Byte>, p: nat, b: Byte)
    requires DecodeFrame(frame).Success? && p < |frame| && b != frame[p]
    ensures DecodeFrame(frame[p := b]).Failure? && !WholeFrame(frame[p := b])
  {
    assert |frame| % 4 == 0;
    hide DecodeFrame, WholeFrame;
    var k := p / 4;
    var four := frame[4 * k..4 * k + 4];
    UnpackChanged(frame, p, b);
    ByteMovesInt(four, p % 4, b);
    DamagedIntegerIsFound(frame, frame[p := b], k, GetInt32(four[p % 4 := b]));
  }
}
