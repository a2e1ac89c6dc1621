/**
 The checksummed frames between the robot and the backend: the codec and the resynchronising receive
 buffer of app/robot_supervisor.py.
 */
module Frames {
  import opened Outcomes
  import opened Bytes

  const PROTOCOL_VERSION := 1
  const CHECKSUM_MODULUS := 65521

  const KIND_COMMAND := 10
  const KIND_HEARTBEAT := 11
  const KIND_HELLO := 20
  const KIND_EVENT := 21
  const KIND_TELEMETRY := 22

  /** Bytes asked of the socket at a time, and the buffer's limit. */
  const RECEIVE_BYTES := 8192
  const MAXIMUM_BYTES := 32768

  datatype FrameError = OutOfRange | Unaligned | TooShort | UnsupportedVersion(version: int) | BadChecksum | BufferOverflow

  function Sum(values: seq<int>): int {
    if values == [] then 0 else values[0] + Sum(values[1..])
  }

  function Checksum(values: seq<int>): (c: int)
    ensures 0 <= c < CHECKSUM_MODULUS
  {
    Sum(values) % CHECKSUM_MODULUS
  }

  predicate AllInt32(values: seq<int>) {
    forall i | 0 <= i < |values| :: IsInt32(values[i])
  }

  function EncodeFrame(kind: int, fields: seq<int>): Result<seq<Byte>, FrameError> {
    var body := [PROTOCOL_VERSION, kind] + fields;
    var values := body + [Checksum(body)];
    if AllInt32(values) then Success(PackAll(values)) else Failure(OutOfRange)
  }

  function DecodeFrame(frame: seq<Byte>): Result<seq<int>, FrameError> {
    if |frame| % 4 != 0 then Failure(Unaligned) else
      var values := UnpackAll(frame);
      var last := |values| - 1;
      if |values| < 4 then Failure(TooShort)
      else if values[0] != PROTOCOL_VERSION then Failure(UnsupportedVersion(values[0]))
      else if Checksum(values[..last]) != values[last] then Failure(BadChecksum)
      else Success(values[..last])
  }

  /** Decoding undoes encoding exactly when there is a field; a frame without fields is refused as too short. */
  lemma {:induction false} DecodeEncoded(kind: int, fields: seq<int>)
    ensures EncodeFrame(kind, fields).Success? <==> IsInt32(kind) && AllInt32(fields)
    ensures EncodeFrame(kind, fields).Success? ==>
              DecodeFrame(EncodeFrame(kind, fields).value)
              == if fields == [] then Failure(TooShort) else Success([PROTOCOL_VERSION, kind] + fields)
  {
    var body := [PROTOCOL_VERSION, kind] + fields;
    var values := body + [Checksum(body)];
    assert AllInt32(values) <==> IsInt32(kind) && AllInt32(fields) by {
      assert values[1] == kind && values[|values| - 1] == Checksum(body);
      assert forall i | 0 <= i < |fields| :: values[i + 2] == fields[i];
    }
    if AllInt32(values) {
      UnpackPacked(values);
      assert values[..|values| - 1] == body;
    }
  }

  /** Whatever decodes is the encoding of what it decodes to. */
  lemma {:induction false} EncodeDecoded(frame: seq<Byte>)
    requires DecodeFrame(frame).Success?
    ensures var values := DecodeFrame(frame).value;
            |values| >= 3 && EncodeFrame(values[1], values[2..]) == Success(frame)
  {
    var all := UnpackAll(frame);
    var values := DecodeFrame(frame).value;
    assert [PROTOCOL_VERSION, values[1]] + values[2..] == values;
    assert values + [Checksum(values)] == all;
    PackUnpacked(frame);
  }

  // ---------- frames in a byte stream ----------

  /** Integers in a whole frame of this kind. */
  function FrameInts(kind: int): Option<nat> {
    if kind in [KIND_COMMAND, KIND_HEARTBEAT, KIND_HELLO, KIND_EVENT] then Some(9)
    else if kind == KIND_TELEMETRY then Some(50)
    else None
  }

  function Word(b: seq<Byte>, offset: nat): int
    requires offset + 4 <= |b|
  {
    GetInt32(b[offset..offset + 4])
  }

  /** A frame header starts at `offset`. */
  predicate HeaderAt(b: seq<Byte>, offset: nat)
    requires offset + 8 <= |b|
  {
    Word(b, offset) == PROTOCOL_VERSION && FrameInts(Word(b, offset + 4)).Some?
  }

  function FrameBytes(b: seq<Byte>): (n: nat)
    requires |b| >= 8 && HeaderAt(b, 0)
    ensures n == 36 || n == 200
  {
    FrameInts(Word(b, 4)).value * 4
  }

  predicate ChecksumHolds(frame: seq<Byte>)
    requires |frame| % 4 == 0 && |frame| > 0
  {
    var values := UnpackAll(frame);
    Checksum(values[..|values| - 1]) == values[|values| - 1]
  }

  /** One whole frame of a known kind. */
  predicate WholeFrame(frame: seq<Byte>) {
    |frame| >= 8 && HeaderAt(frame, 0) && |frame| == FrameBytes(frame) && ChecksumHolds(frame)
  }

  datatype Scanned = Scanned(frames: seq<seq<Byte>>, rest: seq<Byte>) {
    function Prepend(frame: seq<Byte>): Scanned {
      Scanned([frame] + frames, rest)
    }
  }

  /** What to do at the front of the bytes held so far. */
  datatype Front = Wait | NoHeader | Corrupt | Complete(size: nat)

  function FrontOf(b: seq<Byte>): (f: Front)
    ensures f.Complete? ==> 0 < f.size <= |b| && f.size % 4 == 0 && WholeFrame(b[..f.size])
    ensures f.NoHeader? || f.Corrupt? ==> |b| >= 8
    ensures f.Wait? ==> |b| < 200
  {
    if |b| < 8 then Wait
    else if !HeaderAt(b, 0) then NoHeader
    else if |b| < FrameBytes(b) then Wait
    else
      var n := FrameBytes(b);
      assert b[..n][0..4] == b[0..4] && b[..n][4..8] == b[4..8];
      if ChecksumHolds(b[..n]) then Complete(n) else Corrupt
  }

  /** The reference scanner: wherever no whole frame starts, drop one 32-bit word and look again. */
  function Scan(b: seq<Byte>): Scanned
    decreases |b|
  {
    match FrontOf(b)
    case Wait => Scanned([], b)
    case NoHeader => Scan(b[4..])
    case Corrupt => Scan(b[4..])
    case Complete(n) => Scan(b[n..]).Prepend(b[..n])
  }

  // ---------- the receive buffer ----------

  /** What `_discard_until_header` leaves: bytes from the next header on, or a possible half header at the end. */
  datatype Discarded = Discarded(found: bool, rest: seq<Byte>)

  function DiscardFrom(b: seq<Byte>, offset: nat): (d: Discarded)
    requires offset >= 4 && |b| >= 8
    ensures |d.rest| + 4 <= |b|
    decreases |b| - offset
  {
    if offset + 8 <= |b| then
      if HeaderAt(b, offset) then Discarded(true, b[offset..]) else DiscardFrom(b, offset + 4)
    else if Word(b, |b| - 4) == PROTOCOL_VERSION then Discarded(false, b[|b| - 4..])
    else Discarded(false, [])
  }

  datatype Drained = Drained(frames: seq<seq<Byte>>, rest: seq<Byte>, resynchronizations: nat) {
    function Prepend(frame: seq<Byte>): Drained {
      Drained([frame] + frames, rest, resynchronizations)
    }

    /** The whole result, when `earlier` frames and `skips` came before. */
    function After(earlier: seq<seq<Byte>>, skips: nat): Drained {
      Drained(earlier + frames, rest, skips + resynchronizations)
    }

    function Skipped(): Drained {
      Drained(frames, rest, resynchronizations + 1)
    }
  }

  /** The loop of `feed`. */
  function Drain(b: seq<Byte>): Drained
    decreases |b|
  {
    match FrontOf(b)
    case Wait => Drained([], b, 0)
    case NoHeader =>
      var d := DiscardFrom(b, 4);
      if d.found then Drain(d.rest).Skipped() else Drained([], d.rest, 1)
    case Corrupt => Drain(b[4..]).Skipped()
    case Complete(n) => Drain(b[n..]).Prepend(b[..n])
  }

  class FrameBuffer {
    var buffer: seq<Byte>
    const maximumBytes: nat
    var resynchronizations: nat

    constructor (maximumBytes: nat := MAXIMUM_BYTES)
      ensures buffer == [] && resynchronizations == 0 && this.maximumBytes == maximumBytes
    {
      buffer := [];
      this.maximumBytes := maximumBytes;
      resynchronizations := 0;
    }

    /** Discard aligned garbage, keeping a possible partial frame header. */
    method DiscardUntilHeader() returns (found: bool)
      requires |buffer| >= 8
      modifies this
      ensures Discarded(found, buffer) == DiscardFrom(old(buffer), 4)
      ensures resynchronizations == old(resynchronizations) + 1
    {
      var offset := 4;
      while offset < |buffer| - 7
        invariant 4 <= offset && buffer == old(buffer) && resynchronizations == old(resynchronizations)
        invariant DiscardFrom(buffer, offset) == DiscardFrom(old(buffer), 4)
      {
        if HeaderAt(buffer, offset) {
          buffer := buffer[offset..];
          resynchronizations := resynchronizations + 1;
          return true;
        }
        offset := offset + 4;
      }
      var keep := if Word(buffer, |buffer| - 4) == PROTOCOL_VERSION then buffer[|buffer| - 4..] else [];
      buffer := keep;
      resynchronizations := resynchronizations + 1;
      return false;
    }

    /** Take in received bytes and give back the frames they complete. */
    method Feed(chunk: seq<Byte>) returns (r: Result<seq<seq<Byte>>, FrameError>)
      modifies this
      ensures var received := old(buffer) + chunk;
              if |received| > maximumBytes then
                && r == Failure(BufferOverflow) && buffer == []
                && resynchronizations == old(resynchronizations)
              else
                var d := Drain(received);
                && r == Success(d.frames) && buffer == d.rest
                && resynchronizations == old(resynchronizations) + d.resynchronizations
    {
      buffer := buffer + chunk;
      if |buffer| > maximumBytes {
        buffer := [];
        return Failure(BufferOverflow);
      }
      var frames := TakeFrames();
      return Success(frames);
    }

    /** The loop of `feed`, over the bytes held. */
    method TakeFrames() returns (frames: seq<seq<Byte>>)
      modifies this
      ensures old(resynchronizations) <= resynchronizations
      ensures Drain(old(buffer)) == Drained(frames, buffer, resynchronizations - old(resynchronizations))
    {
      hide *;
      ghost var all, before := Drain(buffer), resynchronizations;
      frames := [];
      StartDraining(buffer);
      while true
        invariant before <= resynchronizations
        invariant all == Drain(buffer).After(frames, resynchronizations - before)
        decreases |buffer|
      {
        ghost var skipped := resynchronizations - before;
        if |buffer| < 8 {
          WaitForMore(buffer, frames, skipped);
          break;
        }
        if !HeaderAt(buffer, 0) {
          SkipGarbage(buffer, frames, skipped);
          var found := DiscardUntilHeader();
          if !found {
            break;
          }
          continue;
        }
        var frameBytes := FrameBytes(buffer);
        if |buffer| < frameBytes {
          WaitForMore(buffer, frames, skipped);
          break;
        }
        var candidate := buffer[..frameBytes];
        TakeCandidate(buffer, frames, skipped);
        if !ChecksumHolds(candidate) {
          buffer := buffer[4..];
          resynchronizations := resynchronizations + 1;
          continue;
        }
        frames := frames + [candidate];
        buffer := buffer[frameBytes..];
      }
    }
  }

  lemma {:induction false} StartDraining(b: seq<Byte>)
    ensures Drain(b) == Drain(b).After([], 0)
  {
  }

  lemma {:induction false} WaitForMore(b: seq<Byte>, frames: seq<seq<Byte>>, skipped: nat)
    requires |b| < 8 || (HeaderAt(b, 0) && |b| < FrameBytes(b))
    ensures Drain(b).After(frames, skipped) == Drained(frames, b, skipped)
  {
  }

  lemma {:induction false} SkipGarbage(b: seq<Byte>, frames: seq<seq<Byte>>, skipped: nat)
    requires |b| >= 8 && !HeaderAt(b, 0)
    ensures Drain(b).After(frames, skipped) ==
              if DiscardFrom(b, 4).found then Drain(DiscardFrom(b, 4).rest).After(frames, skipped + 1)
              else Drained(frames, DiscardFrom(b, 4).rest, skipped + 1)
  {
  }

  lemma {:induction false} TakeCandidate(b: seq<Byte>, frames: seq<seq<Byte>>, skipped: nat)
    requires |b| >= 8 && HeaderAt(b, 0) && |b| >= FrameBytes(b)
    ensures Drain(b).After(frames, skipped) ==
              if ChecksumHolds(b[..FrameBytes(b)])
              then Drain(b[FrameBytes(b)..]).After(frames + [b[..FrameBytes(b)]], skipped)
              else Drain(b[4..]).After(frames, skipped + 1)
  {
    var n := FrameBytes(b);
    if ChecksumHolds(b[..n]) {
      assert FrontOf(b) == Complete(n);
      var first, rest := b[..n], Drain(b[n..]);
      assert Drain(b) == rest.Prepend(first);
      AppendAssociates(frames, [first], rest.frames);
    }
  }

  lemma {:induction false} AppendAssociates(a: seq<seq<Byte>>, b: seq<seq<Byte>>, c: seq<seq<Byte>>)
    ensures a + (b + c) == a + b + c
  {
  }
}
