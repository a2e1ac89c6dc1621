/**
 What the receive buffer does over a whole stream: skipping ahead agrees with the word-by-word scanner,
 and clean streams survive any fragmentation.
 */
module FrameStreams {
  import opened Outcomes
  import opened Bytes
  import opened Frames

  /** Feeding chunks one after another: the buffer left, and every frame given back. */
  datatype Fed = Fed(buffer: seq<Byte>, outcome: Result<seq<seq<Byte>>, FrameError>)

  function FeedAll(buffer: seq<Byte>, chunks: seq<seq<Byte>>, maximum: nat): Fed
    decreases |chunks|
  {
    if chunks == [] then Fed(buffer, Success([])) else
      var received := buffer + chunks[0];
      if |received| > maximum then Fed([], Failure(BufferOverflow)) else
        var d := Drain(received);
        CarryOn(d.frames, FeedAll(d.rest, chunks[1..], maximum))
  }

  /** The connection loop: each read is handed to the buffer, and the frames are collected. */
  method Receive(buffer: FrameBuffer, chunks: seq<seq<Byte>>) returns (r: Result<seq<seq<Byte>>, FrameError>)
    modifies buffer
    ensures FeedAll(old(buffer.buffer), chunks, buffer.maximumBytes) == Fed(buffer.buffer, r)
  {
    var frames := [];
    CarryOnFromNone(FeedAll(buffer.buffer, chunks, buffer.maximumBytes));
    assert chunks[0..] == chunks;
    for i := 0 to |chunks|
      invariant FeedAll(old(buffer.buffer), chunks, buffer.maximumBytes)
             == CarryOn(frames, FeedAll(buffer.buffer, chunks[i..], buffer.maximumBytes))
    {
      assert chunks[i..][1..] == chunks[i + 1..];
      var fed := buffer.Feed(chunks[i]);
      if fed.Failure? {
        return fed;
      }
      CarryOnOnce(frames, fed.value, FeedAll(buffer.buffer, chunks[i + 1..], buffer.maximumBytes));
      frames := frames + fed.value;
    }
    assert chunks[|chunks|..] == [] && frames + [] == frames;
    return Success(frames);
  }

  function CarryOn(frames: seq<seq<Byte>>, later: Fed): Fed {
    if later.outcome.Failure? then later else Fed(later.buffer, Success(frames + later.outcome.value))
  }

  lemma {:induction false} CarryOnFromNone(later: Fed)
    ensures CarryOn([], later) == later
  {
    if later.outcome.Success? {
      assert [] + later.outcome.value == later.outcome.value;
    }
  }

  lemma {:induction false} CarryOnOnce(frames: seq<seq<Byte>>, more: seq<seq<Byte>>, later: Fed)
    ensures CarryOn(frames, CarryOn(more, later)) == CarryOn(frames + more, later)
  {
    if later.outcome.Success? {
      AppendAssociates(frames, more, later.outcome.value);
    }
  }

  // ---------- the buffer stays small ----------

  /** Less than the longest frame stays behind. */
  lemma {:induction false} LittleIsLeft(b: seq<Byte>)
    ensures |Drain(b).rest| < 200
    decreases |b|
  {
    match FrontOf(b)
    case Wait =>
    case NoHeader =>
      var d := DiscardFrom(b, 4);
      if d.found {
        LittleIsLeft(d.rest);
      } else {
        DiscardKeepsAWord(b, 4);
      }
    case Corrupt => LittleIsLeft(b[4..]);
    case Complete(n) => LittleIsLeft(b[n..]);
  }

  lemma {:induction false} DiscardKeepsAWord(b: seq<Byte>, offset: nat)
    requires offset >= 4 && |b| >= 8
    ensures var d := DiscardFrom(b, offset);
            !d.found ==> d.rest == [] || (d.rest == b[|b| - 4..] && Word(d.rest, 0) == PROTOCOL_VERSION)
    decreases |b| - offset
  {
    if offset + 8 <= |b| && !HeaderAt(b, offset) {
      DiscardKeepsAWord(b, offset + 4);
    } else if offset + 8 > |b| && Word(b, |b| - 4) == PROTOCOL_VERSION {
      assert b[|b| - 4..][0..4] == b[|b| - 4..|b| - 4 + 4];
    }
  }

  /** With the socket's reads, the buffer's limit is never reached, whatever the bytes. */
  lemma {:induction false} LimitIsNeverReached(buffer: seq<Byte>, chunks: seq<seq<Byte>>)
    requires |buffer| < 200 && forall chunk | chunk in chunks :: |chunk| <= RECEIVE_BYTES
    ensures var fed := FeedAll(buffer, chunks, MAXIMUM_BYTES);
            fed.outcome.Success? && |fed.buffer| < 200
    decreases |chunks|
  {
    if chunks != [] {
      assert chunks[0] in chunks;
      LittleIsLeft(buffer + chunks[0]);
      LimitIsNeverReached(Drain(buffer + chunks[0]).rest, chunks[1..]);
    }
  }

  /** Every frame given back decodes, to the number of fields its handler expects. */
  lemma {:induction false} DrainedFramesDecode(b: seq<Byte>)
    ensures forall frame | frame in Drain(b).frames :: WholeFrame(frame) && DecodesAsExpected(frame)
    decreases |b|
  {
    match FrontOf(b)
    case Wait =>
    case NoHeader =>
      var d := DiscardFrom(b, 4);
      if d.found {
        DrainedFramesDecode(d.rest);
      }
    case Corrupt => DrainedFramesDecode(b[4..]);
    case Complete(n) =>
      DrainedFramesDecode(b[n..]);
      WholeFrameDecodes(b[..n]);
  }

  /** Eight values for a HELLO or an event, forty-nine for telemetry. */
  predicate DecodesAsExpected(frame: seq<Byte>) {
    var decoded := DecodeFrame(frame);
    && decoded.Success? && |decoded.value| >= 3
    && FrameInts(decoded.value[1]) == Some(|decoded.value| + 1)
  }

  lemma {:induction false} WholeFrameDecodes(frame: seq<Byte>)
    requires WholeFrame(frame)
    ensures DecodesAsExpected(frame)
  {
    UnpackFront(frame);
  }

  /** A frame encoded with the field count of its kind is a whole frame. */
  lemma {:induction false} EncodedIsWhole(kind: int, fields: seq<int>)
    requires FrameInts(kind) == Some(|fields| + 3) && AllInt32(fields)
    ensures EncodeFrame(kind, fields).Success? && WholeFrame(EncodeFrame(kind, fields).value)
  {
    DecodeEncoded(kind, fields);
    var frame := EncodeFrame(kind, fields).value;
    var body := [PROTOCOL_VERSION, kind] + fields;
    UnpackPacked(body + [Checksum(body)]);
    UnpackFront(frame);
    assert (body + [Checksum(body)])[..|body|] == body;
  }

  /** What the protocol sends: six fields with any kind of message but telemetry, which has 47. */
  predicate InProtocol(kind: int, fields: seq<int>) {
    (kind in [10, 11, 20, 21] && |fields| == 6) || (kind == 22 && |fields| == 47)
  }

  /** The buffer takes an encoded frame for a whole one exactly when the protocol sends it. */
  lemma {:induction false} WholeIsInProtocol(kind: int, fields: seq<int>)
    requires EncodeFrame(kind, fields).Success?
    ensures WholeFrame(EncodeFrame(kind, fields).value) <==> InProtocol(kind, fields)
  {
    DecodeEncoded(kind, fields);
    var frame := EncodeFrame(kind, fields).value;
    var body := [PROTOCOL_VERSION, kind] + fields;
    UnpackPacked(body + [Checksum(body)]);
    UnpackFront(frame);
    assert (body + [Checksum(body)])[..|body|] == body;
    assert frame[0..4] == frame[..4] && Word(frame, 0) == 1 && Word(frame, 4) == kind;
    hide GetInt32, Checksum, PackAll, UnpackAll;
  }

  /** Each resynchronisation drops a word at least, and without one nothing is lost. */
  predicate LosesByWords(b: seq<Byte>, d: Drained) {
    && |Flatten(d.frames)| + |d.rest| + 4 * d.resynchronizations <= |b|
    && (d.resynchronizations == 0 ==> b == Flatten(d.frames) + d.rest)
  }

  lemma {:induction false} SkippedLoses(b: seq<Byte>, c: seq<Byte>, d: Drained)
    requires LosesByWords(c, d) && |c| + 4 <= |b|
    ensures LosesByWords(b, d.Skipped())
  {
  }

  lemma {:induction false} WaitingLoses(b: seq<Byte>, rest: seq<Byte>)
    ensures LosesByWords(b, Drained([], b, 0)) && (|rest| + 4 <= |b| ==> LosesByWords(b, Drained([], rest, 1)))
  {
    assert [] + b == b;
  }

  lemma {:induction false} FrameLoses(b: seq<Byte>, n: nat, d: Drained)
    requires n <= |b| && LosesByWords(b[n..], d)
    ensures LosesByWords(b, d.Prepend(b[..n]))
  {
    assert ([b[..n]] + d.frames)[1..] == d.frames;
    assert Flatten([b[..n]] + d.frames) == b[..n] + Flatten(d.frames);
    assert b == b[..n] + b[n..];
  }

  lemma {:induction false} ResynchronisingLoses(b: seq<Byte>)
    ensures LosesByWords(b, Drain(b))
    decreases |b|
  {
    hide LosesByWords, FrontOf, DiscardFrom, WholeFrame;
    match FrontOf(b)
    case Wait => WaitingLoses(b, b);
    case NoHeader =>
      var d := DiscardFrom(b, 4);
      WaitingLoses(b, d.rest);
      if d.found {
        ResynchronisingLoses(d.rest);
        SkippedLoses(b, d.rest, Drain(d.rest));
      }
    case Corrupt =>
      ResynchronisingLoses(b[4..]);
      SkippedLoses(b, b[4..], Drain(b[4..]));
    case Complete(n) =>
      ResynchronisingLoses(b[n..]);
      FrameLoses(b, n, Drain(b[n..]));
  }

  // ---------- skipping ahead agrees with the word-by-word scanner ----------

  lemma {:induction false} SameHeader(b: seq<Byte>, c: seq<Byte>, offset: nat, shift: nat)
    requires offset + shift + 8 <= |b| && offset + 8 <= |c|
    requires c[offset..offset + 8] == b[offset + shift..offset + shift + 8]
    ensures HeaderAt(c, offset) == HeaderAt(b, offset + shift)
  {
    var x, y := c[offset..offset + 8], b[offset + shift..offset + shift + 8];
    assert c[offset..offset + 4] == x[0..4] && b[offset + shift..offset + shift + 4] == y[0..4];
    assert c[offset + 4..offset + 8] == x[4..8] && b[offset + shift + 4..offset + shift + 8] == y[4..8];
  }

  /** Words that start no header can be dropped before scanning. */
  lemma {:induction false} ScanSkips(b: seq<Byte>, n: nat)
    requires 4 * n + 4 <= |b| && NoHeaders(b, 0, n)
    ensures Scan(b) == Scan(b[4 * n..])
  {
    hide NoHeaders, FrontOf, HeaderAt;
    if n > 0 {
      NoHeadersBehind(b, n);
      ScanSkips(b[4..], n - 1);
      assert b[4..][4 * (n - 1)..] == b[4 * n..];
    } else {
      assert b[0..] == b;
    }
  }

  lemma {:induction false} NoHeadersBehind(b: seq<Byte>, n: nat)
    requires 0 < 4 * n && 4 * n + 4 <= |b| && NoHeaders(b, 0, n)
    ensures FrontOf(b) == NoHeader && NoHeaders(b[4..], 0, n - 1)
  {
    hide HeaderAt, FrameBytes, ChecksumHolds;
    var c := b[4..];
    assert 4 * 0 + 8 <= |b| && !HeaderAt(b, 4 * 0);
    forall k | 0 <= k < n - 1
      ensures 4 * k + 8 <= |c| && !HeaderAt(c, 4 * k)
    {
      assert 4 * (k + 1) + 8 <= |b| && !HeaderAt(b, 4 * (k + 1));
      assert c[4 * k..4 * k + 8] == b[4 * k + 4..4 * k + 4 + 8];
      SameHeader(b, c, 4 * k, 4);
    }
  }

  /** No header starts at any of the words from `m` up to, not including, `n`. */
  predicate NoHeaders(b: seq<Byte>, m: nat, n: nat) {
    forall k | m <= k < n :: 4 * k + 8 <= |b| && !HeaderAt(b, 4 * k)
  }

  /** Where the discard stops, in words: at the first header, or with no header anywhere. */
  lemma {:induction false} DiscardStops(b: seq<Byte>, m: nat) returns (n: nat)
    requires m >= 1 && |b| >= 8
    ensures n >= m && NoHeaders(b, m, n)
    ensures var d := DiscardFrom(b, 4 * m);
            if d.found then 4 * n + 8 <= |b| && d.rest == b[4 * n..] else 4 * n + 8 > |b|
    decreases |b| - 4 * m
  {
    n := m;
    if 4 * m + 8 <= |b| && !HeaderAt(b, 4 * m) {
      n := DiscardStops(b, m + 1);
    }
  }

  /** A first word that is not the version never starts a frame. */
  lemma {:induction false} NotAVersion(word: seq<Byte>, more: seq<Byte>)
    requires |word| == 4 && Word(word, 0) != PROTOCOL_VERSION && |more| % 4 == 0
    ensures Scan(word + more).frames == Scan(more).frames
  {
    var b := word + more;
    if |more| >= 4 {
      assert b[0..4] == word[0..4];
      assert b[4..] == more;
    }
  }

  /** One feed gives what the scanner finds now, and leaves what it needs to find the rest later. */
  lemma {:induction false} DrainAgrees(b: seq<Byte>, more: seq<Byte>)
    requires |b| % 4 == 0 && |more| % 4 == 0
    ensures |Drain(b).rest| % 4 == 0
    ensures Scan(b + more).frames == Drain(b).frames + Scan(Drain(b).rest + more).frames
    decreases |b|
  {
    hide FrontOf, DiscardFrom;
    match FrontOf(b)
    case Wait =>
      assert Drain(b) == Drained([], b, 0);
      EmptyFirst(Scan(b + more).frames);
    case NoHeader =>
      DiscardAgrees(b, more);
      var d := DiscardFrom(b, 4);
      if d.found {
        DrainAgrees(d.rest, more);
        assert Drain(b) == Drain(d.rest).Skipped();
      } else {
        assert Drain(b) == Drained([], d.rest, 1);
        EmptyFirst(Scan(d.rest + more).frames);
      }
    case Corrupt =>
      ScanStep(b, more);
      StillAligned(|b|, 4);
      DrainAgrees(b[4..], more);
      assert Drain(b) == Drain(b[4..]).Skipped();
    case Complete(n) =>
      ScanStep(b, more);
      StillAligned(|b|, n);
      DrainAgrees(b[n..], more);
      DrainComplete(b, n, Scan(Drain(b[n..]).rest + more).frames);
  }

  lemma {:induction false} StillAligned(m: int, n: int)
    requires m % 4 == 0 && n % 4 == 0
    ensures (m - n) % 4 == 0 && (m + n) % 4 == 0
  {
  }

  lemma {:induction false} EmptyFirst(frames: seq<seq<Byte>>)
    ensures [] + frames == frames
  {
  }

  lemma {:induction false} DrainComplete(b: seq<Byte>, n: nat, later: seq<seq<Byte>>)
    requires FrontOf(b) == Complete(n)
    ensures Drain(b).rest == Drain(b[n..]).rest
    ensures Drain(b).frames + later == [b[..n]] + (Drain(b[n..]).frames + later)
  {
    var first, rest := b[..n], Drain(b[n..]);
    assert Drain(b) == rest.Prepend(first);
    AppendAssociates([first], rest.frames, later);
  }

  /** More bytes do not change what the scanner does at a front it can already judge. */
  lemma {:induction false} ScanStep(b: seq<Byte>, more: seq<Byte>)
    requires FrontOf(b).Corrupt? || FrontOf(b).Complete?
    ensures FrontOf(b).Corrupt? ==> Scan(b + more) == Scan(b[4..] + more)
    ensures FrontOf(b).Complete? ==>
              var n := FrontOf(b).size;
              Scan(b + more).frames == [b[..n]] + Scan(b[n..] + more).frames
  {
    FrontStays(b, more);
    var n := if FrontOf(b).Corrupt? then 4 else FrontOf(b).size;
    assert (b + more)[n..] == b[n..] + more;
    assert (b + more)[..n] == b[..n];
  }

  lemma {:induction false} FrontStays(b: seq<Byte>, more: seq<Byte>)
    requires !FrontOf(b).Wait?
    ensures FrontOf(b + more) == FrontOf(b)
  {
    var c := b + more;
    assert c[0..4] == b[0..4] && c[4..8] == b[4..8];
    if HeaderAt(b, 0) {
      assert c[..FrameBytes(b)] == b[..FrameBytes(b)];
    }
  }

  lemma {:induction false} DiscardAgrees(b: seq<Byte>, more: seq<Byte>)
    requires |b| % 4 == 0 && |more| % 4 == 0 && FrontOf(b) == NoHeader
    ensures var d := DiscardFrom(b, 4);
            |d.rest| % 4 == 0 && Scan(b + more).frames == Scan(d.rest + more).frames
  {
    hide Scan, DiscardFrom;
    var d := DiscardFrom(b, 4);
    var n := DiscardStops(b, 1);
    if d.found {
      StillAligned(|b|, 4 * n);
      SkipWords(b, more, n);
    } else {
      var words := |b| / 4;
      assert |b| == 4 * words;
      SkipWords(b, more, words - 1);
      LastWord(b, more);
    }
  }

  lemma {:induction false} SkipWords(b: seq<Byte>, more: seq<Byte>, n: nat)
    requires |b| >= 8 && !HeaderAt(b, 0) && 4 * n + 4 <= |b| && NoHeaders(b, 1, n)
    ensures Scan(b + more) == Scan(b[4 * n..] + more)
  {
    forall k | 0 <= k < n
      ensures 4 * k + 8 <= |b + more| && !HeaderAt(b + more, 4 * k)
    {
      if k == 0 {
        assert (b + more)[0..8] == b[0..8];
      } else {
        assert (b + more)[4 * k..4 * k + 8] == b[4 * k..4 * k + 8];
      }
      SameHeader(b, b + more, 4 * k, 0);
    }
    ScanSkips(b + more, n);
    assert (b + more)[4 * n..] == b[4 * n..] + more;
  }

  lemma {:induction false} LastWord(b: seq<Byte>, more: seq<Byte>)
    requires |b| >= 8 && |more| % 4 == 0 && !DiscardFrom(b, 4).found
    ensures var rest := DiscardFrom(b, 4).rest;
            |rest| % 4 == 0 && Scan(b[|b| - 4..] + more).frames == Scan(rest + more).frames
  {
    DiscardKeepsAWord(b, 4);
    DiscardDropsAWord(b, 4);
    if DiscardFrom(b, 4).rest == [] {
      NotAVersion(b[|b| - 4..], more);
      assert [] + more == more;
    }
  }

  lemma {:induction false} DiscardDropsAWord(b: seq<Byte>, offset: nat)
    requires offset >= 4 && |b| >= 8
    ensures var d := DiscardFrom(b, offset);
            !d.found && d.rest == [] ==> Word(b[|b| - 4..], 0) != PROTOCOL_VERSION
    decreases |b| - offset
  {
    if offset + 8 <= |b| && !HeaderAt(b, offset) {
      DiscardDropsAWord(b, offset + 4);
    } else if offset + 8 > |b| {
      assert b[|b| - 4..][0..4] == b[|b| - 4..|b| - 4 + 4];
    }
  }

  predicate WordAligned(chunks: seq<seq<Byte>>) {
    forall chunk | chunk in chunks :: |chunk| % 4 == 0
  }

  /**
   On any stream, however it is cut into word-aligned chunks, the buffer gives back exactly the frames
   the word-by-word scanner finds in the whole stream.
   */
  lemma {:induction false} AlignedChunksAgreeWithScanner(buffer: seq<Byte>, chunks: seq<seq<Byte>>, maximum: nat)
    requires |buffer| % 4 == 0 && WordAligned(chunks)
    requires FeedAll(buffer, chunks, maximum).outcome.Success?
    requires Scan(buffer).frames == []
    ensures FeedAll(buffer, chunks, maximum).outcome.value == Scan(buffer + Flatten(chunks)).frames
    decreases |chunks|
  {
    hide Scan, Drain;
    if chunks == [] {
      assert buffer + [] == buffer;
    } else {
      var received, later := buffer + chunks[0], Flatten(chunks[1..]);
      assert chunks[0] in chunks && WordAligned(chunks[1..]);
      FlattenAligned(chunks[1..]);
      StillAligned(|buffer|, |chunks[0]|);
      OneChunk(received, later);
      AlignedChunksAgreeWithScanner(Drain(received).rest, chunks[1..], maximum);
      assert buffer + Flatten(chunks) == received + later;
    }
  }

  lemma {:induction false} OneChunk(received: seq<Byte>, later: seq<Byte>)
    requires |received| % 4 == 0 && |later| % 4 == 0
    ensures var rest := Drain(received).rest;
            && |rest| % 4 == 0 && Scan(rest).frames == []
            && Scan(received + later).frames == Drain(received).frames + Scan(rest + later).frames
  {
    DrainAgrees(received, later);
    Settled(received);
    NothingYet(Drain(received).rest);
  }

  lemma {:induction false} FlattenAligned(chunks: seq<seq<Byte>>)
    requires WordAligned(chunks)
    ensures |Flatten(chunks)| % 4 == 0
  {
    if chunks != [] {
      assert chunks[0] in chunks && WordAligned(chunks[1..]);
      FlattenAligned(chunks[1..]);
      StillAligned(|chunks[0]|, |Flatten(chunks[1..])|);
      assert |Flatten(chunks)| == |chunks[0]| + |Flatten(chunks[1..])|;
    }
  }

  /** What a feed leaves holds no frame, nor garbage to skip. */
  lemma {:induction false} Settled(b: seq<Byte>)
    ensures Drain(Drain(b).rest) == Drained([], Drain(b).rest, 0)
    decreases |b|
  {
    match FrontOf(b)
    case Wait =>
    case NoHeader =>
      var d := DiscardFrom(b, 4);
      if d.found {
        Settled(d.rest);
      } else {
        DiscardKeepsAWord(b, 4);
      }
    case Corrupt => Settled(b[4..]);
    case Complete(n) => Settled(b[n..]);
  }

  lemma {:induction false} NothingYet(b: seq<Byte>)
    requires Drain(b) == Drained([], b, 0)
    ensures Scan(b).frames == []
  {
    match FrontOf(b)
    case Wait =>
    case NoHeader =>
    case Corrupt =>
    case Complete(n) =>
  }

  // ---------- unaligned chunks of garbage ----------

  /** The discard keeps the stream's word alignment exactly when it found a header or the buffer was aligned. */
  lemma {:induction false} DiscardKeepsAlignment(b: seq<Byte>)
    requires |b| >= 8
    ensures var d := DiscardFrom(b, 4);
            (|b| - |d.rest|) % 4 == 0 <==> d.found || |b| % 4 == 0
  {
    var n := DiscardStops(b, 1);
    DiscardKeepsAWord(b, 4);
  }

  /**
   Alignment matters: when a read ends one byte into a frame that follows eight bytes of garbage, the
   buffer throws that byte away with the garbage, and the scanner keeps it.
   */
  lemma {:induction false} UnalignedReadDropsAByte(x: Byte)
    requires x != PROTOCOL_VERSION
    ensures var received := [0, 0, 0, 0, 0, 0, 0, 0, x];
            Drain(received) == Drained([], [], 1) && Scan(received) == Scanned([], [0, 0, 0, 0, x])
  {
    var received: seq<Byte> := [0, 0, 0, 0, 0, 0, 0, 0, x];
    assert received[0..4] == [0, 0, 0, 0] && received[5..9] == [0, 0, 0, x];
    assert received[4..] == [0, 0, 0, 0, x];
    assert !HeaderAt(received, 0);
  }

  /** Fewer bytes than the shortest frame give none. */
  lemma {:induction false} ShortGivesNothing(b: seq<Byte>)
    requires |b| < 36
    ensures Drain(b).frames == []
    decreases |b|
  {
    match FrontOf(b)
    case Wait =>
    case NoHeader =>
      var d := DiscardFrom(b, 4);
      if d.found {
        ShortGivesNothing(d.rest);
      }
    case Corrupt =>
    case Complete(n) =>
  }

  lemma {:induction false} StartsWithZero(frame: seq<Byte>)
    requires |frame| >= 8 && HeaderAt(frame, 0)
    ensures frame[0] == 0
  {
    var u := GetUnsigned(frame[0..4]);
    assert u == 1;
    var a: int, b: int, c: int, d: int := frame[0..4][0], frame[0..4][1], frame[0..4][2], frame[0..4][3];
    assert a * 0x100_0000 + b * 0x1_0000 + c * 256 + d == 1;
  }

  /** And so the frame is lost, where the scanner finds it. */
  lemma {:induction false} UnalignedReadLosesTheFrame(frame: seq<Byte>)
    requires WholeFrame(frame) && |frame| == 36
    ensures var garbage: seq<Byte> := [0, 0, 0, 0, 0, 0, 0, 0];
            && FeedAll([], [garbage + frame[..1], frame[1..]], MAXIMUM_BYTES).outcome == Success([])
            && Scan(garbage + frame).frames == [frame]
  {
    hide Drain, Scan, WholeFrame, FeedAll;
    var garbage: seq<Byte> := [0, 0, 0, 0, 0, 0, 0, 0];
    assert |frame| >= 8 && HeaderAt(frame, 0) by { WholeHasHeader(frame); }
    StartsWithZero(frame);
    var first := garbage + frame[..1];
    assert first == [0, 0, 0, 0, 0, 0, 0, 0, frame[0]];
    UnalignedReadDropsAByte(frame[0]);
    ShortGivesNothing(frame[1..]);
    LostInTwoReads(first, frame[1..]);
    ZeroWordIsDropped(frame);
    ZeroWordIsDropped([0, 0, 0, 0] + frame);
    assert garbage + frame == [0, 0, 0, 0] + ([0, 0, 0, 0] + frame);
    OneFrameScans(frame);
  }

  lemma {:induction false} WholeHasHeader(frame: seq<Byte>)
    requires WholeFrame(frame)
    ensures |frame| >= 8 && HeaderAt(frame, 0)
  {
  }

  lemma {:induction false} LostInTwoReads(first: seq<Byte>, second: seq<Byte>)
    requires |first| <= MAXIMUM_BYTES && |second| <= MAXIMUM_BYTES
    requires Drain(first) == Drained([], [], 1) && Drain(second).frames == []
    ensures FeedAll([], [first, second], MAXIMUM_BYTES).outcome == Success([])
  {
    hide Drain;
    var buffer: seq<Byte> := [];
    assert buffer + first == first && buffer + second == second;
    assert [first, second][1..] == [second];
    var none: seq<seq<Byte>> := [];
    var end := FeedAll(Drain(second).rest, none, MAXIMUM_BYTES);
    assert [second][1..] == none && end.outcome == Success([]);
    CarryOnFromNone(end);
    CarryOnFromNone(FeedAll(buffer, [second], MAXIMUM_BYTES));
  }

  lemma {:induction false} ZeroWordIsDropped(later: seq<Byte>)
    requires |later| >= 4
    ensures Scan([0, 0, 0, 0] + later) == Scan(later)
  {
    var b: seq<Byte> := [0, 0, 0, 0] + later;
    assert b[0..4] == [0, 0, 0, 0] && b[4..] == later;
    assert !HeaderAt(b, 0);
  }

  lemma {:induction false} OneFrameScans(frame: seq<Byte>)
    requires WholeFrame(frame)
    ensures Scan(frame).frames == [frame]
  {
    WholeFront(frame, []);
    assert frame + [] == frame;
    assert Scan([]) == Scanned([], []);
  }

  // ---------- clean streams ----------

  predicate AllWhole(frames: seq<seq<Byte>>) {
    forall frame | frame in frames :: WholeFrame(frame)
  }

  /** What has been received of a clean stream is drained into its whole frames and the start of the next. */
  lemma {:induction false} CleanDrain(b: seq<Byte>, later: seq<Byte>, frames: seq<seq<Byte>>)
    returns (got: seq<seq<Byte>>, left: seq<seq<Byte>>, rest: seq<Byte>)
    requires AllWhole(frames) && b + later == Flatten(frames)
    ensures frames == got + left && Drain(b) == Drained(got, rest, 0)
    ensures rest + later == Flatten(left) && OnlyPart(rest, left)
    decreases |frames|
  {
    if frames == [] {
      got, left, rest := [], [], [];
    } else {
      var first := frames[0];
      assert first in frames;
      if |b| < |first| {
        PartialFront(b, first, Flatten(frames[1..]));
        got, left, rest := [], frames, b;
      } else {
        var c := b[|first|..];
        assert b[..|first|] == (b + later)[..|first|] == first;
        assert c + later == (b + later)[|first|..] == Flatten(frames[1..]);
        got, left, rest := CleanDrain(c, later, frames[1..]);
        WholeFront(first, c);
        assert b == first + c;
        assert Drain(b) == Drain(c).Prepend(first);
        got := [first] + got;
      }
    }
  }

  /** `rest` is shorter than the first of the frames still to come. */
  predicate OnlyPart(rest: seq<Byte>, left: seq<seq<Byte>>) {
    if left == [] then rest == [] else |rest| < |left[0]|
  }

  lemma {:induction false} WholeFront(frame: seq<Byte>, more: seq<Byte>)
    requires WholeFrame(frame)
    ensures FrontOf(frame + more) == Complete(|frame|)
    ensures (frame + more)[..|frame|] == frame && (frame + more)[|frame|..] == more
  {
    var b := frame + more;
    assert b[0..4] == frame[0..4] && b[4..8] == frame[4..8];
    assert b[..|frame|] == frame;
  }

  lemma {:induction false} PartialFront(b: seq<Byte>, frame: seq<Byte>, more: seq<Byte>)
    requires WholeFrame(frame) && |b| < |frame| && b <= frame + more
    ensures FrontOf(b) == Wait
  {
    if |b| >= 8 {
      assert b[0..4] == (frame + more)[0..4] == frame[0..4];
      assert b[4..8] == (frame + more)[4..8] == frame[4..8];
    }
  }

  /**
   A connection that ends anywhere in a stream of whole frames has given back exactly the frames that had arrived
   whole, however its bytes were cut; the start of the next one is what stays in the buffer.
   */
  lemma {:induction false} CutStreamsGiveAPrefix(buffer: seq<Byte>, chunks: seq<seq<Byte>>, unread: seq<Byte>,
        frames: seq<seq<Byte>>)
    returns (got: seq<seq<Byte>>, left: seq<seq<Byte>>, rest: seq<Byte>)
    requires AllWhole(frames) && buffer + Flatten(chunks) + unread == Flatten(frames) && OnlyPart(buffer, frames)
    requires forall chunk | chunk in chunks :: |chunk| <= RECEIVE_BYTES
    ensures frames == got + left && FeedAll(buffer, chunks, MAXIMUM_BYTES) == Fed(rest, Success(got))
    ensures rest + unread == Flatten(left) && OnlyPart(rest, left)
    decreases |chunks|
  {
    if chunks == [] {
      got, left, rest := [], frames, buffer;
      assert buffer + Flatten(chunks) == buffer;
    } else {
      hide *;
      OneMoreChunk(buffer, chunks, unread);
      var first, others, kept := CleanDrain(buffer + chunks[0], Flatten(chunks[1..]) + unread, frames);
      LaterAreWhole(first, others, frames);
      Regroup(kept, Flatten(chunks[1..]), unread);
      var more;
      more, left, rest := CutStreamsGiveAPrefix(kept, chunks[1..], unread, others);
      got := first + more;
      AppendAssociates(first, more, left);
      FeedOneMore(buffer, chunks, frames, first, kept, more, rest);
    }
  }

  lemma {:induction false} Regroup(a: seq<Byte>, b: seq<Byte>, c: seq<Byte>)
    ensures a + (b + c) == a + b + c
  {
  }

  lemma {:induction false} OneMoreChunk(buffer: seq<Byte>, chunks: seq<seq<Byte>>, unread: seq<Byte>)
    requires chunks != []
    ensures buffer + chunks[0] + (Flatten(chunks[1..]) + unread) == buffer + Flatten(chunks) + unread
    ensures forall chunk | chunk in chunks[1..] :: chunk in chunks
  {
    var later := Flatten(chunks[1..]);
    assert Flatten(chunks) == chunks[0] + later;
    Regroup(buffer, chunks[0], later);
    Regroup(buffer + chunks[0], later, unread);
  }

  lemma {:induction false} LaterAreWhole(first: seq<seq<Byte>>, others: seq<seq<Byte>>, frames: seq<seq<Byte>>)
    requires AllWhole(frames) && frames == first + others
    ensures AllWhole(others)
  {
    hide WholeFrame;
    assert forall frame | frame in others :: frame in frames;
  }

  lemma {:induction false} FeedOneMore(buffer: seq<Byte>, chunks: seq<seq<Byte>>, frames: seq<seq<Byte>>,
                                       first: seq<seq<Byte>>, kept: seq<Byte>, more: seq<seq<Byte>>, rest: seq<Byte>)
    requires AllWhole(frames) && OnlyPart(buffer, frames)
    requires chunks != [] && forall chunk | chunk in chunks :: |chunk| <= RECEIVE_BYTES
    requires Drain(buffer + chunks[0]) == Drained(first, kept, 0)
    requires FeedAll(kept, chunks[1..], MAXIMUM_BYTES) == Fed(rest, Success(more))
    ensures FeedAll(buffer, chunks, MAXIMUM_BYTES) == Fed(rest, Success(first + more))
  {
    BufferIsSmall(buffer, frames);
    assert chunks[0] in chunks;
    hide Drain, WholeFrame;
  }

  lemma {:induction false} OnlyPartIsLess(rest: seq<Byte>, left: seq<seq<Byte>>)
    requires OnlyPart(rest, left) && rest == Flatten(left)
    ensures left == []
  {
  }

  lemma {:induction false} BufferIsSmall(buffer: seq<Byte>, frames: seq<seq<Byte>>)
    requires AllWhole(frames) && OnlyPart(buffer, frames)
    ensures |buffer| < 200
  {
    if frames != [] {
      assert frames[0] in frames;
    }
  }

  /** Any byte-wise split of a concatenation of whole frames is reassembled to exactly those frames. */
  lemma {:induction false} CleanStreamsReassemble(buffer: seq<Byte>, chunks: seq<seq<Byte>>, frames: seq<seq<Byte>>)
    requires AllWhole(frames) && buffer + Flatten(chunks) == Flatten(frames) && OnlyPart(buffer, frames)
    requires forall chunk | chunk in chunks :: |chunk| <= RECEIVE_BYTES
    ensures FeedAll(buffer, chunks, MAXIMUM_BYTES) == Fed([], Success(frames))
  {
    assert buffer + Flatten(chunks) + [] == Flatten(frames);
    var got, left, rest := CutStreamsGiveAPrefix(buffer, chunks, [], frames);
    assert rest + [] == rest;
    OnlyPartIsLess(rest, left);
    assert got + [] == got;
  }
}
