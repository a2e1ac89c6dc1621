/** What both ends of the mill connection make of a whole stream, however it is cut. */
module MillStreams {
  import opened Outcomes
  import opened Bytes
  import opened MillFrames

  /** Read after read from one connection, until one fails. */
  function BackendFeedAll(buffer: seq<Byte>, chunks: seq<seq<Byte>>,
        readable: Payload -> bool): (Result<seq<Payload>, MessageError>, seq<Byte>)
    decreases |chunks|
  {
    if chunks == [] then (Success([]), buffer) else
      var fed := BackendFeed(buffer, chunks[0], readable);
      if fed.0.Failure? then fed else AddFirst(fed.0.value, BackendFeedAll(fed.1, chunks[1..], readable))
  }

  function AgentFeedAll(buffer: seq<Byte>, chunks: seq<seq<Byte>>,
        readable: Payload -> bool): (Result<seq<Payload>, MessageError>, seq<Byte>)
    decreases |chunks|
  {
    if chunks == [] then (Success([]), buffer) else
      var fed := AgentFeed(buffer, chunks[0], readable);
      if fed.0.Failure? then fed else AddFirst(fed.0.value, AgentFeedAll(fed.1, chunks[1..], readable))
  }

  function AddFirst(payloads: seq<Payload>, later: (Result<seq<Payload>, MessageError>,
        seq<Byte>)): (Result<seq<Payload>, MessageError>, seq<Byte>) {
    if later.0.Failure? then later else (Success(payloads + later.0.value), later.1)
  }

  // ---------- one message ----------

  /** Decoding undoes encoding exactly for readable payloads of at least two bytes. */
  lemma {:induction false} MessageRoundTrip(payload: Payload, readable: Payload -> bool)
    ensures EncodeMessage(payload).Success? <==> |payload| <= MAXIMUM_FRAME
    ensures EncodeMessage(payload).Success? ==>
              (CutAll(EncodeMessage(payload).value, readable) == Cut([payload], [], None) <==> |payload| >= 2 && readable(payload))
    ensures |payload| < 2 ==> CutAll(EncodeMessage(payload).value, readable).stopped == Some(BadLength)
  {
    if |payload| <= MAXIMUM_FRAME {
      var b := EncodeMessage(payload).value;
      GetPutUnsigned(|payload|);
      assert b[..4] == PutUnsigned(|payload|) && b[4..] == payload;
      if |payload| >= 2 {
        assert b[4..|payload| + 4] == payload && b[|payload| + 4..] == [];
      }
    }
  }

  // ---------- any stream, any cut ----------

  /** Reading some bytes and then more is reading them all. */
  lemma {:induction false} CutContinues(b: seq<Byte>, more: seq<Byte>, readable: Payload -> bool)
    ensures var first, whole := CutAll(b, readable), CutAll(b + more, readable);
            if first.stopped.None? then whole == CutAll(first.rest + more, readable).After(first.payloads)
            else whole.payloads == first.payloads && whole.stopped == first.stopped
    decreases |b|
  {
    hide GetUnsigned;
    if |b| >= 4 {
      assert (b + more)[..4] == b[..4];
      var size := SizeOf(b);
      if SizeAllowed(size) && |b| >= size + 4 {
        var raw := b[4..size + 4];
        assert (b + more)[4..size + 4] == raw && (b + more)[size + 4..] == b[size + 4..] + more;
        if readable(raw) {
          CutContinues(b[size + 4..], more, readable);
          var later := CutAll(b[size + 4..], readable);
          PrependAfter(CutAll(later.rest + more, readable), raw, later.payloads);
        }
      } else {
        NothingEarlier(CutAll(b + more, readable));
      }
    } else {
      NothingEarlier(CutAll(b + more, readable));
    }
  }

  lemma {:induction false} PrependAfter(cut: Cut, payload: Payload, payloads: seq<Payload>)
    ensures cut.After([payload] + payloads) == cut.After(payloads).Prepend(payload)
  {
    assert [payload] + payloads + cut.payloads == [payload] + (payloads + cut.payloads);
  }

  /** Bytes that hold no whole message yet. */
  predicate Settled(b: seq<Byte>) {
    |b| < 4 || (SizeAllowed(SizeOf(b)) && |b| < SizeOf(b) + 4)
  }

  lemma {:induction false} SettledIff(b: seq<Byte>, readable: Payload -> bool)
    ensures Settled(b) <==> CutAll(b, readable) == Cut([], b, None)
  {
  }

  lemma {:induction false} LeftoverIsSettled(b: seq<Byte>, readable: Payload -> bool)
    requires CutAll(b, readable).stopped.None?
    ensures Settled(CutAll(b, readable).rest)
    decreases |b|
  {
    if |b| >= 4 && |b| >= SizeOf(b) + 4 {
      LeftoverIsSettled(b[SizeOf(b) + 4..], readable);
    }
  }

  lemma {:induction false} SettledIsSmall(b: seq<Byte>)
    requires Settled(b)
    ensures |b| < MAXIMUM_FRAME + 4
  {
  }

  predicate SocketReads(chunks: seq<seq<Byte>>) {
    forall i | 0 <= i < |chunks| :: 0 < |chunks[i]| <= RECEIVE_BYTES
  }

  /** What a connection's bytes amount to, however they were read. */
  function Whole(bytes: seq<Byte>, readable: Payload -> bool): Result<seq<Payload>, MessageError> {
    var cut := CutAll(bytes, readable);
    if cut.stopped.None? then Success(cut.payloads) else Failure(cut.stopped.value)
  }

  lemma {:induction false} OneRead(buffer: seq<Byte>, chunk: seq<Byte>, readable: Payload -> bool)
    requires Settled(buffer) && 0 < |chunk| <= RECEIVE_BYTES
    ensures BackendFeed(buffer, chunk, readable).0 == AgentFeed(buffer, chunk, readable).0 == Whole(buffer + chunk, readable)
    ensures Whole(buffer + chunk, readable).Success? ==>
              && BackendFeed(buffer, chunk, readable).1 == AgentFeed(buffer, chunk, readable).1 == CutAll(buffer + chunk, readable).rest
              && Settled(CutAll(buffer + chunk, readable).rest)
  {
    SettledIsSmall(buffer);
    if Whole(buffer + chunk, readable).Success? {
      LeftoverIsSettled(buffer + chunk, readable);
    }
  }

  /**
   Whatever the bytes and however the socket cuts them, either end takes what the whole of them amounts to for its
   reader, and the backend's double-frame limit is never reached.
   */
  lemma {:induction false} AnyCutIsWhole(buffer: seq<Byte>, chunks: seq<seq<Byte>>, readable: Payload -> bool)
    requires Settled(buffer) && SocketReads(chunks)
    ensures var whole := Whole(buffer + Flatten(chunks), readable);
            && BackendFeedAll(buffer, chunks, readable).0 == AgentFeedAll(buffer, chunks, readable).0 == whole
            && whole != Failure(LimitExceeded)
            && (whole.Success? ==>
                  BackendFeedAll(buffer, chunks, readable).1 == AgentFeedAll(buffer, chunks, readable).1
                  == CutAll(buffer + Flatten(chunks), readable).rest)
    decreases |chunks|
  {
    hide Settled;
    NeverTheLimit(buffer + Flatten(chunks), readable);
    if chunks == [] {
      assert buffer + Flatten(chunks) == buffer;
      SettledIff(buffer, readable);
    } else {
      var received, later := buffer + chunks[0], Flatten(chunks[1..]);
      assert buffer + Flatten(chunks) == received + later;
      OneRead(buffer, chunks[0], readable);
      CutContinues(received, later, readable);
      var first := CutAll(received, readable);
      if first.stopped.None? {
        assert SocketReads(chunks[1..]);
        hide CutAll, BackendFeed, AgentFeed;
        AnyCutIsWhole(first.rest, chunks[1..], readable);
      }
    }
  }

  lemma {:induction false} NeverTheLimit(b: seq<Byte>, readable: Payload -> bool)
    ensures CutAll(b, readable).stopped in [None, Some(BadLength), Some(Unreadable)]
    decreases |b|
  {
    if |b| >= 4 && SizeAllowed(SizeOf(b)) && |b| >= SizeOf(b) + 4 {
      NeverTheLimit(b[SizeOf(b) + 4..], readable);
    }
  }

  // ---------- two ends, two readers ----------

  /** The agent takes any JSON text; the backend also wants an object of its protocol version. */
  ghost predicate Stricter(backendReads: Payload -> bool, agentReads: Payload -> bool) {
    forall payload :: backendReads(payload) ==> agentReads(payload)
  }

  predicate AllRead(payloads: seq<Payload>, takes: Payload -> bool) {
    forall payload | payload in payloads :: takes(payload)
  }

  /** The payloads before the first that is refused. */
  function ReadFirst(payloads: seq<Payload>, takes: Payload -> bool): seq<Payload> {
    if payloads == [] || !takes(payloads[0]) then [] else [payloads[0]] + ReadFirst(payloads[1..], takes)
  }

  /** The stricter reader makes the same of the bytes, or stops at the first payload that only the other one reads. */
  lemma {:induction false} StricterReader(b: seq<Byte>, agentReads: Payload -> bool, backendReads: Payload -> bool)
    requires Stricter(backendReads, agentReads)
    ensures var agent, backend := CutAll(b, agentReads), CutAll(b, backendReads);
            if AllRead(agent.payloads, backendReads) then backend == agent
            else backend.stopped == Some(Unreadable) && backend.payloads == ReadFirst(agent.payloads, backendReads)
    decreases |b|
  {
    if |b| >= 4 && SizeAllowed(SizeOf(b)) && |b| >= SizeOf(b) + 4 {
      var raw, later := b[4..SizeOf(b) + 4], b[SizeOf(b) + 4..];
      if agentReads(raw) {
        StricterReader(later, agentReads, backendReads);
        FirstAndLater(raw, CutAll(later, agentReads).payloads, backendReads);
      }
    }
  }

  lemma {:induction false} FirstAndLater(first: Payload, later: seq<Payload>, takes: Payload -> bool)
    ensures AllRead([first] + later, takes) <==> takes(first) && AllRead(later, takes)
    ensures ReadFirst([first] + later, takes) == if takes(first) then [first] + ReadFirst(later, takes) else []
  {
    assert ([first] + later)[1..] == later;
    if AllRead([first] + later, takes) {
      assert first in [first] + later;
      forall payload | payload in later
        ensures takes(payload)
      {
        assert payload in [first] + later;
      }
    }
  }

  /**
   Whatever the bytes and however they are cut on their way to either end: if the backend reads all that the agent takes,
   both take the same payloads or fail alike; otherwise the backend fails with an unreadable payload, as the agent does
   only if it meets one of its own.
   */
  lemma {:induction false} BothEndsAgree(buffer: seq<Byte>, toAgent: seq<seq<Byte>>, toBackend: seq<seq<Byte>>,
      agentReads: Payload -> bool, backendReads: Payload -> bool)
    requires Settled(buffer) && SocketReads(toAgent) && SocketReads(toBackend) && Flatten(toAgent) == Flatten(toBackend)
    requires Stricter(backendReads, agentReads)
    ensures var agent, backend := AgentFeedAll(buffer, toAgent, agentReads).0, BackendFeedAll(buffer, toBackend, backendReads).0;
            var alike := AllRead(CutAll(buffer + Flatten(toAgent), agentReads).payloads, backendReads);
            && agent == Whole(buffer + Flatten(toAgent), agentReads)
            && agent != Failure(LimitExceeded)
            && (if alike then backend == agent else backend == Failure(Unreadable))
            && (backend == agent <==> alike || agent == Failure(Unreadable))
  {
    AnyCutIsWhole(buffer, toAgent, agentReads);
    AnyCutIsWhole(buffer, toBackend, backendReads);
    StricterReader(buffer + Flatten(toAgent), agentReads, backendReads);
    hide CutAll, Flatten, AgentFeedAll, BackendFeedAll, Settled;
  }

  /** The two do part: `{}` is a message to the agent and a breach of the protocol to the backend. */
  lemma {:induction false} EmptyObjectDivides(agentReads: Payload -> bool, backendReads: Payload -> bool)
    requires agentReads([123, 125]) && !backendReads([123, 125])
    ensures AgentFeed([], [0, 0, 0, 2, 123, 125], agentReads) == (Success([[123, 125]]), [])
    ensures BackendFeed([], [0, 0, 0, 2, 123, 125], backendReads) == (Failure(Unreadable), [])
  {
    var b: seq<Byte> := [0, 0, 0, 2, 123, 125];
    assert [] + b == b && b[..4] == [0, 0, 0, 2] && b[4..6] == [123, 125] && b[6..] == [];
    assert SizeOf(b) == 2;
    var p: Payload := [123, 125];
    assert CutAll(b, agentReads) == CutAll(b[6..], agentReads).Prepend(p);
    assert CutAll(b[6..], agentReads) == Cut([], [], None);
    assert [p] + [] == [p];
  }

  // ---------- clean streams ----------

  predicate Sendable(payload: Payload, readable: Payload -> bool) {
    2 <= |payload| <= MAXIMUM_FRAME && readable(payload)
  }

  predicate AllSendable(payloads: seq<Payload>, readable: Payload -> bool) {
    forall i | 0 <= i < |payloads| :: Sendable(payloads[i], readable)
  }

  function Stream(payloads: seq<Payload>): seq<Byte>
    requires forall i | 0 <= i < |payloads| :: |payloads[i]| <= MAXIMUM_FRAME
  {
    if payloads == [] then [] else EncodeMessage(payloads[0]).value + Stream(payloads[1..])
  }

  lemma {:induction false} CleanStream(payloads: seq<Payload>, readable: Payload -> bool)
    requires AllSendable(payloads, readable)
    ensures CutAll(Stream(payloads), readable) == Cut(payloads, [], None)
  {
    if payloads != [] {
      var first, later := EncodeMessage(payloads[0]).value, Stream(payloads[1..]);
      MessageRoundTrip(payloads[0], readable);
      CutContinues(first, later, readable);
      CleanStream(payloads[1..], readable);
      assert [] + later == later;
      assert [payloads[0]] + payloads[1..] == payloads;
    }
  }

  /** Any byte-wise cut of any messages that both ends can read is decoded to exactly those messages, at either end. */
  lemma {:induction false} MessagesSurviveFragmentation(payloads: seq<Payload>, toAgent: seq<seq<Byte>>,
        toBackend: seq<seq<Byte>>,
      agentReads: Payload -> bool, backendReads: Payload -> bool)
    requires SocketReads(toAgent) && AllSendable(payloads, agentReads) && Flatten(toAgent) == Stream(payloads)
    requires SocketReads(toBackend) && AllSendable(payloads, backendReads) && Flatten(toBackend) == Stream(payloads)
    ensures AgentFeedAll([], toAgent, agentReads) == BackendFeedAll([], toBackend, backendReads) == (Success(payloads), [])
  {
    CleanStream(payloads, agentReads);
    CleanStream(payloads, backendReads);
    assert [] + Stream(payloads) == Stream(payloads);
    hide Stream;
    AnyCutIsWhole([], toAgent, agentReads);
    AnyCutIsWhole([], toBackend, backendReads);
  }

  // ---------- the agent's buffer outlives its connection ----------

  /** Whatever messages a new connection brings, exactly they are decoded. */
  ghost predicate DecodesNewConnection(leftover: seq<Byte>, readable: Payload -> bool) {
    forall payloads | AllSendable(payloads, readable) :: CutAll(leftover + Stream(payloads), readable) == Cut(payloads, [], None)
  }

  lemma {:induction false} SmallPrefix(n: int)
    requires 0 <= n < 256
    ensures PutUnsigned(n) == [0, 0, 0, n]
  {
  }

  /** Bytes left of an earlier connection swallow a short first message of the next one, or spoil its length. */
  lemma {:induction false} LeftoverSpoils(leftover: seq<Byte>, payload: Payload, readable: Payload -> bool)
    requires Settled(leftover) && leftover != []
    requires 2 <= |payload| < 256 && (|leftover| >= 4 ==> SizeOf(leftover) != |payload|)
    ensures CutAll(leftover + Stream([payload]), readable) != Cut([payload], [], None)
  {
    var n := |payload|;
    SmallPrefix(n);
    var b := leftover + Stream([payload]);
    assert Stream([payload]) == PutUnsigned(n) + payload;
    if |leftover| >= 4 {
      assert b[..4] == leftover[..4];
    } else {
      assert b[..4] == leftover + [0, 0, 0, n][..4 - |leftover|];
      assert GetUnsigned(b[..4]) % 256 == 0;
    }
    assert SizeOf(b) != n;
  }

  /**
   The end of a connection leaves the agent's bytes, and after a reconnect it decodes the new connection's messages exactly
   when nothing was left of the old one.
   */
  lemma {:induction false} ReconnectIsCleanIffNothingIsLeft(leftover: seq<Byte>, a: Payload, b: Payload,
        readable: Payload -> bool)
    requires Settled(leftover)
    requires 2 <= |a| < |b| < 256 && readable(a) && readable(b)
    ensures AgentFeed(leftover, [], readable) == (Failure(Closed), leftover)
    ensures DecodesNewConnection(leftover, readable) <==> leftover == []
  {
    if leftover == [] {
      forall payloads | AllSendable(payloads, readable)
        ensures CutAll(leftover + Stream(payloads), readable) == Cut(payloads, [], None)
      {
        CleanStream(payloads, readable);
        assert leftover + Stream(payloads) == Stream(payloads);
      }
    } else {
      var payload := if |leftover| >= 4 && SizeOf(leftover) == |a| then b else a;
      LeftoverSpoils(leftover, payload, readable);
      assert AllSendable([payload], readable);
    }
  }

  lemma {:induction false} BadLengthIsAtTheFront(b: seq<Byte>, readable: Payload -> bool)
    requires CutAll(b, readable).stopped == Some(BadLength)
    ensures var rest := CutAll(b, readable).rest;
            |rest| >= 4 && !SizeAllowed(SizeOf(rest))
    decreases |b|
  {
    if SizeAllowed(SizeOf(b)) {
      BadLengthIsAtTheFront(b[SizeOf(b) + 4..], readable);
    }
  }

  /**
   Once the agent has met a bad length, every later read fails, also after the connection has ended; the backend's buffer
   starts over, as it does beyond its limit.
   */
  lemma {:induction false} BadLengthIsForGood(buffer: seq<Byte>, chunk: seq<Byte>, later: seq<Byte>,
      agentReads: Payload -> bool, backendReads: Payload -> bool)
    requires AgentFeed(buffer, chunk, agentReads).0 == Failure(BadLength) && later != []
    ensures var rest := AgentFeed(buffer, chunk, agentReads).1;
            AgentFeed(rest, later, agentReads).0 == AgentFeed(AgentFeed(rest, [], agentReads).1, later, agentReads).0 == Failure(BadLength)
    ensures var r := BackendFeed(buffer, chunk, backendReads);
            r.0 == Failure(BadLength) || |buffer + chunk| > MAXIMUM_FRAME * 2 ==> r.0.Failure? && r.1 == []
  {
    BadLengthIsAtTheFront(buffer + chunk, agentReads);
    var rest := AgentFeed(buffer, chunk, agentReads).1;
    assert (rest + later)[..4] == rest[..4];
  }
}
