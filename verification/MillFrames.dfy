/**
 The length-prefixed messages between the mill agent and the backend: MessageBuffer of app/mill_supervisor.py and
 receive_messages of app/mill_supervisor_agent.py. A payload is JSON text; `readable` says which payloads parse.
 */
module MillFrames {
  import opened Outcomes
  import opened Bytes

  const MAXIMUM_FRAME := 262144
  const RECEIVE_BYTES := 8192

  type Payload = seq<Byte>

  datatype MessageError = TooLong | BadLength | LimitExceeded | Unreadable | Closed

  function EncodeMessage(payload: Payload): Result<seq<Byte>, MessageError> {
    if |payload| > MAXIMUM_FRAME then Failure(TooLong) else Success(PutUnsigned(|payload|) + payload)
  }

  /** The payloads at the front of some bytes, what is left behind them, and what stopped the reading short. */
  datatype Cut = Cut(payloads: seq<Payload>, rest: seq<Byte>, stopped: Option<MessageError>) {
    function Prepend(payload: Payload): Cut {
      Cut([payload] + payloads, rest, stopped)
    }

    function After(earlier: seq<Payload>): Cut {
      Cut(earlier + payloads, rest, stopped)
    }
  }

  function SizeOf(b: seq<Byte>): int
    requires |b| >= 4
  {
    GetUnsigned(b[..4])
  }

  predicate SizeAllowed(size: int) {
    2 <= size <= MAXIMUM_FRAME
  }

  /** A bad length leaves its bytes in place; an unreadable payload has been taken off. */
  function CutAll(b: seq<Byte>, readable: Payload -> bool): Cut
    decreases |b|
  {
    if |b| < 4 then Cut([], b, None)
    else
      var size := SizeOf(b);
      if !SizeAllowed(size) then Cut([], b, Some(BadLength))
      else if |b| < size + 4 then Cut([], b, None)
      else if !readable(b[4..size + 4]) then Cut([], b[size + 4..], Some(Unreadable))
      else CutAll(b[size + 4..], readable).Prepend(b[4..size + 4])
  }

  // ---------- the backend's buffer ----------

  class MessageBuffer {
    var buffer: seq<Byte>

    constructor ()
      ensures buffer == []
    {
      buffer := [];
    }

    method Feed(chunk: seq<Byte>, readable: Payload -> bool) returns (r: Result<seq<Payload>, MessageError>)
      modifies this
      ensures (r, buffer) == BackendFeed(old(buffer), chunk, readable)
    {
      hide CutAll;
      buffer := buffer + chunk;
      if |buffer| > MAXIMUM_FRAME * 2 {
        buffer := [];
        return Failure(LimitExceeded);
      }
      var messages: seq<Payload> := [];
      ghost var all := CutAll(buffer, readable);
      NothingEarlier(all);
      while |buffer| >= 4
        invariant all == CutAll(buffer, readable).After(messages)
        decreases |buffer|
      {
        CutOne(buffer, readable, messages);
        var size := SizeOf(buffer);
        if size <= 1 || size > MAXIMUM_FRAME {
          buffer := [];
          return Failure(BadLength);
        }
        if |buffer| < size + 4 {
          break;
        }
        var raw := buffer[4..size + 4];
        buffer := buffer[size + 4..];
        if !readable(raw) {
          return Failure(Unreadable);
        }
        messages := messages + [raw];
      }
      CutNone(buffer, readable, messages);
      return Success(messages);
    }
  }

  /** The result of one read, and the buffer it leaves: cleared by a bad length. */
  function BackendFeed(buffer: seq<Byte>, chunk: seq<Byte>, readable: Payload -> bool): (Result<seq<Payload>,
        MessageError>, seq<Byte>) {
    var received := buffer + chunk;
    if |received| > MAXIMUM_FRAME * 2 then (Failure(LimitExceeded), []) else
      var cut := CutAll(received, readable);
      match cut.stopped
      case None => (Success(cut.payloads), cut.rest)
      case Some(e) => (Failure(e), if e == BadLength then [] else cut.rest)
  }

  // ---------- the agent's buffer ----------

  class AgentBuffer {
    var bytes: seq<Byte>

    constructor ()
      ensures bytes == []
    {
      bytes := [];
    }

    method ReceiveMessages(chunk: seq<Byte>, readable: Payload -> bool) returns (r: Result<seq<Payload>, MessageError>)
      modifies this
      ensures (r, bytes) == AgentFeed(old(bytes), chunk, readable)
    {
      hide CutAll;
      if chunk == [] {
        return Failure(Closed);
      }
      bytes := bytes + chunk;
      var messages: seq<Payload> := [];
      ghost var all := CutAll(bytes, readable);
      NothingEarlier(all);
      while |bytes| >= 4
        invariant all == CutAll(bytes, readable).After(messages)
        decreases |bytes|
      {
        CutOne(bytes, readable, messages);
        var length := SizeOf(bytes);
        if length < 2 || length > MAXIMUM_FRAME {
          return Failure(BadLength);
        }
        if |bytes| < length + 4 {
          break;
        }
        var raw := bytes[4..length + 4];
        bytes := bytes[length + 4..];
        if !readable(raw) {
          return Failure(Unreadable);
        }
        messages := messages + [raw];
      }
      CutNone(bytes, readable, messages);
      return Success(messages);
    }
  }

  function AgentFeed(buffer: seq<Byte>, chunk: seq<Byte>, readable: Payload -> bool): (Result<seq<Payload>,
        MessageError>, seq<Byte>) {
    if chunk == [] then (Failure(Closed), buffer) else
      var cut := CutAll(buffer + chunk, readable);
      match cut.stopped
      case None => (Success(cut.payloads), cut.rest)
      case Some(e) => (Failure(e), cut.rest)
  }

  lemma {:induction false} NothingEarlier(cut: Cut)
    ensures cut == cut.After([])
  {
  }

  lemma {:induction false} CutNone(b: seq<Byte>, readable: Payload -> bool, earlier: seq<Payload>)
    requires |b| < 4 || (SizeAllowed(SizeOf(b)) && |b| < SizeOf(b) + 4)
    ensures CutAll(b, readable).After(earlier) == Cut(earlier, b, None)
  {
  }

  lemma {:induction false} CutOne(b: seq<Byte>, readable: Payload -> bool, earlier: seq<Payload>)
    requires |b| >= 4
    ensures CutAll(b, readable).After(earlier) ==
              var size := SizeOf(b);
              if !SizeAllowed(size) then Cut(earlier, b, Some(BadLength))
              else if |b| < size + 4 then Cut(earlier, b, None)
              else if !readable(b[4..size + 4]) then Cut(earlier, b[size + 4..], Some(Unreadable))
              else CutAll(b[size + 4..], readable).After(earlier + [b[4..size + 4]])
  {
    var size := SizeOf(b);
    if SizeAllowed(size) && |b| >= size + 4 && readable(b[4..size + 4]) {
      var rest := CutAll(b[size + 4..], readable);
      assert earlier + ([b[4..size + 4]] + rest.payloads) == earlier + [b[4..size + 4]] + rest.payloads;
    }
  }
}
