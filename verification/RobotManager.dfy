/** The backend's end of the robot socket: what RobotSupervisorManager in app/robot_supervisor.py records. */
module RobotManager {
  import opened Outcomes
  import opened Bytes
  import opened Frames
  import opened OrderedDicts
  import opened RobotProgram

  const MAXIMUM_RETAINED := 512
  const MAXIMUM_HISTORY := 16

  /** An event as received; `state` is the frame's robot-state field. */
  datatype Reported = Reported(sequence: int, code: int, fault: int, state: int, session: int)

  datatype ProtocolError =
    | WrongFieldCount | WrongSession | UnknownEvent | BadSequence | ConflictingTerminal | OutOfOrder
    | UnexpectedKind | Superseded | FirstNotHello

  /** Sockets are told apart by number; `telemetry` is the last telemetry frame. */
  datatype Backend = Backend(
    connection: Option<nat>, generation: nat,
    session: Option<int>, lastSequence: int, lastEvent: int, lastFault: int, latched: bool,
    events: OrderedDict<Reported>, history: OrderedDict<seq<Reported>>,
    telemetry: Option<seq<int>>)

  function Fresh(): Backend {
    Backend(None, 0, None, 0, 0, 0, false, Empty(), Empty(), None)
  }

  predicate Named(code: int) {
    EVENT_ACCEPTED <= code <= EVENT_IDLE
  }

  predicate Terminal(code: int) {
    code in [EVENT_COMPLETED, EVENT_FAULTED, EVENT_LATCHED]
  }

  function Rank(code: int): int {
    if code == EVENT_ACCEPTED then 1
    else if code == EVENT_RUNNING then 2
    else if code == EVENT_COMPLETED || code == EVENT_FAULTED then 3
    else if code == EVENT_LATCHED then 4
    else if code == EVENT_IDLE then 0
    else -1
  }

  function LastFew(h: seq<Reported>): seq<Reported> {
    if |h| > MAXIMUM_HISTORY then h[|h| - MAXIMUM_HISTORY..] else h
  }

  predicate OtherSession(b: Backend, session: int) {
    b.session.Some? && session != b.session.value
  }

  // ---------- what each frame does ----------

  /** The first frame of a socket, a HELLO. */
  function Activate(b: Backend, socket: nat, values: seq<int>): Result<Backend, ProtocolError> {
    if |values| != 8 then Failure(WrongFieldCount) else
      var greeted := b.(connection := Some(socket), generation := b.generation + 1,
                        session := Some(values[2]), lastSequence := values[3], lastEvent := values[4],
                        lastFault := 0, latched := values[5] != 0);
      Success(if OtherSession(b, values[2]) then greeted.(events := Empty(), history := Empty(), telemetry := None) else greeted)
  }

  function HandleHello(b: Backend, values: seq<int>): Result<Backend, ProtocolError> {
    if |values| != 8 then Failure(WrongFieldCount)
    else if OtherSession(b, values[2]) then Failure(WrongSession)
    else Success(b.(session := Some(values[2]), lastSequence := values[3], lastEvent := values[4],
                    lastFault := 0, latched := values[5] != 0))
  }

  function ReportOf(values: seq<int>): Reported
    requires |values| == 8
  {
    Reported(values[3], values[4], values[5], values[6], values[2])
  }

  /** Why an event cannot follow the one stored for its sequence. */
  function Refusal(b: Backend, e: Reported): Option<ProtocolError> {
    if OtherSession(b, e.session) then Some(WrongSession)
    else if !Named(e.code) then Some(UnknownEvent)
    else if e.sequence <= 0 then Some(BadSequence)
    else if e.sequence !in b.events.entries then None
    else
      var previous := b.events.entries[e.sequence];
      if Terminal(previous.code) && e.code != previous.code then Some(ConflictingTerminal)
      else if Rank(e.code) < Rank(previous.code) then Some(OutOfOrder)
      else None
  }

  /** The history of a sequence once `e` is added to it. */
  function Lengthened(history: OrderedDict<seq<Reported>>, e: Reported): seq<Reported> {
    LastFew((if e.sequence in history.entries then history.entries[e.sequence] else []) + [e])
  }

  function Record(b: Backend, e: Reported, lastSequence: int): Backend {
    b.(events := Pruned(b.events.Touch(e.sequence, e), MAXIMUM_RETAINED),
       history := Pruned(b.history.Touch(e.sequence, Lengthened(b.history, e)), MAXIMUM_RETAINED),
       session := Some(e.session), lastSequence := if lastSequence > e.sequence then lastSequence else e.sequence,
       lastEvent := e.code, lastFault := e.fault, latched := e.code == EVENT_LATCHED)
  }

  function HandleEvent(b: Backend, values: seq<int>): Result<Backend, ProtocolError> {
    if |values| != 8 then Failure(WrongFieldCount) else
      var refusal := Refusal(b, ReportOf(values));
      if refusal.Some? then Failure(refusal.value) else Success(Record(b, ReportOf(values), values[7]))
  }

  function HandleTelemetry(b: Backend, values: seq<int>): Result<Backend, ProtocolError> {
    if |values| != 49 then Failure(WrongFieldCount)
    else if OtherSession(b, values[2]) then Failure(WrongSession)
    else Success(b.(telemetry := Some(values), session := Some(values[2]), lastSequence := values[3]))
  }

  /** A frame of a socket already greeted. */
  function HandleFrame(b: Backend, socket: nat, values: seq<int>): Result<Backend, ProtocolError>
    requires |values| >= 2
  {
    if b.connection != Some(socket) then Failure(Superseded)
    else if values[1] == KIND_HELLO then HandleHello(b, values)
    else if values[1] == KIND_EVENT then HandleEvent(b, values)
    else if values[1] == KIND_TELEMETRY then HandleTelemetry(b, values)
    else Failure(UnexpectedKind)
  }

  /** The socket of a connection thread is closed. */
  function Disconnect(b: Backend, socket: nat): Backend {
    if b.connection == Some(socket) then b.(connection := None) else b
  }

  // ---------- what holds in every reachable state ----------

  /** A history: one sequence, one session, ranks never falling, and after a terminal event only that event. */
  predicate Orderly(h: seq<Reported>, sequence: int, session: Option<int>) {
    && 1 <= |h| <= MAXIMUM_HISTORY
    && (forall i | 0 <= i < |h| :: h[i].sequence == sequence > 0 && Some(h[i].session) == session && Named(h[i].code))
    && (forall i, j | 0 <= i < j < |h| :: Follows(h[i].code, h[j].code))
  }

  predicate Follows(earlier: int, later: int) {
    Rank(earlier) <= Rank(later) && (Terminal(earlier) ==> later == earlier)
  }

  ghost predicate Valid(b: Backend) {
    && b.events.Valid() && b.history.Valid()
    && b.events.order == b.history.order
    && |b.events.order| <= MAXIMUM_RETAINED
    && (b.session.None? ==> b.events.order == [])
    && forall s :: s in b.events.entries ==> EntryHolds(b, s)
  }

  ghost predicate EntryHolds(b: Backend, s: int)
    requires s in b.events.entries
  {
    && s in b.history.entries
    && var h := b.history.entries[s];
       Orderly(h, s, b.session) && h[|h| - 1] == b.events.entries[s]
  }

  lemma {:induction false} FreshIsValid()
    ensures Valid(Fresh())
  {
  }

  lemma {:induction false} LengthenedIsOrderly(b: Backend, e: Reported)
    requires Valid(b) && Refusal(b, e).None?
    ensures var h := Lengthened(b.history, e);
            Orderly(h, e.sequence, Some(e.session)) && h[|h| - 1] == e
  {
    if e.sequence in b.events.entries {
      assert EntryHolds(b, e.sequence);
      var h := b.history.entries[e.sequence];
      var last := h[|h| - 1];
      assert Follows(last.code, e.code);
      forall i | 0 <= i < |h|
        ensures Follows(h[i].code, e.code)
      {
        assert i < |h| - 1 ==> Follows(h[i].code, last.code);
      }
    } else {
      assert e.sequence !in b.history.entries;
    }
  }

  lemma {:induction false} RecordIsValid(b: Backend, e: Reported, last: int)
    requires Valid(b) && Refusal(b, e).None?
    ensures Valid(Record(b, e, last))
  {
    var events := b.events.Touch(e.sequence, e);
    var history := b.history.Touch(e.sequence, Lengthened(b.history, e));
    TouchIsValid(b.events, e.sequence, e);
    TouchIsValid(b.history, e.sequence, Lengthened(b.history, e));
    PrunedKeepsLatest(events, MAXIMUM_RETAINED);
    PrunedKeepsLatest(history, MAXIMUM_RETAINED);
    LengthenedIsOrderly(b, e);
    hide Orderly, Lengthened, Pruned, Latest, Without;
    var after := Record(b, e, last);
    forall s | s in after.events.entries
      ensures EntryHolds(after, s)
    {
      assert s in after.events.order && s in after.history.entries;
      if s != e.sequence {
        assert EntryHolds(b, s);
      }
    }
  }

  lemma {:induction false} FrameKeepsValid(b: Backend, socket: nat, values: seq<int>)
    requires Valid(b) && |values| >= 2
    ensures HandleFrame(b, socket, values).Success? ==> Valid(HandleFrame(b, socket, values).value)
  {
    if values[1] == KIND_EVENT && HandleEvent(b, values).Success? {
      RecordIsValid(b, ReportOf(values), values[7]);
    } else if HandleFrame(b, socket, values).Success? {
      SameSessionKeepsValid(b, HandleFrame(b, socket, values).value);
    }
  }

  /** Whatever keeps the stored events and their session keeps the rest. */
  lemma {:induction false} SameSessionKeepsValid(b: Backend, after: Backend)
    requires Valid(b) && after.events == b.events && after.history == b.history
    requires b.session.Some? ==> after.session == b.session
    ensures Valid(after)
  {
    hide Orderly;
    forall s | s in after.events.entries
      ensures EntryHolds(after, s)
    {
      assert s in b.events.order;
      assert EntryHolds(b, s);
    }
  }

  lemma {:induction false} ActivateKeepsValid(b: Backend, socket: nat, values: seq<int>)
    requires Valid(b)
    ensures Activate(b, socket, values).Success? ==> Valid(Activate(b, socket, values).value)
    ensures Valid(Disconnect(b, socket))
  {
    SameSessionKeepsValid(b, Disconnect(b, socket));
    if Activate(b, socket, values).Success? && !OtherSession(b, values[2]) {
      SameSessionKeepsValid(b, Activate(b, socket, values).value);
    }
  }

  // ---------- the manager itself ----------

  /** The frame of a command, or why there is none. */
  function CommandFrame(appSession: int, c: Command): Result<seq<Byte>, FrameError> {
    EncodeFrame(KIND_COMMAND, [appSession, c.sequence, c.opcode, c.argument, c.value, c.payloadG])
  }

  /** `sent` is false when the transmission failed part of the way, which leaves it uncertain. */
  datatype Dispatched = NotAttempted | NotEncodable | Attempted(frame: seq<Byte>, sent: bool)

  /** What is on the other side of a dispatch: the connection by the time the frame is ready, and whether sending fails. */
  datatype Transmission = Transmission(connection: Option<nat>, fails: bool)

  predicate MayDispatch(b: Backend, expected: Option<int>) {
    b.connection.Some? && (expected.None? || b.session == expected)
  }

  /** What `dispatch` puts on the socket, and when it does not try. */
  function DispatchOf(b: Backend, appSession: int, c: Command, expected: Option<int>, t: Transmission): Dispatched {
    if !MayDispatch(b, expected) then NotAttempted else
      var encoded := CommandFrame(appSession, c);
      if encoded.Failure? then NotEncodable
      else if t.connection != b.connection then NotAttempted
      else Attempted(encoded.value, !t.fails)
  }

  function CommandValues(appSession: int, c: Command): seq<int> {
    [PROTOCOL_VERSION, KIND_COMMAND, appSession, c.sequence, c.opcode, c.argument, c.value, c.payloadG]
  }

  /** One look of `wait_for_event` at the records. */
  function Awaited(b: Backend, sequence: int, terminal: bool, expected: Option<int>): Option<Reported> {
    if sequence !in b.events.entries then None else
      var e := b.events.entries[sequence];
      if (expected.None? || Some(e.session) == expected) && (terminal ==> Terminal(e.code)) then Some(e) else None
  }

  /**
   In a valid state the event found is the last one recorded for its sequence, of the robot's present session, and as
   was asked for; none is found exactly when there is no such event.
   */
  lemma {:induction false} AwaitedMeans(b: Backend, sequence: int, terminal: bool, expected: Option<int>)
    requires Valid(b)
    ensures var e := Awaited(b, sequence, terminal, expected);
            e.Some? ==>
              && sequence in b.history.entries && b.history.entries[sequence] != []
              && e.value == b.history.entries[sequence][|b.history.entries[sequence]| - 1]
              && e.value.sequence == sequence && Some(e.value.session) == b.session
              && (expected.Some? ==> expected == b.session) && (terminal ==> Terminal(e.value.code))
    ensures Awaited(b, sequence, terminal, expected).None? ==>
              || sequence !in b.history.entries
              || (expected.Some? && expected != b.session)
              || (terminal && forall e | e in b.history.entries[sequence] :: !Terminal(e.code))
  {
    if sequence in b.events.entries {
      assert EntryHolds(b, sequence);
      var h := b.history.entries[sequence];
      assert Orderly(h, sequence, b.session);
      var last := h[|h| - 1];
      if !Terminal(last.code) {
        forall e | e in h
          ensures !Terminal(e.code)
        {
          var i :| 0 <= i < |h| && h[i] == e;
          assert i < |h| - 1 ==> Follows(h[i].code, last.code);
        }
      }
    } else {
      assert sequence !in b.events.order;
    }
  }

  /** A handler either succeeds with the state it should leave, or fails and leaves everything as it was. */
  predicate Handled(before: Backend, r: Result<Backend, ProtocolError>, after: Backend, error: Option<ProtocolError>) {
    if r.Success? then error == None && after == r.value else error == Some(r.error) && after == before
  }

  class RobotSupervisorManager {
    const appSession: int
    var connection: Option<nat>
    var connectionGeneration: nat
    var robotSession: Option<int>
    var robotLastSequence: int
    var robotLastEvent: int
    var robotLastFault: int
    var robotLatched: bool
    var events: OrderedDict<Reported>
    var eventHistory: OrderedDict<seq<Reported>>
    var telemetry: Option<seq<int>>

    function State(): Backend
      reads this
    {
      Backend(connection, connectionGeneration, robotSession, robotLastSequence, robotLastEvent, robotLastFault, robotLatched,
              events, eventHistory, telemetry)
    }

    constructor (appSession: int)
      ensures State() == Fresh() && Valid(State()) && this.appSession == appSession
    {
      this.appSession := appSession;
      connection, connectionGeneration, robotSession := None, 0, None;
      robotLastSequence, robotLastEvent, robotLastFault, robotLatched := 0, 0, 0, false;
      events, eventHistory, telemetry := Empty(), Empty(), None;
      new;
      FreshIsValid();
    }

    method ActivateConnection(socket: nat, values: seq<int>) returns (error: Option<ProtocolError>)
      requires Valid(State())
      modifies this
      ensures Handled(old(State()), Activate(old(State()), socket, values), State(), error)
      ensures Valid(State())
    {
      hide Valid;
      ActivateKeepsValid(State(), socket, values);
      if |values| != 8 {
        return Some(WrongFieldCount);
      }
      var previousSession := robotSession;
      connection := Some(socket);
      connectionGeneration := connectionGeneration + 1;
      robotSession := Some(values[2]);
      robotLastSequence := values[3];
      robotLastEvent := values[4];
      robotLastFault := 0;
      robotLatched := values[5] != 0;
      if previousSession.Some? && previousSession != robotSession {
        events := Empty();
        eventHistory := Empty();
        telemetry := None;
      }
      return None;
    }

    /** A frame from a socket that has been greeted. */
    method TakeFrame(socket: nat, values: seq<int>) returns (error: Option<ProtocolError>)
      requires Valid(State()) && |values| >= 2
      modifies this
      ensures Handled(old(State()), HandleFrame(old(State()), socket, values), State(), error)
      ensures Valid(State())
    {
      FrameKeepsValid(State(), socket, values);
      hide Valid, HandleEvent, HandleHello, HandleTelemetry;
      if connection != Some(socket) {
        return Some(Superseded);
      }
      if values[1] == KIND_HELLO {
        error := TakeHello(values);
      } else if values[1] == KIND_EVENT {
        error := TakeEvent(values);
      } else if values[1] == KIND_TELEMETRY {
        error := TakeTelemetry(values);
      } else {
        error := Some(UnexpectedKind);
      }
    }

    method TakeHello(values: seq<int>) returns (error: Option<ProtocolError>)
      modifies this
      ensures Handled(old(State()), HandleHello(old(State()), values), State(), error)
    {
      if |values| != 8 {
        return Some(WrongFieldCount);
      }
      if robotSession.Some? && values[2] != robotSession.value {
        return Some(WrongSession);
      }
      robotSession := Some(values[2]);
      robotLastSequence := values[3];
      robotLastEvent := values[4];
      robotLastFault := 0;
      robotLatched := values[5] != 0;
      return None;
    }

    method TakeTelemetry(values: seq<int>) returns (error: Option<ProtocolError>)
      modifies this
      ensures Handled(old(State()), HandleTelemetry(old(State()), values), State(), error)
    {
      if |values| != 49 {
        return Some(WrongFieldCount);
      }
      if robotSession.Some? && values[2] != robotSession.value {
        return Some(WrongSession);
      }
      telemetry := Some(values);
      robotSession := Some(values[2]);
      robotLastSequence := values[3];
      return None;
    }

    method TakeEvent(values: seq<int>) returns (error: Option<ProtocolError>)
      requires Valid(State())
      modifies this
      ensures Handled(old(State()), HandleEvent(old(State()), values), State(), error)
    {
      if |values| != 8 {
        return Some(WrongFieldCount);
      }
      var event := ReportOf(values);
      if robotSession.Some? && event.session != robotSession.value {
        return Some(WrongSession);
      }
      if !Named(event.code) {
        return Some(UnknownEvent);
      }
      if event.sequence <= 0 {
        return Some(BadSequence);
      }
      if event.sequence in events.entries {
        var previous := events.entries[event.sequence];
        if Terminal(previous.code) && event.code != previous.code {
          return Some(ConflictingTerminal);
        }
        if Rank(event.code) < Rank(previous.code) {
          return Some(OutOfOrder);
        }
      }
      hide *;
      StoreEvent(event, values[7]);
      RecordedEvent(old(State()), values);
      return None;
    }

    /** A recorded event is the youngest, in the records and in the histories. */
    method StoreEvent(event: Reported, lastSequence: int)
      requires Valid(State())
      modifies this
      ensures State() == Record(old(State()), event, lastSequence)
    {
      hide Pruned;
      AppendEvent(event);
      PruneEvents();
      robotSession := Some(event.session);
      robotLastSequence := if lastSequence > event.sequence then lastSequence else event.sequence;
      robotLastEvent := event.code;
      robotLastFault := event.fault;
      robotLatched := event.code == EVENT_LATCHED;
    }

    method AppendEvent(event: Reported)
      requires Valid(State())
      modifies `events, `eventHistory
      ensures events == old(events).Touch(event.sequence, event)
      ensures eventHistory == old(eventHistory).Touch(event.sequence, Lengthened(old(eventHistory), event))
      ensures events.Valid() && eventHistory.Valid() && events.order == eventHistory.order
    {
      var sequence := event.sequence;
      TouchIsValid(events, sequence, event);
      TouchIsValid(eventHistory, sequence, Lengthened(eventHistory, event));
      events := events.Touch(sequence, event);
      var history := if sequence in eventHistory.entries then eventHistory.entries[sequence] else [];
      history := LastFew(history + [event]);
      eventHistory := eventHistory.Touch(sequence, history);
    }

    /** Drop the sequences heard of least recently. */
    method PruneEvents()
      requires events.Valid() && eventHistory.Valid() && events.order == eventHistory.order
      modifies `events, `eventHistory
      ensures events == Pruned(old(events), MAXIMUM_RETAINED)
      ensures eventHistory == Pruned(old(eventHistory), MAXIMUM_RETAINED)
    {
      while |events.order| > MAXIMUM_RETAINED
        invariant events.Valid() && eventHistory.Valid() && events.order == eventHistory.order
        invariant Pruned(events, MAXIMUM_RETAINED) == Pruned(old(events), MAXIMUM_RETAINED)
        invariant Pruned(eventHistory, MAXIMUM_RETAINED) == Pruned(old(eventHistory), MAXIMUM_RETAINED)
        decreases |events.order|
      {
        PopFirstIsValid(events);
        PopFirstIsValid(eventHistory);
        var sequence := events.order[0];
        events := events.PopFirst();
        eventHistory := eventHistory.Pop(sequence);
      }
    }

    /** The connection thread of a socket ends. */
    method CloseConnection(socket: nat)
      requires Valid(State())
      modifies this
      ensures State() == Disconnect(old(State()), socket) && Valid(State())
    {
      ActivateKeepsValid(State(), socket, []);
      hide Valid;
      if connection == Some(socket) {
        connection := None;
      }
    }

    /** `t` is what the sending half finds once the frame is built. */
    method Dispatch(c: Command, expectedSession: Option<int>, t: Transmission) returns (d: Dispatched)
      ensures d == DispatchOf(State(), appSession, c, expectedSession, t)
      ensures d.NotEncodable? <==> MayDispatch(State(), expectedSession) && !AllInt32(CommandValues(appSession, c)[2..])
      ensures d.Attempted? ==>
                && connection.Some? && t.connection == connection && d.sent == !t.fails
                && DecodeFrame(d.frame) == Success(CommandValues(appSession, c))
    {
      var fields := [appSession, c.sequence, c.opcode, c.argument, c.value, c.payloadG];
      DecodeEncoded(KIND_COMMAND, fields);
      assert CommandValues(appSession, c) == [PROTOCOL_VERSION, KIND_COMMAND] + fields;
      assert CommandValues(appSession, c)[2..] == fields;
      hide EncodeFrame, DecodeFrame, AllInt32;
      if connection.None? {
        return NotAttempted;
      }
      if expectedSession.Some? && robotSession != expectedSession {
        return NotAttempted;
      }
      var frame := EncodeFrame(KIND_COMMAND, fields);
      if frame.Failure? {
        return NotEncodable;
      }
      if t.connection != connection {
        return NotAttempted;
      }
      return Attempted(frame.value, !t.fails);
    }

    /** The look `wait_for_event` repeats until it finds the event or time runs out. */
    method PollEvent(sequence: int, terminal: bool, expectedSession: Option<int>) returns (e: Option<Reported>)
      requires Valid(State())
      ensures e == Awaited(State(), sequence, terminal, expectedSession)
      ensures e.Some? ==>
                && sequence in eventHistory.entries && eventHistory.entries[sequence] != []
                && e.value == eventHistory.entries[sequence][|eventHistory.entries[sequence]| - 1]
                && e.value.sequence == sequence && Some(e.value.session) == robotSession
                && (expectedSession.Some? ==> expectedSession == robotSession) && (terminal ==> Terminal(e.value.code))
      ensures e.None? ==>
                || sequence !in eventHistory.entries
                || (expectedSession.Some? && expectedSession != robotSession)
                || (terminal && forall r | r in eventHistory.entries[sequence] :: !Terminal(r.code))
    {
      AwaitedMeans(State(), sequence, terminal, expectedSession);
      if sequence in events.entries {
        var event := events.entries[sequence];
        if (expectedSession.None? || Some(event.session) == expectedSession) && (!terminal || Terminal(event.code)) {
          return Some(event);
        }
      }
      return None;
    }
  }

  lemma {:induction false} RecordedEvent(b: Backend, values: seq<int>)
    requires |values| == 8 && Refusal(b, ReportOf(values)).None?
    ensures HandleEvent(b, values) == Success(Record(b, ReportOf(values), values[7]))
  {
  }
}
