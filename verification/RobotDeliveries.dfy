/** What the backend takes and refuses, and how a command it dispatched is answered in the end. */
module RobotDeliveries {
  import opened Outcomes
  import opened Bytes
  import opened Frames
  import opened OrderedDicts
  import opened RobotProgram
  import opened RobotSafety
  import opened RobotTheorems
  import opened RobotRuns
  import opened RobotManager
  import opened RobotRecords
  import opened RobotEndToEnd

  // ---------- operations ----------

  /** The operations the backend has names for. */
  datatype Operation =
    | PickPool | PutPool | LoadMill | UnloadMill | ReliabilityPool | AlignPalletPick
    | SetStandardOutput | SetConfigurableOutput | SetToolOutput | ClearLatch | EnterMaintenance

  function Opcode(o: Operation): int {
    match o
    case PickPool => 1
    case PutPool => 2
    case LoadMill => 3
    case UnloadMill => 4
    case ReliabilityPool => 5
    case AlignPalletPick => 6
    case SetStandardOutput => 10
    case SetConfigurableOutput => 11
    case SetToolOutput => 12
    case ClearLatch => 20
    case EnterMaintenance => 21
  }

  predicate AtPool(o: Operation) {
    o.PickPool? || o.PutPool? || o.ReliabilityPool?
  }

  /** The robot's dispatcher knows exactly the backend's operations, those at the pool for the slots it was generated for. */
  lemma {:induction false} KnowsEveryOperation(c: Command, setup: Setup)
    ensures Known(c, setup) <==> exists o :: Opcode(o) == c.opcode && (AtPool(o) ==> c.argument in setup.slots)
  {
    if Known(c, setup) {
      var o := match c.opcode
        case 1 => PickPool
        case 2 => PutPool
        case 3 => LoadMill
        case 4 => UnloadMill
        case 5 => ReliabilityPool
        case 6 => AlignPalletPick
        case 10 => SetStandardOutput
        case 11 => SetConfigurableOutput
        case 12 => SetToolOutput
        case 20 => ClearLatch
        case _ => EnterMaintenance;
      assert Opcode(o) == c.opcode;
    }
  }

  /**
   A command goes out, or is tried, exactly when it is for the session of a connection that stays, and its numbers are 32
   bits wide; which of them is missing is what the caller is told.
   */
  lemma {:induction false} DispatchedWhen(b: Backend, app: int, c: Command, expected: Option<int>, t: Transmission)
    ensures var fits := AllInt32([app, c.sequence, c.opcode, c.argument, c.value, c.payloadG]);
            var meant := b.connection.Some? && (expected.Some? ==> b.session == expected);
            && (DispatchOf(b, app, c, expected, t).NotEncodable? <==> meant && !fits)
            && (DispatchOf(b, app, c, expected, t).Attempted? <==> meant && fits && t.connection == b.connection)
            && (DispatchOf(b, app, c, expected, t).Attempted? ==> DispatchOf(b, app, c, expected, t).sent == !t.fails)
  {
    hide EncodeFrame, AllInt32;
    DecodeEncoded(KIND_COMMAND, [app, c.sequence, c.opcode, c.argument, c.value, c.payloadG]);
  }

  // ---------- what is refused ----------

  /** The events recorded of a sequence. */
  function Recorded(b: Backend, s: int): seq<Reported> {
    if s in b.history.entries then b.history.entries[s] else []
  }

  predicate Heard(h: seq<Reported>, code: int) {
    exists i | 0 <= i < |h| :: h[i].code == code
  }

  /** A terminal event is recorded, and this is not it again. */
  predicate Contradicts(h: seq<Reported>, code: int) {
    exists i | 0 <= i < |h| :: h[i].code in [3, 4, 5] && h[i].code != code
  }

  predicate ComesLate(h: seq<Reported>, code: int) {
    (Heard(h, 2) && code in [1, 6]) || (Heard(h, 1) && code == 6)
  }

  /**
   In a valid state an event is refused for the first of these reasons that applies, and recorded when none does: another
   session, an unknown code, no sequence, another terminal event recorded, a later stage recorded.
   */
  lemma {:induction false} RefusalMeans(b: Backend, e: Reported)
    requires Valid(b)
    ensures Refusal(b, e) ==
              if b.session.Some? && b.session.value != e.session then Some(WrongSession)
              else if !(1 <= e.code <= 6) then Some(UnknownEvent)
              else if e.sequence < 1 then Some(BadSequence)
              else if Contradicts(Recorded(b, e.sequence), e.code) then Some(ConflictingTerminal)
              else if ComesLate(Recorded(b, e.sequence), e.code) then Some(OutOfOrder)
              else None
  {
    if e.sequence in b.events.entries {
      assert EntryHolds(b, e.sequence);
      var h := b.history.entries[e.sequence];
      assert Orderly(h, e.sequence, b.session);
      var last := h[|h| - 1];
      LastOfHistory(h, e.sequence, b.session);
      assert Contradicts(h, e.code) <==> Terminal(last.code) && last.code != e.code;
      if Named(e.code) && !Terminal(last.code) {
        LateOfHistory(h, e.sequence, b.session, e.code);
      }
    } else {
      assert e.sequence !in b.events.order;
    }
  }

  lemma {:induction false} LastOfHistory(h: seq<Reported>, s: int, session: Option<int>)
    requires Orderly(h, s, session)
    ensures forall i | 0 <= i < |h| && Terminal(h[i].code) :: h[i].code == h[|h| - 1].code
  {
    forall i | 0 <= i < |h| && Terminal(h[i].code)
      ensures h[i].code == h[|h| - 1].code
    {
      assert i < |h| - 1 ==> Follows(h[i].code, h[|h| - 1].code);
    }
  }

  lemma {:induction false} LateOfHistory(h: seq<Reported>, s: int, session: Option<int>, code: int)
    requires Orderly(h, s, session) && Named(code) && !Terminal(h[|h| - 1].code)
    ensures ComesLate(h, code) <==> Rank(code) < Rank(h[|h| - 1].code)
  {
    var last := h[|h| - 1];
    forall i | 0 <= i < |h|
      ensures Rank(h[i].code) <= Rank(last.code)
    {
      assert i < |h| - 1 ==> Follows(h[i].code, last.code);
    }
    assert Heard(h, last.code);
  }

  // ---------- what arrives ----------

  /** A message of the robot reaches the connection thread of a socket. */
  function Hear(b: Backend, socket: nat, m: Message, readings: seq<int>): Backend {
    Settle(b, socket, HandleFrame(b, socket, ValuesOf(Sending(m, readings))))
  }

  function HearAll(b: Backend, socket: nat, ms: seq<Message>, readings: seq<int>): Backend
    decreases |ms|
  {
    if ms == [] then b else HearAll(Hear(b, socket, ms[0], readings), socket, ms[1..], readings)
  }

  lemma {:induction false} HearMore(b: Backend, socket: nat, ms: seq<Message>, more: seq<Message>, readings: seq<int>)
    ensures HearAll(b, socket, ms + more, readings) == HearAll(HearAll(b, socket, ms, readings), socket, more, readings)
    decreases |ms|
  {
    hide Hear;
    if ms == [] {
      assert ms + more == more;
    } else {
      assert (ms + more)[1..] == ms[1..] + more;
      HearMore(Hear(b, socket, ms[0], readings), socket, ms[1..], more, readings);
    }
  }

  predicate Accepted(b: Backend, d: Delivery)
    requires WellFormed(d) && !d.Closed?
  {
    if d.First? then Greet(b, d.socket, d.values).Success? else HandleFrame(b, d.socket, d.values).Success?
  }

  /** The connection is the socket last greeted on, until that socket ends or breaks the protocol. */
  lemma {:induction false} ConnectionIsTheLastGreeted(j: Journal, d: Delivery)
    requires WellFormed(d)
    ensures var before, after := j.backend.connection, Deliver(j, d).backend.connection;
            if d.First? && Accepted(j.backend, d) then after == Some(d.socket)
            else if before == Some(d.socket) && (d.Closed? || !Accepted(j.backend, d)) then after == None
            else after == before
  {
    hide Pruned, Refusal;
  }

  /** Nothing that comes from sockets that are not the connection, short of a greeting, changes anything. */
  lemma {:induction false} ReplacedSocketsAreIgnored(j: Journal, ds: seq<Delivery>)
    requires forall d | d in ds :: WellFormed(d) && !d.First? && j.backend.connection != Some(d.socket)
    ensures DeliverAll(j, ds) == j
    decreases |ds|
  {
    hide HandleHello, HandleEvent, HandleTelemetry;
    if ds != [] {
      assert ds[0] in ds;
      assert Deliver(j, ds[0]) == j;
      ReplacedSocketsAreIgnored(j, ds[1..]);
    }
  }

  /** A greeting that comes again on its own connection says where the robot stands, and leaves the records. */
  lemma {:induction false} LaterGreetingIsTaken(b: Backend, socket: nat, m: Message, readings: seq<int>)
    requires b.connection == Some(socket) && m.Hello? && (b.session.None? || b.session == Some(m.session))
    ensures var after := Hear(b, socket, m, readings);
            && after.session == Some(m.session) && after.lastSequence == m.lastSequence && after.lastEvent == m.lastEvent
            && after.latched == m.latched && after.lastFault == 0
            && after.connection == b.connection && after.generation == b.generation
            && after.events == b.events && after.history == b.history && after.telemetry == b.telemetry
  {
  }

  /** A telemetry message of the session tells how far the robot has got, and changes no record. */
  lemma {:induction false} TelemetryIsTaken(b: Backend, socket: nat, m: Message, readings: seq<int>)
    requires b.connection == Some(socket) && b.session == Some(m.session) && m.Telemetry? && |readings| == 45
    ensures var after := Hear(b, socket, m, readings);
            && after.telemetry == Some(ValuesOf(Sending(m, readings))) && after.lastSequence == m.lastSequence
            && after == b.(telemetry := after.telemetry, lastSequence := after.lastSequence)
  {
  }

  /** What the backend is told of a sequence, by an event and the telemetry after it. */
  predicate Knows(b: Backend, socket: nat, e: Reported) {
    && b.connection == Some(socket) && b.session == Some(e.session) && b.lastSequence == e.sequence
    && b.lastEvent == e.code && b.lastFault == e.fault && (b.latched <==> e.code == EVENT_LATCHED)
    && e.sequence in b.events.entries && b.events.entries[e.sequence] == e
  }

  predicate MayFollow(b: Backend, s: int, code: int) {
    s in b.events.entries ==> Follows(b.events.entries[s].code, code)
  }

  lemma {:induction false} ToldIsRecorded(b: Backend, socket: nat, e: Reported, readings: seq<int>)
    requires Valid(b) && b.connection == Some(socket) && b.session == Some(e.session) && |readings| == 45
    requires Named(e.code) && e.sequence > 0 && e.state == 1 && MayFollow(b, e.sequence, e.code)
    ensures var after := HearAll(b, socket, Told(e.session, e.sequence, e.code, e.fault, e.sequence), readings);
            Valid(after) && Knows(after, socket, e)
  {
    var m, t := Event(e.session, e.sequence, e.code, e.fault, e.sequence), Telemetry(e.session, e.sequence);
    assert Told(e.session, e.sequence, e.code, e.fault, e.sequence) == [m] + [t];
    HearMore(b, socket, [m], [t], readings);
    assert ReportOf(EventValues(m)) == e;
    assert ValuesOf(Sending(m, readings)) == EventValues(m);
    EventIsRecorded(b, socket, m);
    FrameKeepsValid(b, socket, EventValues(m));
    hide Valid, Refusal, HandleFrame, Rank, Terminal;
    var heard := Hear(b, socket, m, readings);
    assert heard.session == Some(e.session) by { RecordedSession(b, socket, m); }
    TelemetryIsTaken(heard, socket, t, readings);
    var after := Hear(heard, socket, t, readings);
    assert HearAll(b, socket, [m], readings) == heard && HearAll(heard, socket, [t], readings) == after;
    SameSessionKeepsValid(heard, after);
  }

  lemma {:induction false} RecordedSession(b: Backend, socket: nat, m: Message)
    requires m.Event? && HandleFrame(b, socket, EventValues(m)).Success?
    ensures HandleFrame(b, socket, EventValues(m)).value.session == Some(m.session)
  {
    hide Refusal, Pruned;
  }

  /**
   From a ready robot to the waiting caller: a command the dispatcher knows is answered with COMPLETED once its frame and
   heartbeats have reached the robot and what the robot then sent has reached the backend.
   */
  lemma {:induction false} CommandIsAnswered(w: World, setup: Setup, words: seq<int>, c: Command, beat: seq<int>,
      b: Backend, socket: nat, readings: seq<int>)
    requires Ready(w.robot) && NextCommand(w.robot, c) && Known(c, setup) && setup.heartbeatMissLimit > 0
    requires Carries(words, c) && IsHeartbeat(beat)
    requires Valid(b) && b.connection == Some(socket) && b.session == Some(w.robot.session) && |readings| == 45
    requires c.sequence !in b.events.entries
    ensures var asked, done := Run(w, Asking(words), setup).sent, Run(w, ToCompletion(words, beat), setup).sent;
            && asked <= done
            && var after := HearAll(b, socket, done[|asked|..], readings);
               && Awaited(after, c.sequence, true, Some(w.robot.session))
                  == Some(Reported(c.sequence, EVENT_COMPLETED, 0, 1, w.robot.session))
               && after.lastSequence == c.sequence && after.lastEvent == EVENT_COMPLETED && !after.latched
  {
    hide *;
    NextIsPositive(w.robot, c);
    CommandCompletes(w, setup, words, c, beat);
    var session := w.robot.session;
    var asked, done := Run(w, Asking(words), setup).sent, Run(w, ToCompletion(words, beat), setup).sent;
    var first, second, third := ToldOf(session, c, EVENT_ACCEPTED), ToldOf(session, c, EVENT_RUNNING), ToldOf(session, c, EVENT_COMPLETED);
    assert done[|asked|..] == first + second + third;
    HearMore(b, socket, first + second, third, readings);
    HearMore(b, socket, first, second, readings);
    StagesAreKnown(b, socket, session, c, readings);
  }

  lemma {:induction false} NextIsPositive(r: Robot, c: Command)
    requires Ready(r) && NextCommand(r, c)
    ensures c.sequence > 0
  {
  }

  lemma {:induction false} StagesAreKnown(b: Backend, socket: nat, session: int, c: Command, readings: seq<int>)
    requires Valid(b) && b.connection == Some(socket) && b.session == Some(session) && |readings| == 45
    requires c.sequence > 0 && c.sequence !in b.events.entries
    ensures var accepted := HearAll(b, socket, ToldOf(session, c, EVENT_ACCEPTED), readings);
            var running := HearAll(accepted, socket, ToldOf(session, c, EVENT_RUNNING), readings);
            var after := HearAll(running, socket, ToldOf(session, c, EVENT_COMPLETED), readings);
            && Awaited(after, c.sequence, true, Some(session)) == Some(Reported(c.sequence, EVENT_COMPLETED, 0, 1, session))
            && after.lastSequence == c.sequence && after.lastEvent == EVENT_COMPLETED && !after.latched
  {
    hide Valid, HearAll, Told;
    var accepted := HearAll(b, socket, ToldOf(session, c, EVENT_ACCEPTED), readings);
    ToldIsRecorded(b, socket, Reported(c.sequence, EVENT_ACCEPTED, 0, 1, session), readings);
    var running := HearAll(accepted, socket, ToldOf(session, c, EVENT_RUNNING), readings);
    ToldIsRecorded(accepted, socket, Reported(c.sequence, EVENT_RUNNING, 0, 1, session), readings);
    ToldIsRecorded(running, socket, Reported(c.sequence, EVENT_COMPLETED, 0, 1, session), readings);
  }
}
