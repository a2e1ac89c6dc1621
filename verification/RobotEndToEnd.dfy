/** Robot, wire and backend together. */
module RobotEndToEnd {
  import opened Outcomes
  import opened Bytes
  import opened Frames
  import opened FrameStreams
  import opened OrderedDicts
  import opened RobotProgram
  import opened RobotSafety
  import opened RobotLinks
  import opened RobotTheorems
  import opened RobotAnswers
  import opened RobotManager
  import opened RobotRecords

  // ---------- a completed record is true ----------

  datatype System = System(world: World, journal: Journal)

  datatype Move = RobotActs(action: Action) | BackendActs(delivery: Delivery)

  function EventValues(m: Message): seq<int>
    requires m.Event?
  {
    [PROTOCOL_VERSION, KIND_EVENT, m.session, m.sequence, m.code, m.fault, 1, m.lastSequence]
  }

  /** The event frame is one the robot has sent, at any time and on any socket. */
  predicate Genuine(sent: seq<Message>, values: seq<int>) {
    exists m | m in sent :: m.Event? && values == EventValues(m)
  }

  /** The wire may lose, delay, repeat and reorder event frames but not make them up; other frames are unrestricted. */
  predicate Possible(s: System, move: Move) {
    match move
    case RobotActs(action) => Allowed(s.world, action)
    case BackendActs(d) => WellFormed(d) && (Records(s.journal.backend, d) ==> Genuine(s.world.sent, d.values))
  }

  function Make(s: System, move: Move, setup: Setup): System
    requires Possible(s, move)
  {
    match move
    case RobotActs(action) => s.(world := Step(s.world, action, setup))
    case BackendActs(d) => s.(journal := Deliver(s.journal, d))
  }

  predicate AllPossible(s: System, moves: seq<Move>, setup: Setup)
    decreases |moves|
  {
    moves == [] || (Possible(s, moves[0]) && AllPossible(Make(s, moves[0], setup), moves[1..], setup))
  }

  function MakeAll(s: System, moves: seq<Move>, setup: Setup): System
    requires AllPossible(s, moves, setup)
    decreases |moves|
  {
    if moves == [] then s else MakeAll(Make(s, moves[0], setup), moves[1..], setup)
  }

  function PowerOn(session: int, seed: int): System {
    System(FirstBoot(session, seed), Start())
  }

  ghost predicate RecordsTrue(events: map<int, Reported>, log: seq<Happening>) {
    forall s :: s in events && events[s].code == EVENT_COMPLETED ==> Justified(log, s)
  }

  ghost predicate SystemHolds(s: System, setup: Setup) {
    && Holds(s.world) && Faithful(s.journal)
    && (setup.heartbeatMissLimit > 0 ==> LinkHolds(s.world.robot, s.world.log, setup.heartbeatMissLimit))
    && RecordsTrue(s.journal.backend.events.entries, s.world.log)
  }

  lemma {:induction false} JustifiedStays(log: seq<Happening>, more: seq<Happening>, s: int)
    requires Justified(log, s)
    ensures Justified(log + more, s)
    decreases |more|
  {
    if more == [] {
      assert log + more == log;
    } else {
      JustifiedStays(log, Before(more), s);
      assert Before(log + more) == log + Before(more);
    }
  }

  lemma {:induction false} StepOnlyAdds(w: World, a: Action, setup: Setup) returns (more: seq<Happening>)
    ensures Step(w, a, setup).log == w.log + more
  {
    hide MainTurn, MotionReturns, Connect, Read;
    match a
    case MainRuns => more := MainTurn(w.robot, setup).happened;
    case MotionEnds => more := MotionReturns(w.robot).happened;
    case SocketOpens(ok) => more := Connect(w.robot, ok).happened;
    case SocketReads(words) => more := Read(w.robot, setup, words).happened;
    case Reboot(session, seed) => more := [BootedWith(seed)];
  }

  lemma {:induction false} RobotMoveHolds(s: System, a: Action, setup: Setup)
    requires SystemHolds(s, setup) && Allowed(s.world, a)
    ensures SystemHolds(Make(s, RobotActs(a), setup), setup)
  {
    hide Step, Holds, Faithful, Justified, LinkHolds;
    StepHolds(s.world, a, setup);
    if setup.heartbeatMissLimit > 0 {
      StepCounts(s.world, a, setup);
    }
    var more := StepOnlyAdds(s.world, a, setup);
    var events := s.journal.backend.events.entries;
    forall k | k in events && events[k].code == EVENT_COMPLETED
      ensures Justified(s.world.log + more, k)
    {
      JustifiedStays(s.world.log, more, k);
    }
  }

  /** What a delivery leaves recorded was recorded before, or is the event it carries. */
  lemma {:induction false} RecordedOrDelivered(j: Journal, d: Delivery, k: int)
    requires Faithful(j) && WellFormed(d) && k in Deliver(j, d).backend.events.entries
    ensures var stored := Deliver(j, d).backend.events.entries[k];
            || (k in j.backend.events.entries && stored == j.backend.events.entries[k])
            || (Records(j.backend, d) && stored == ReportOf(d.values) && k == stored.sequence)
  {
    var b := j.backend;
    if Records(b, d) {
      var e := ReportOf(d.values);
      TouchIsValid(b.events, e.sequence, e);
      PrunedKeepsLatest(b.events.Touch(e.sequence, e), MAXIMUM_RETAINED);
    }
  }

  lemma {:induction false} BackendMoveHolds(s: System, d: Delivery, setup: Setup)
    requires SystemHolds(s, setup) && Possible(s, BackendActs(d))
    ensures SystemHolds(Make(s, BackendActs(d), setup), setup)
  {
    hide Faithful, Deliver, Good, Justified, LinkHolds;
    DeliverIsFaithful(s.journal, d);
    var events := Deliver(s.journal, d).backend.events.entries;
    forall k | k in events && events[k].code == EVENT_COMPLETED
      ensures Justified(s.world.log, k)
    {
      RecordedOrDelivered(s.journal, d, k);
      if Records(s.journal.backend, d) && events[k] == ReportOf(d.values) {
        var m :| m in s.world.sent && m.Event? && d.values == EventValues(m);
        assert Truthful(m, s.world.log);
      }
    }
  }

  lemma {:induction false} SystemAlwaysHolds(s: System, moves: seq<Move>, setup: Setup)
    requires SystemHolds(s, setup) && AllPossible(s, moves, setup)
    ensures SystemHolds(MakeAll(s, moves, setup), setup)
    decreases |moves|
  {
    hide SystemHolds, Make, Possible;
    if moves != [] {
      match moves[0] {
        case RobotActs(a) =>
          assert Allowed(s.world, a) by { PossibleMeans(s, moves[0]); }
          RobotMoveHolds(s, a, setup);
        case BackendActs(d) => BackendMoveHolds(s, d, setup);
      }
      SystemAlwaysHolds(Make(s, moves[0], setup), moves[1..], setup);
    }
  }

  lemma {:induction false} PossibleMeans(s: System, move: Move)
    requires Possible(s, move) && move.RobotActs?
    ensures Allowed(s.world, move.action)
  {
  }

  /**
   In every interleaving of the robot's threads, the wire, reconnects, restarts and the backend: if the backend
   holds a COMPLETED event for a sequence, the dispatcher returned for exactly that sequence with nothing hostile
   heard since its acceptance and no link lost during the move, or the sequence was an in-order clear-latch or
   maintenance command.
   */
  lemma {:induction false} CompletedRecordIsTrue(session: int, seed: int, moves: seq<Move>, setup: Setup, s: int)
    requires AllPossible(PowerOn(session, seed), moves, setup)
    requires var events := MakeAll(PowerOn(session, seed), moves, setup).journal.backend.events.entries;
             s in events && events[s].code == EVENT_COMPLETED
    ensures var log := MakeAll(PowerOn(session, seed), moves, setup).world.log;
            ControlTaken(log, s) || exists i, e, k :: RanClean(log, setup.heartbeatMissLimit, s, i, e, k)
  {
    StartHolds(session, seed);
    FreshIsValid();
    var start := PowerOn(session, seed);
    if setup.heartbeatMissLimit > 0 {
      FirstCounts(session, seed, setup.heartbeatMissLimit);
    }
    SystemAlwaysHolds(start, moves, setup);
    JustifiedMeans(MakeAll(start, moves, setup).world.log, setup.heartbeatMissLimit, s);
  }

  /** A wait answered with COMPLETED, at any moment of any interleaving, is answered truly. */
  lemma {:induction false} CompletedAnswerIsTrue(session: int, seed: int, moves: seq<Move>, setup: Setup, s: int,
        terminal: bool,
      expected: Option<int>)
    requires AllPossible(PowerOn(session, seed), moves, setup)
    requires var answer := Awaited(MakeAll(PowerOn(session, seed), moves, setup).journal.backend, s, terminal, expected);
             answer.Some? && answer.value.code == EVENT_COMPLETED
    ensures var log := MakeAll(PowerOn(session, seed), moves, setup).world.log;
            ControlTaken(log, s) || exists i, e, k :: RanClean(log, setup.heartbeatMissLimit, s, i, e, k)
  {
    hide MakeAll, AllPossible, RanClean, ControlTaken;
    CompletedRecordIsTrue(session, seed, moves, setup, s);
  }

  // ---------- commands reach the robot as they were dispatched ----------

  lemma {:induction false} FrameIsHeard(kind: int, fields: seq<int>)
    requires |fields| == 6 && EncodeFrame(kind, fields).Success?
    ensures var words := UnpackAll(EncodeFrame(kind, fields).value);
            |words| == 9 && GoodFrame(words) && words[..8] == [PROTOCOL_VERSION, kind] + fields
  {
    DecodeEncoded(kind, fields);
    var body := [PROTOCOL_VERSION, kind] + fields;
    UnpackPacked(body + [Checksum(body)]);
    assert (body + [Checksum(body)])[..8] == body;
  }

  /**
   The nine integers of a dispatched command: a robot with nothing in flight takes exactly that command, one with
   that command in flight is not disturbed, and any other command in flight is kept and latched.
   */
  lemma {:induction false} DispatchedCommandArrives(b: Backend, app: int, c: Command, expected: Option<int>,
        t: Transmission, r: Robot)
    requires DispatchOf(b, app, c, expected, t).Attempted?
    ensures var words := UnpackAll(DispatchOf(b, app, c, expected, t).frame);
            && |words| == 9 && words[2] == app
            && !Hostile(words, c.sequence)
            && (!r.InFlight() ==> TakeFrame(r, words) == r.(command := c, missedHeartbeats := 0))
            && (r.InFlight() ==> TakeFrame(r, words).command == r.command)
            && (r.InFlight() && r.lastSequence != c.sequence ==> TakeFrame(r, words).latched)
            && (r.InFlight() && r.lastSequence == c.sequence ==> TakeFrame(r, words).latched == r.latched)
  {
    var fields := [app, c.sequence, c.opcode, c.argument, c.value, c.payloadG];
    FrameIsHeard(KIND_COMMAND, fields);
    var words := UnpackAll(DispatchOf(b, app, c, expected, t).frame);
    assert words[..8][1] == words[1] && words[..8][2] == words[2] && words[..8][3] == words[3] && words[..8][4] == words[4];
    assert words[..8][5] == words[5] && words[..8][6] == words[6] && words[..8][7] == words[7];
    hide GoodFrame;
  }

  /** A heartbeat never disturbs a command in flight. */
  lemma {:induction false} HeartbeatIsHarmless(app: int, last: int, s: int, r: Robot)
    requires EncodeFrame(KIND_HEARTBEAT, [app, last, 0, 0, 0, 0]).Success?
    ensures var words := UnpackAll(EncodeFrame(KIND_HEARTBEAT, [app, last, 0, 0, 0, 0]).value);
            |words| == 9 && !Hostile(words, s) && TakeFrame(r, words) == r.(missedHeartbeats := 0)
  {
    FrameIsHeard(KIND_HEARTBEAT, [app, last, 0, 0, 0, 0]);
    var words := UnpackAll(EncodeFrame(KIND_HEARTBEAT, [app, last, 0, 0, 0, 0]).value);
    assert words[..8][1] == words[1];
    hide GoodFrame;
  }

  // ---------- the robot's messages reach the backend as they were sent ----------

  /** A telemetry message's other forty-five values do not matter here. */
  datatype Sending = Sending(message: Message, readings: seq<int>)

  function KindOf(m: Message): int {
    match m
    case Hello(_, _, _, _) => KIND_HELLO
    case Event(_, _, _, _, _) => KIND_EVENT
    case Telemetry(_, _) => KIND_TELEMETRY
  }

  function FieldsOf(s: Sending): seq<int> {
    match s.message
    case Hello(session, lastSequence, lastEvent, latched) => [session, lastSequence, lastEvent, if latched then 1 else 0, 1, 0]
    case Event(session, sequence, code, fault, lastSequence) => [session, sequence, code, fault, 1, lastSequence]
    case Telemetry(session, lastSequence) => [session, lastSequence] + s.readings
  }

  predicate Sendable(s: Sending) {
    AllInt32(FieldsOf(s)) && (s.message.Telemetry? ==> |s.readings| == 45)
  }

  predicate AllSendable(sendings: seq<Sending>) {
    forall i | 0 <= i < |sendings| :: Sendable(sendings[i])
  }

  function ValuesOf(s: Sending): seq<int> {
    [PROTOCOL_VERSION, KindOf(s.message)] + FieldsOf(s)
  }

  lemma {:induction false} SendingIsWhole(s: Sending)
    requires Sendable(s)
    ensures var e := EncodeFrame(KindOf(s.message), FieldsOf(s));
            e.Success? && WholeFrame(e.value) && DecodeFrame(e.value) == Success(ValuesOf(s))
    ensures s.message.Event? ==> ValuesOf(s) == EventValues(s.message)
  {
    assert FrameInts(KindOf(s.message)) == Some(|FieldsOf(s)| + 3);
    EncodedIsWhole(KindOf(s.message), FieldsOf(s));
    DecodeEncoded(KindOf(s.message), FieldsOf(s));
  }

  function FramesOf(sendings: seq<Sending>): (frames: seq<seq<Byte>>)
    requires AllSendable(sendings)
  {
    if sendings == [] then [] else
      SendingIsWhole(sendings[0]);
      [EncodeFrame(KindOf(sendings[0].message), FieldsOf(sendings[0])).value] + FramesOf(sendings[1..])
  }

  lemma {:induction false} FramesAreWhole(sendings: seq<Sending>)
    requires AllSendable(sendings)
    ensures AllWhole(FramesOf(sendings)) && |FramesOf(sendings)| == |sendings|
    ensures forall i | 0 <= i < |sendings| :: DecodeFrame(FramesOf(sendings)[i]) == Success(ValuesOf(sendings[i]))
  {
    if sendings != [] {
      SendingIsWhole(sendings[0]);
      FramesAreWhole(sendings[1..]);
    }
  }

  /**
   However the bytes of the robot's messages are cut, and wherever the connection ends, the backend's buffer gives back
   frames that decode to exactly the messages that had arrived whole; all of them if nothing stayed unread.
   */
  lemma {:induction false} MessagesArrive(sendings: seq<Sending>, chunks: seq<seq<Byte>>, unread: seq<Byte>) returns (k: nat)
    requires AllSendable(sendings)
    requires Flatten(chunks) + unread == Flatten(FramesOf(sendings))
    requires forall chunk | chunk in chunks :: |chunk| <= RECEIVE_BYTES
    ensures k <= |sendings| == |FramesOf(sendings)| && (unread == [] ==> k == |sendings|)
    ensures var fed := FeedAll([], chunks, MAXIMUM_BYTES);
            && fed.outcome.Success? && |fed.outcome.value| == k
            && (forall i | 0 <= i < k :: DecodeFrame(fed.outcome.value[i]) == Success(ValuesOf(sendings[i])))
            && fed.buffer + unread == Flatten(FramesOf(sendings)[k..])
            && (k < |sendings| ==> |fed.buffer| < |FramesOf(sendings)[k]|)
  {
    FramesAreWhole(sendings);
    var frames := FramesOf(sendings);
    hide FramesOf, FeedAll, Flatten;
    assert [] + Flatten(chunks) == Flatten(chunks);
    assert frames != [] ==> frames[0] in frames;
    var got, left, rest := CutStreamsGiveAPrefix([], chunks, unread, frames);
    k := |got|;
    assert frames[k..] == left;
    if unread == [] {
      assert rest + unread == rest;
      OnlyPartIsLess(rest, left);
    }
  }

  predicate BringsGenuine(frame: seq<Byte>, sent: seq<Message>) {
    var decoded := DecodeFrame(frame);
    && decoded.Success? && |decoded.value| >= 2
    && (decoded.value[1] == KIND_EVENT ==> Genuine(sent, decoded.value))
  }

  lemma {:induction false} SentIsGenuine(s: Sending, frame: seq<Byte>, sent: seq<Message>)
    requires Sendable(s) && s.message in sent && DecodeFrame(frame) == Success(ValuesOf(s))
    ensures BringsGenuine(frame, sent)
  {
    hide DecodeFrame;
    var values := ValuesOf(s);
    assert values[1] == KindOf(s.message);
    if values[1] == KIND_EVENT {
      assert s.message.Event?;
      assert values == EventValues(s.message);
    }
  }

  /** What an uncorrupted socket brings is genuine: every event frame is one the robot has sent. */
  lemma {:induction false} UncorruptedSocketIsGenuine(sendings: seq<Sending>, chunks: seq<seq<Byte>>,
        unread: seq<Byte>, sent: seq<Message>)
    requires AllSendable(sendings) && forall i | 0 <= i < |sendings| :: sendings[i].message in sent
    requires Flatten(chunks) + unread == Flatten(FramesOf(sendings))
    requires forall chunk | chunk in chunks :: |chunk| <= RECEIVE_BYTES
    ensures var fed := FeedAll([], chunks, MAXIMUM_BYTES);
            fed.outcome.Success? && forall frame | frame in fed.outcome.value :: BringsGenuine(frame, sent)
  {
    var k := MessagesArrive(sendings, chunks, unread);
    var frames := FeedAll([], chunks, MAXIMUM_BYTES).outcome.value;
    hide FeedAll, Flatten, FramesOf, DecodeFrame, BringsGenuine, Sendable, ValuesOf;
    forall frame | frame in frames
      ensures BringsGenuine(frame, sent)
    {
      var i :| 0 <= i < k && frames[i] == frame;
      SentIsGenuine(sendings[i], frame, sent);
    }
  }

  // ---------- what the backend knows of the robot ----------

  /** The backend's view of the robot is the robot itself. */
  predicate InStep(b: Backend, r: Robot) {
    b.session == Some(r.session) && b.lastSequence == r.lastSequence && b.lastEvent == r.lastEvent && b.latched == r.latched
  }

  /**
   A robot that connects greets the backend with where it stands, and a backend that gets the greeting, whatever it knew,
   is in step with the robot: it knows the outcome the log gives the last command taken, and keeps its records exactly
   if they are of this session.
   */
  lemma {:induction false} GreetingReconciles(w: World, j: Journal, socket: nat, setup: Setup)
    requires !w.robot.connected && !w.robot.main.Stopped? && AnswerHolds(w.robot, w.log)
    ensures var after, s := Step(w, SocketOpens(true), setup), Sending(Hello(w.robot.session, w.robot.lastSequence, w.robot.lastEvent, w.robot.latched), []);
            var b := Deliver(j, First(socket, ValuesOf(s))).backend;
            && after.sent == w.sent + [s.message] && after.robot.connected
            && InStep(b, after.robot) && b.connection == Some(socket) && b.generation == j.backend.generation + 1
            && b.lastFault == 0
            && b.lastEvent == Answer(w.log, Accepting(w.robot))
            && if OtherSession(j.backend, w.robot.session) then b.events == Empty() && b.history == Empty() && b.telemetry == None
               else b.events == j.backend.events && b.history == j.backend.history && b.telemetry == j.backend.telemetry
  {
    hide LastOutcome, WaitsFor;
  }

  /**
   An event the backend records, on the connection it is greeted on, is the last of its sequence's history, and tells the
   backend its code, its fault, whether the robot is latched by it, and that the robot has got as far as it says.
   */
  lemma {:induction false} EventIsRecorded(b: Backend, socket: nat, m: Message)
    requires Valid(b) && b.connection == Some(socket) && m.Event? && Refusal(b, ReportOf(EventValues(m))).None?
    ensures var r := HandleFrame(b, socket, EventValues(m));
            && r.Success?
            && m.sequence in r.value.events.entries && m.sequence in r.value.history.entries
            && r.value.history.entries[m.sequence] != []
            && r.value.events.entries[m.sequence] == Reported(m.sequence, m.code, m.fault, 1, m.session)
            && r.value.history.entries[m.sequence][|r.value.history.entries[m.sequence]| - 1] == r.value.events.entries[m.sequence]
            && r.value.lastEvent == m.code && r.value.lastFault == m.fault && (r.value.latched <==> m.code == EVENT_LATCHED)
            && r.value.lastSequence >= m.lastSequence && r.value.lastSequence >= m.sequence
            && (r.value.lastSequence == m.lastSequence || r.value.lastSequence == m.sequence)
            && r.value.connection == b.connection && r.value.generation == b.generation
  {
    var e := ReportOf(EventValues(m));
    RecordedEvent(b, EventValues(m));
    RecordIsValid(b, e, m.lastSequence);
    TouchIsValid(b.events, e.sequence, e);
    PrunedKeepsLatest(b.events.Touch(e.sequence, e), MAXIMUM_RETAINED);
    NewestIsKept(b.events, e);
    assert EntryHolds(Record(b, e, m.lastSequence), e.sequence);
    hide Pruned, Refusal, Lengthened;
  }

  lemma {:induction false} NewestIsKept(d: OrderedDict<Reported>, e: Reported)
    requires d.Valid()
    ensures var after := Pruned(d.Touch(e.sequence, e), MAXIMUM_RETAINED);
            e.sequence in after.entries && after.entries[e.sequence] == e
  {
    var touched := d.Touch(e.sequence, e);
    TouchIsValid(d, e.sequence, e);
    PrunedKeepsLatest(touched, MAXIMUM_RETAINED);
    assert touched.order[|touched.order| - 1] == e.sequence;
    LatestKeepsNewest(touched.order, MAXIMUM_RETAINED);
    hide Pruned, Without;
  }

  lemma {:induction false} LatestKeepsNewest(s: seq<int>, limit: nat)
    requires s != [] && limit > 0
    ensures s[|s| - 1] in Latest(s, limit)
  {
    var kept := Latest(s, limit);
    assert kept[|kept| - 1] == s[|s| - 1];
  }
}
