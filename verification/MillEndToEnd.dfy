/** Agent, wire and backend together. */
module MillEndToEnd {
  import opened Outcomes
  import opened OrderedDicts
  import opened MillAgent
  import opened MillAgentSafety
  import opened MillAgentTheorems
  import opened MillAgentRepeats
  import opened MillAgentGreetings
  import opened MillAgentRuns
  import MillStatus
  import M = MillManager

  datatype System = System(world: World, backend: M.Backend)

  datatype Move =
    | AgentActs(action: Action)
    | Greeted(socket: nat, message: M.Message)
    | Received(socket: nat, message: M.Message)
    | Ended(socket: nat)

  function TextOf(e: Name): string {
    match e
    case Accepted => "accepted"
    case Running => "running"
    case Completed => "completed"
    case Faulted => "faulted"
    case Latched => "latched"
  }

  function ResultText(r: Option<LastResult>): Option<M.Outcome> {
    if r.None? then None else Some(M.Outcome(r.value.sequence, TextOf(r.value.event)))
  }

  /** The message is one the agent has sent, at any time and on any connection. */
  predicate Genuine(sent: seq<Report>, m: M.Message) {
    match m
    case Hello(_, last, result) => exists r | r in sent :: r.Hello? && last == r.lastSequence && result == ResultText(r.lastResult)
    case Event(s, name) => exists r | r in sent :: r.Event? && s == r.sequence && name == TextOf(r.event)
    case _ => true
  }

  /** The wire may lose, delay, repeat and reorder the agent's messages, but not make them up. */
  predicate Possible(s: System, move: Move) {
    match move
    case AgentActs(_) => true
    case Greeted(_, m) => Genuine(s.world.sent, m)
    case Received(_, m) => Genuine(s.world.sent, m)
    case Ended(_) => true
  }

  function Make(s: System, move: Move, enabled: bool): System
    requires Possible(s, move)
  {
    match move
    case AgentActs(action) => s.(world := Step(s.world, action, enabled))
    case Greeted(socket, m) => s.(backend := M.Settle(s.backend, socket, M.Greet(s.backend, socket, m)))
    case Received(socket, m) => s.(backend := M.Settle(s.backend, socket, M.Handle(s.backend, m)))
    case Ended(socket) => s.(backend := M.Disconnect(s.backend, socket))
  }

  predicate AllPossible(s: System, moves: seq<Move>, enabled: bool)
    decreases |moves|
  {
    moves == [] || (Possible(s, moves[0]) && AllPossible(Make(s, moves[0], enabled), moves[1..], enabled))
  }

  function MakeAll(s: System, moves: seq<Move>, enabled: bool): System
    requires AllPossible(s, moves, enabled)
    decreases |moves|
  {
    if moves == [] then s else MakeAll(Make(s, moves[0], enabled), moves[1..], enabled)
  }

  function Start(): System {
    System(PowerOn(), M.Fresh())
  }

  // ---------- the invariant ----------

  ghost predicate RecordsTrue(b: M.Backend, log: seq<Happening>) {
    forall s :: RecordTrue(b, s, log)
  }

  ghost predicate RecordTrue(b: M.Backend, s: int, log: seq<Happening>) {
    "completed" in M.EventsFor(b, s) && NoneCrossed(log) ==> Justified(log, s)
  }

  ghost predicate SystemHolds(s: System) {
    && Holds(s.world) && IdleWasBegun(s.world.log) && M.Valid(s.backend) && RecordsTrue(s.backend, s.world.log)
    && (NoRepeats(s.world.log) ==> NoneCrossed(s.world.log))
    && PositiveHolds(s.world)
  }

  lemma {:induction false} OneHappening(a: Agent, action: Action, enabled: bool)
    ensures |Act(a, action, enabled).happened| <= 1
  {
    hide MillAgent.HandleCommand, Conclude, Faulting, Raise;
  }

  lemma {:induction false} RecordsStay(b: M.Backend, log: seq<Happening>, more: seq<Happening>)
    requires RecordsTrue(b, log) && |more| <= 1
    ensures RecordsTrue(b, log + more)
  {
    if more == [] {
      assert log + more == log;
    } else {
      assert more == [more[0]];
      forall s | "completed" in M.EventsFor(b, s) && NoneCrossed(log + more)
        ensures Justified(log + more, s)
      {
        FewerCrossed(log, more);
        assert RecordTrue(b, s, log);
        JustifiedStays(log, more[0], s);
      }
    }
  }

  lemma {:induction false} AgentMoveHolds(s: System, action: Action, enabled: bool)
    requires SystemHolds(s)
    ensures SystemHolds(Make(s, AgentActs(action), enabled))
  {
    StepHolds(s.world, action, enabled);
    IdleStep(s.world, action, enabled);
    StepCrosses(s.world, action, enabled);
    StepPositive(s.world, action, enabled);
    OneHappening(s.world.agent, action, enabled);
    hide Holds, IdleWasBegun, RecordsTrue, M.Valid, Act, NoRepeats, NoneCrossed, PositiveHolds;
    RecordsStay(s.backend, s.world.log, Act(s.world.agent, action, enabled).happened);
  }

  lemma {:induction false} AddedIsTrue(b: M.Backend, sequence: int, name: string, log: seq<Happening>)
    requires M.Valid(b) && sequence > 0 && RecordsTrue(b, log)
    requires name == "completed" && NoneCrossed(log) ==> Justified(log, sequence)
    ensures RecordsTrue(M.Add(b, sequence, name), log)
  {
    hide Justified, NoneCrossed;
    M.AddIsValid(b, sequence, name);
    var after := M.Add(b, sequence, name);
    forall s
      ensures RecordTrue(after, s, log)
    {
      assert RecordTrue(b, s, log);
      if s in after.events.entries && s != sequence {
        assert M.EventsFor(after, s) == M.EventsFor(b, s);
      }
    }
  }

  lemma {:induction false} SameRecords(b: M.Backend, after: M.Backend, log: seq<Happening>)
    requires RecordsTrue(b, log) && after.events == b.events
    ensures RecordsTrue(after, log)
  {
    forall s
      ensures RecordTrue(after, s, log)
    {
      assert RecordTrue(b, s, log);
    }
  }

  lemma {:induction false} EndedHolds(s: System, socket: nat)
    requires SystemHolds(s)
    ensures SystemHolds(s.(backend := M.Disconnect(s.backend, socket)))
  {
    SameRecords(s.backend, M.Disconnect(s.backend, socket), s.world.log);
    hide Holds, RecordsTrue, PositiveHolds;
  }

  lemma {:induction false} GreetedHolds(s: System, socket: nat, hello: M.Message, enabled: bool)
    requires SystemHolds(s) && Possible(s, Greeted(socket, hello))
    ensures SystemHolds(Make(s, Greeted(socket, hello), enabled))
  {
    var b, log := s.backend, s.world.log;
    M.MessagesKeepValid(b, socket, hello);
    EndedHolds(s, socket);
    var r := M.Greet(b, socket, hello);
    if r.Success? {
      var greeted := r.value.(events := b.events);
      SameRecords(b, greeted, log);
      var news := M.News(b, hello.lastResult);
      if news.Some? {
        var report :| report in s.world.sent && report.Hello? && hello.lastResult == ResultText(report.lastResult);
        assert True(report, log);
        assert M.Valid(greeted);
        AddedIsTrue(greeted, news.value.sequence, news.value.event, log);
        SameRecords(M.Add(greeted, news.value.sequence, news.value.event), r.value, log);
      }
    }
    hide Holds, RecordsTrue, PositiveHolds;
  }

  lemma {:induction false} ReceivedHolds(s: System, socket: nat, m: M.Message, enabled: bool)
    requires SystemHolds(s) && Possible(s, Received(socket, m))
    ensures SystemHolds(Make(s, Received(socket, m), enabled))
  {
    var b, log := s.backend, s.world.log;
    EndedHolds(s, socket);
    M.MessagesKeepValid(b, 0, m);
    if m.Event? && m.sequence > 0 {
      var report :| report in s.world.sent && report.Event? && m.sequence == report.sequence && m.name == TextOf(report.event);
      assert True(report, log);
      AddedIsTrue(b, m.sequence, m.name, log);
      SameRecords(M.Add(b, m.sequence, m.name), M.Handle(b, m).value, log);
    }
    hide Holds, RecordsTrue, PositiveHolds;
  }

  lemma {:induction false} SystemAlwaysHolds(s: System, moves: seq<Move>, enabled: bool)
    requires SystemHolds(s) && AllPossible(s, moves, enabled)
    ensures SystemHolds(MakeAll(s, moves, enabled))
    decreases |moves|
  {
    hide SystemHolds, Possible;
    if moves != [] {
      match moves[0] {
        case AgentActs(action) => AgentMoveHolds(s, action, enabled);
        case Greeted(socket, m) => GreetedHolds(s, socket, m, enabled);
        case Received(socket, m) => ReceivedHolds(s, socket, m, enabled);
        case Ended(socket) => EndedHolds(s, socket);
      }
      SystemAlwaysHolds(Make(s, moves[0], enabled), moves[1..], enabled);
    }
  }

  /**
   If no repeat crosses another's result, or none comes at all: whatever crashes, reconnects and disorder on the wire, a
   sequence the backend records as completed was probed or seen idle; and if its program was begun with proof required,
   it was seen idle with the completion file proving it.
   */
  lemma {:induction false} CompletedRecordIsTrue(moves: seq<Move>, enabled: bool, s: int)
    requires AllPossible(Start(), moves, enabled)
    requires var log := MakeAll(Start(), moves, enabled).world.log;
             NoneCrossed(log) || NoRepeats(log)
    requires "completed" in M.EventsFor(MakeAll(Start(), moves, enabled).backend, s)
    ensures var log := MakeAll(Start(), moves, enabled).world.log;
            Justified(log, s) && ProvenIfRequired(log, s)
  {
    StartHolds();
    StartPositive();
    SystemAlwaysHolds(Start(), moves, enabled);
    var end := MakeAll(Start(), moves, enabled);
    assert RecordTrue(end.backend, s, end.world.log);
    hide Holds, NoneCrossed, NoRepeats, M.Valid, PositiveHolds;
    assert UsesIncrease(end.world.log) by { WhatHolds(end.world); }
    JustifiedIsProven(end.world.log, s);
  }

  lemma {:induction false} WhatHolds(w: World)
    requires Holds(w)
    ensures UsesIncrease(w.log)
  {
  }

  // ---------- a saved result arrives ----------

  function GreetingOf(session: int, state: Saved): M.Message {
    M.Hello(session, state.lastSequence, ResultText(state.lastResult))
  }

  /** A greeting, whatever the backend knew, tells it where the agent stands, and a final result it carries is recorded. */
  lemma {:induction false} GreetingIsTaken(b: M.Backend, socket: nat, session: int, state: Saved)
    requires M.Valid(b) && session > 0
    ensures var r := M.Greet(b, socket, GreetingOf(session, state));
            && r.Success? && r.value.connection == Some(socket) && r.value.generation == b.generation + 1
            && r.value.session == Some(session) && r.value.lastSequence == state.lastSequence
            && r.value.lastResult == ResultText(state.lastResult)
            && (state.lastResult.Some? && state.lastResult.value.sequence > 0 && state.lastResult.value.event in [Completed, Faulted, Latched] ==>
                  TextOf(state.lastResult.value.event) in M.EventsFor(r.value, state.lastResult.value.sequence))
  {
    M.GreetingAddsOnlyNews(b, socket, GreetingOf(session, state));
    hide M.Valid, M.Add;
  }

  /**
   An event the agent reports is added to its sequence's record, the only one that changes, and tells the backend how far
   the agent has got and, if it is final, what came of it.
   */
  lemma {:induction false} EventIsTaken(b: M.Backend, s: int, e: Name)
    requires M.Valid(b) && s > 0
    ensures var r := M.Handle(b, M.Event(s, TextOf(e)));
            && r.Success? && M.Valid(r.value) && M.EventsFor(r.value, s) == M.EventsFor(b, s) + [TextOf(e)]
            && (forall other | other in r.value.events.entries && other != s ::
                  other in b.events.entries && r.value.events.entries[other] == b.events.entries[other])
            && r.value.lastSequence >= s && r.value.lastSequence >= b.lastSequence
            && r.value.lastSequence in [s, b.lastSequence]
            && r.value.lastResult == (if e in [Completed, Faulted, Latched] then Some(M.Outcome(s, TextOf(e))) else b.lastResult)
            && r.value.connection == b.connection && r.value.generation == b.generation && r.value.session == b.session
  {
    M.AddIsValid(b, s, TextOf(e));
    M.MessagesKeepValid(b, 0, M.Event(s, TextOf(e)));
    hide M.Valid, Pruned;
  }

  /** Events of one sequence arrive in the order they were sent. */
  function HearAll(b: M.Backend, s: int, names: seq<Name>): M.Backend
    requires s > 0
    decreases |names|
  {
    if names == [] then b else HearAll(M.Handle(b, M.Event(s, TextOf(names[0]))).value, s, names[1..])
  }

  lemma {:induction false} ThreeAreHeard(b: M.Backend, s: int, first: Name, second: Name, third: Name)
    requires M.Valid(b) && s > 0
    ensures var after := HearAll(b, s, [first, second, third]);
            && M.EventsFor(after, s) == M.EventsFor(b, s) + [TextOf(first), TextOf(second), TextOf(third)]
            && (third in [Completed, Faulted, Latched] ==> after.lastResult == Some(M.Outcome(s, TextOf(third))))
            && after.lastSequence >= s
  {
    hide M.Handle, M.Valid, M.EventsFor, TextOf;
    EventIsTaken(b, s, first);
    var once := M.Handle(b, M.Event(s, TextOf(first))).value;
    EventIsTaken(once, s, second);
    var twice := M.Handle(once, M.Event(s, TextOf(second))).value;
    EventIsTaken(twice, s, third);
    var all := [first, second, third];
    assert all[1..] == [second, third] && all[1..][1..] == [third] && all[1..][1..][1..] == [];
    assert HearAll(twice, s, [third]) == HearAll(M.Handle(twice, M.Event(s, TextOf(third))).value, s, []);
    assert HearAll(b, s, all) == M.Handle(twice, M.Event(s, TextOf(third))).value;
  }

  /** A program's events, all of one sequence, in the order they are sent. */
  predicate Reports(sent: seq<Report>, s: int, names: seq<Name>) {
    |sent| == |names| && forall i | 0 <= i < |sent| :: sent[i] == Event(s, names[i])
  }

  /**
   From a program's message to the backend's records: once it is accepted, started and seen idle with a file that proves
   its end, or with no proof required, and what the agent sent has arrived, the backend has it completed.
   */
  lemma {:induction false} ProgramIsAnswered(w: World, c: Command, signature: Option<MillStatus.Signature>, program: string,
      file: MillStatus.StatusFile, b: M.Backend)
    requires NewIsNext(w.agent, c) && |w.agent.queue| == 1 && c.operation.RunProgram? && w.agent.active.None?
    requires !c.requireProof || MillStatus.Judge(file, program, signature) == MillStatus.Completed
    requires M.Valid(b) && c.sequence > 0
    ensures var after, names := Run(w, ToEnd(signature, program, file), true), [Accepted, Running, Completed];
            && w.sent <= after.sent && Reports(after.sent[|w.sent|..], c.sequence, names)
            && var heard := HearAll(b, c.sequence, names);
               && M.EventsFor(heard, c.sequence) == M.EventsFor(b, c.sequence) + ["accepted", "running", "completed"]
               && heard.lastResult == Some(M.Outcome(c.sequence, "completed"))
  {
    hide Run, ToEnd, MillStatus.Judge, HearAll, M.EventsFor, M.Valid;
    ProgramRuns(w, c, signature, program, file);
    ThreeAreHeard(b, c.sequence, Accepted, Running, Completed);
  }

  /** The connection is the socket last greeted on, until that socket ends or breaks the protocol. */
  lemma {:induction false} ConnectionIsTheLastGreeted(s: System, move: Move, enabled: bool)
    requires Possible(s, move)
    ensures var before, after := s.backend.connection, Make(s, move, enabled).backend.connection;
            match move
            case AgentActs(_) => after == before
            case Greeted(socket, m) =>
              after == if m.Hello? && m.session > 0 then Some(socket) else if before == Some(socket) then None else before
            case Received(socket, m) =>
              after == if (m.Hello? || m.Unexpected? || (m.Event? && m.sequence <= 0)) && before == Some(socket) then None else before
            case Ended(socket) => after == if before == Some(socket) then None else before
  {
    hide Genuine, M.EventsFor, Step, Pruned;
  }

  function CrashAndReturn(socket: nat, session: int, state: Saved): seq<Move> {
    [AgentActs(Crash), AgentActs(Boot), AgentActs(Connect(true)), AgentActs(Proceed), Greeted(socket, GreetingOf(session, state))]
  }

  function Return(socket: nat, session: int, state: Saved): seq<Move> {
    [AgentActs(Connect(true)), AgentActs(Proceed), Greeted(socket, GreetingOf(session, state))]
  }

  ghost predicate Arrives(s: System, moves: seq<Move>, enabled: bool, r: LastResult) {
    && AllPossible(s, moves, enabled)
    && TextOf(r.event) in M.EventsFor(MakeAll(s, moves, enabled).backend, r.sequence)
  }

  /** A connection that delivers the greeting of a disconnected agent brings its result to the backend. */
  lemma {:induction false} ResultArrives(s: System, socket: nat, session: int, enabled: bool)
    requires SystemHolds(s) && session > 0 && s.world.agent.place.Disconnected?
    requires var r := s.world.agent.state.lastResult;
             r.Some? && r.value.event in [Completed, Faulted, Latched]
    ensures Arrives(s, Return(socket, session, s.world.agent.state), enabled, s.world.agent.state.lastResult.value)
  {
    var state, greeting := s.world.agent.state, GreetingOf(session, s.world.agent.state);
    var moves := Return(socket, session, state);
    var linked := s.(world := Step(s.world, Connect(true), enabled));
    var greeted := s.(world := Step(linked.world, Proceed, enabled));
    assert state.lastResult.value.sequence > 0;
    GreetingIsTaken(s.backend, socket, session, state);
    hide SystemHolds, M.Greet;
    assert greeted.world.sent == s.world.sent + [Hello(state.lastSequence, state.lastResult)];
    assert Hello(state.lastSequence, state.lastResult) in greeted.world.sent;
    assert Genuine(greeted.world.sent, greeting);
    Three(s, moves[0], moves[1], moves[2], enabled);
  }

  lemma {:induction false} Three(s: System, first: Move, second: Move, third: Move, enabled: bool)
    requires Possible(s, first) && Possible(Make(s, first, enabled), second)
    requires Possible(Make(Make(s, first, enabled), second, enabled), third)
    ensures AllPossible(s, [first, second, third], enabled)
    ensures MakeAll(s, [first, second, third], enabled) == Make(Make(Make(s, first, enabled), second, enabled), third, enabled)
  {
    hide Possible, Make;
    assert [first, second, third][1..] == [second, third] && [second, third][1..] == [third] && [third][1..] == [];
    var last := Make(Make(s, first, enabled), second, enabled);
    assert AllPossible(Make(last, third, enabled), [], enabled) && MakeAll(Make(last, third, enabled), [], enabled) == Make(last, third, enabled);
    assert AllPossible(last, [third], enabled) && MakeAll(last, [third], enabled) == Make(last, third, enabled);
    assert AllPossible(Make(s, first, enabled), [second, third], enabled);
  }

  /**
   A result in the state file is not lost: whatever was in memory, on the wire or known to the backend, once the process
   has crashed, started again and connected, and its greeting is delivered, the backend has the result on record.
   */
  lemma {:induction false} SavedResultArrives(s: System, socket: nat, session: int, enabled: bool)
    requires SystemHolds(s) && session > 0
    requires var r := OnDisk(s.world.agent).lastResult;
             r.Some? && r.value.event in [Completed, Faulted, Latched]
    ensures Arrives(s, CrashAndReturn(socket, session, OnDisk(s.world.agent)), enabled, OnDisk(s.world.agent).lastResult.value)
  {
    var down := s.(world := Step(s.world, Crash, enabled));
    var up := s.(world := Step(down.world, Boot, enabled));
    AgentMoveHolds(s, Crash, enabled);
    AgentMoveHolds(down, Boot, enabled);
    ResultArrives(up, socket, session, enabled);
    hide SystemHolds;
    var moves := CrashAndReturn(socket, session, OnDisk(s.world.agent));
    assert moves[1..][1..] == Return(socket, session, up.world.agent.state);
    TwoMore(s, moves, enabled);
  }

  lemma {:induction false} TwoMore(s: System, moves: seq<Move>, enabled: bool)
    requires |moves| > 2 && Possible(s, moves[0]) && Possible(Make(s, moves[0], enabled), moves[1])
    requires AllPossible(Make(Make(s, moves[0], enabled), moves[1], enabled), moves[1..][1..], enabled)
    ensures AllPossible(s, moves, enabled)
    ensures MakeAll(s, moves, enabled) == MakeAll(Make(Make(s, moves[0], enabled), moves[1], enabled), moves[1..][1..], enabled)
  {
    hide Possible, Make;
    assert AllPossible(Make(s, moves[0], enabled), moves[1..], enabled);
    assert MakeAll(Make(s, moves[0], enabled), moves[1..], enabled)
        == MakeAll(Make(Make(s, moves[0], enabled), moves[1], enabled), moves[1..][1..], enabled);
  }

  /** Both hold in every state of the whole system. */
  lemma {:induction false} SystemHoldsThroughout(moves: seq<Move>, enabled: bool)
    requires AllPossible(Start(), moves, enabled)
    ensures SystemHolds(MakeAll(Start(), moves, enabled))
  {
    StartHolds();
    StartPositive();
    SystemAlwaysHolds(Start(), moves, enabled);
  }
}
