/**
 The supervisor program that app/robot_scripts.py generates for the robot: two threads over shared
 globals, each running without interruption between the points where it waits.
 */
module RobotProgram {
  import opened Frames

  const EVENT_ACCEPTED := 1
  const EVENT_RUNNING := 2
  const EVENT_COMPLETED := 3
  const EVENT_FAULTED := 4
  const EVENT_LATCHED := 5
  const EVENT_IDLE := 6

  const OP_CLEAR_LATCH := 20
  const OP_ENTER_MAINTENANCE := 21

  const FAULT_BAD_FRAME := 101
  const FAULT_UNEXPECTED_KIND := 102
  const FAULT_REJECTED := 103
  const FAULT_LINK_LOST := 104
  const FAULT_CONFLICT := 105

  /** What the pool positions and the heartbeat setting fix when the program is generated. */
  datatype Setup = Setup(slots: seq<int>, heartbeatMissLimit: nat)

  /** The command registers. */
  datatype Command = Command(sequence: int, opcode: int, argument: int, value: int, payloadG: int)

  /** What the main loop does once the event it is publishing has been sent. */
  datatype Then = AfterDuplicate | AfterClear | AfterMaintenance | AfterRejection
    | AfterAccepted | AfterRunning | AfterUnknown | AfterOutcome

  /** Where the main loop waits. */
  datatype Main = Idle | Publishing(sequence: int, code: int, next: Then) | Moving | Stopped

  datatype Robot = Robot(
    connected: bool, linkLost: bool, latched: bool, motionActive: bool, maintenanceRequested: bool,
    session: int, lastSequence: int, lastEvent: int, lastFault: int,
    command: Command,
    pendingSequence: int, pendingCode: int, pendingFault: int,
    sentSequence: int, sentCode: int,
    missedHeartbeats: nat,
    main: Main)
  {
    predicate InFlight() {
      motionActive || command.sequence > 0
    }
  }

  /** Frames the robot puts on its socket. */
  datatype Message =
    | Hello(session: int, lastSequence: int, lastEvent: int, latched: bool)
    | Event(session: int, sequence: int, code: int, fault: int, lastSequence: int)
    | Telemetry(session: int, lastSequence: int)

  /** What happened, in the order it happened. */
  datatype Happening =
    | BootedWith(seed: int)
    | Heard(words: seq<int>)
    | Silence
    | LinkLost
    | Accepted(sequence: int)
    | Cleared(sequence: int)
    | MaintenanceEntered(sequence: int)
    | Rejected(sequence: int)
    | Entered(sequence: int)
    | Returned(sequence: int)

  /** One turn's effect: the robot after it, what happened and what was sent. */
  datatype Turned = Turned(robot: Robot, happened: seq<Happening>, sent: seq<Message>)

  function Quiet(robot: Robot): Turned {
    Turned(robot, [], [])
  }

  function Booted(session: int, seed: int): Robot {
    Robot(false, false, false, false, false, session, seed, EVENT_IDLE, 0,
          Command(0, 0, 0, 0, 0), 0, 0, 0, 0, 0, 0, Idle)
  }

  // ---------- the main loop ----------

  function Publish(r: Robot, sequence: int, code: int, fault: int, next: Then): Robot {
    r.(pendingSequence := sequence, pendingCode := code, pendingFault := fault, sentCode := 0,
       main := Publishing(sequence, code, next))
  }

  /** From the head of the main loop to its next wait. */
  function LoopHead(r: Robot): Turned {
    var c := r.command;
    if r.maintenanceRequested then
      Quiet(r.(main := Stopped))
    else if c.sequence <= 0 then
      Quiet(r.(main := Idle))
    else if c.sequence == r.lastSequence then
      Quiet(Publish(r, r.lastSequence, r.lastEvent, r.lastFault, AfterDuplicate))
    else if c.opcode == OP_CLEAR_LATCH && c.sequence == r.lastSequence + 1 then
      var cleared := r.(lastSequence := c.sequence, latched := false, linkLost := false, lastFault := 0, lastEvent := EVENT_COMPLETED);
      Turned(Publish(cleared, c.sequence, EVENT_COMPLETED, 0, AfterClear), [Cleared(c.sequence)], [])
    else if c.opcode == OP_ENTER_MAINTENANCE && c.sequence == r.lastSequence + 1 then
      var entered := r.(lastSequence := c.sequence, lastEvent := EVENT_COMPLETED);
      Turned(Publish(entered, c.sequence, EVENT_COMPLETED, 0, AfterMaintenance), [MaintenanceEntered(c.sequence)], [])
    else if r.latched || c.sequence != r.lastSequence + 1 then
      var rejected := r.(latched := true, lastFault := FAULT_REJECTED);
      Turned(Publish(rejected, c.sequence, EVENT_LATCHED, FAULT_REJECTED, AfterRejection), [Rejected(c.sequence)], [])
    else
      var accepted := r.(lastSequence := c.sequence, lastEvent := EVENT_ACCEPTED, lastFault := 0);
      Turned(Publish(accepted, c.sequence, EVENT_ACCEPTED, 0, AfterAccepted), [Accepted(c.sequence)], [])
  }

  function ForgetCommand(r: Robot): Robot {
    r.(command := r.command.(sequence := 0))
  }

  /** The dispatcher has a branch for this command. */
  predicate Known(c: Command, setup: Setup) {
    || (c.opcode in [1, 2, 5] && c.argument in setup.slots)
    || c.opcode in [3, 4, 6, 10, 11, 12, OP_CLEAR_LATCH, OP_ENTER_MAINTENANCE]
  }

  /** Entering the dispatcher. */
  function Dispatch(r: Robot, setup: Setup): Turned {
    var started := r.(linkLost := false);
    if Known(r.command, setup) then
      Turned(started.(
               latched := if r.command.opcode == OP_CLEAR_LATCH then false else r.latched,
               maintenanceRequested := r.command.opcode == OP_ENTER_MAINTENANCE || r.maintenanceRequested,
               main := Moving),
             [Entered(r.lastSequence)], [])
    else
      Quiet(Publish(started.(latched := true), r.command.sequence, EVENT_LATCHED, FAULT_UNEXPECTED_KIND, AfterUnknown))
  }

  /** The main loop runs on from where it waits, unless its event is still to be sent. */
  function MainTurn(r: Robot, setup: Setup): Turned {
    match r.main
    case Idle => LoopHead(r)
    case Moving => Quiet(r)
    case Stopped => Quiet(r)
    case Publishing(sequence, code, next) =>
      if (r.sentSequence != sequence || r.sentCode != code) && !r.maintenanceRequested then Quiet(r)
      else Resume(r, next, setup)
  }

  function Resume(r: Robot, next: Then, setup: Setup): Turned {
    match next
    case AfterMaintenance => LoopHead(ForgetCommand(r).(maintenanceRequested := true))
    case AfterAccepted =>
      Quiet(Publish(r.(motionActive := true, lastEvent := EVENT_RUNNING), r.command.sequence, EVENT_RUNNING, 0, AfterRunning))
    case AfterRunning => Dispatch(r, setup)
    case AfterUnknown => LoopHead(r)
    case _ => LoopHead(ForgetCommand(r))
  }

  /** The dispatched function returns; its outcome is decided and published. */
  function MotionReturns(r: Robot): Turned {
    if !r.main.Moving? then Quiet(r) else
      var done := r.(motionActive := false);
      var published :=
        if r.linkLost then
          Publish(done.(lastEvent := EVENT_LATCHED, latched := true, lastFault := FAULT_LINK_LOST),
                  r.lastSequence, EVENT_LATCHED, FAULT_LINK_LOST, AfterOutcome)
        else if r.latched then
          Publish(done.(lastEvent := EVENT_LATCHED), r.lastSequence, EVENT_LATCHED, r.lastFault, AfterOutcome)
        else
          Publish(done.(lastEvent := EVENT_COMPLETED), r.lastSequence, EVENT_COMPLETED, 0, AfterOutcome);
      Turned(published, [Returned(r.lastSequence)], [])
  }

  // ---------- the communication thread ----------

  /** An attempt to open the socket. */
  function Connect(r: Robot, ok: bool): Turned {
    if r.main.Stopped? || r.connected || !ok then Quiet(r)
    else
      Turned(r.(connected := true, missedHeartbeats := 0), [],
             [Hello(r.session, r.lastSequence, r.lastEvent, r.latched)])
  }

  predicate GoodFrame(words: seq<int>)
    requires |words| == 9
  {
    words[0] == PROTOCOL_VERSION && words[8] == Checksum(words[..8])
  }

  /** A command in flight is kept: a repeat of it is answered with where it stands, another command latches. */
  function CommandInFlight(r: Robot, sequence: int): Robot {
    if sequence == r.lastSequence then
      r.(pendingSequence := r.lastSequence, pendingCode := r.lastEvent, pendingFault := r.lastFault, sentCode := 0)
    else r.(latched := true, lastFault := FAULT_CONFLICT)
  }

  function IncomingCommand(r: Robot, c: Command): Robot {
    if r.InFlight() then CommandInFlight(r, c.sequence) else r.(command := c)
  }

  /** A whole frame of nine integers has been read. */
  function TakeFrame(r: Robot, words: seq<int>): Robot
    requires |words| == 9
  {
    if !GoodFrame(words) then r.(latched := true, lastFault := FAULT_BAD_FRAME)
    else
      var heard := r.(missedHeartbeats := 0);
      if words[1] == KIND_COMMAND then
        IncomingCommand(heard, Command(words[3], words[4], words[5], words[6], words[7]))
      else if words[1] != KIND_HEARTBEAT then heard.(latched := true, lastFault := FAULT_UNEXPECTED_KIND)
      else heard
  }

  /** Send the pending event unless it is the one last sent. */
  function SendPending(r: Robot): (sent: (Robot, seq<Message>)) {
    if r.pendingSequence != r.sentSequence || r.pendingCode != r.sentCode then
      (r.(sentSequence := r.pendingSequence, sentCode := r.pendingCode),
       [Event(r.session, r.pendingSequence, r.pendingCode, r.pendingFault, r.lastSequence)])
    else (r, [])
  }

  function DropLink(r: Robot, setup: Setup, happened: seq<Happening>, sent: seq<Message>): Turned {
    if r.missedHeartbeats >= setup.heartbeatMissLimit then
      Turned(r.(linkLost := true, connected := false), happened + [LinkLost], sent)
    else Turned(r, happened, sent)
  }

  /** One pass of the communication loop while connected; no words means the read gave no whole frame. */
  function Read(r: Robot, setup: Setup, words: seq<int>): Turned {
    if r.main.Stopped? || !r.connected then Quiet(r)
    else if |words| == 9 then
      var (sender, events) := SendPending(TakeFrame(r, words));
      DropLink(sender, setup, [Heard(words)], events + [Telemetry(sender.session, sender.lastSequence)])
    else
      DropLink(r.(missedHeartbeats := r.missedHeartbeats + 1), setup, [Silence], [])
  }
}
