/**
 The generated supervisor program in its own form: globals that two threads assign to. Each method is what one
 thread does between two waits, and is proved to have the effect RobotProgram gives it.
 */
module RobotScript {
  import opened Frames
  import opened RobotProgram

  class SupervisorProgram {
    const setup: Setup
    const session: int
    var connected: bool
    var linkLost: bool
    var latched: bool
    var motionActive: bool
    var maintenanceRequested: bool
    var lastSequence: int
    var lastEvent: int
    var lastFault: int
    var commandSequence: int
    var commandOpcode: int
    var commandArgument: int
    var commandValue: int
    var commandPayloadG: int
    var pendingSequence: int
    var pendingCode: int
    var pendingFault: int
    var sentSequence: int
    var sentCode: int
    var missedHeartbeats: nat
    /** Where the main loop waits. */
    var main: Main

    function State(): Robot
      reads this
    {
      Robot(connected, linkLost, latched, motionActive, maintenanceRequested, session, lastSequence, lastEvent, lastFault,
            Command(commandSequence, commandOpcode, commandArgument, commandValue, commandPayloadG),
            pendingSequence, pendingCode, pendingFault, sentSequence, sentCode, missedHeartbeats, main)
    }

    constructor (setup: Setup, session: int, seed: int)
      ensures State() == Booted(session, seed)
      ensures this.setup == setup
    {
      this.setup, this.session := setup, session;
      connected, linkLost, latched, motionActive, maintenanceRequested := false, false, false, false, false;
      lastSequence, lastEvent, lastFault := seed, EVENT_IDLE, 0;
      commandSequence, commandOpcode, commandArgument, commandValue, commandPayloadG := 0, 0, 0, 0, 0;
      pendingSequence, pendingCode, pendingFault := 0, 0, 0;
      sentSequence, sentCode, missedHeartbeats := 0, 0, 0;
      main := Idle;
    }

    /** `mongo_publish_event`, up to its wait for the communication thread. */
    method PublishEvent(sequence: int, code: int, fault: int, next: Then)
      modifies this
      ensures State() == Publish(old(State()), sequence, code, fault, next)
    {
      pendingSequence := sequence;
      pendingCode := code;
      pendingFault := fault;
      sentCode := 0;
      main := Publishing(sequence, code, next);
    }

    /** From the head of the main loop to its next wait. */
    method RunLoopHead() returns (happened: seq<Happening>)
      modifies this
      ensures Turned(State(), happened, []) == LoopHead(old(State()))
    {
      happened := [];
      if maintenanceRequested {
        main := Stopped;
      } else if commandSequence <= 0 {
        main := Idle;
      } else if commandSequence == lastSequence {
        PublishEvent(lastSequence, lastEvent, lastFault, AfterDuplicate);
      } else {
        happened := TakeCommand();
      }
    }

    /** A command other than the last one taken. */
    method TakeCommand() returns (happened: seq<Happening>)
      requires !maintenanceRequested && commandSequence > 0 && commandSequence != lastSequence
      modifies this
      ensures Turned(State(), happened, []) == LoopHead(old(State()))
    {
      if commandOpcode == OP_CLEAR_LATCH && commandSequence == lastSequence + 1 {
        happened := ClearLatch();
      } else if commandOpcode == OP_ENTER_MAINTENANCE && commandSequence == lastSequence + 1 {
        happened := EnterMaintenance();
      } else if latched || commandSequence != lastSequence + 1 {
        happened := RejectCommand();
      } else {
        happened := AcceptCommand();
      }
    }

    method ClearLatch() returns (happened: seq<Happening>)
      requires !maintenanceRequested && commandSequence == lastSequence + 1 > 0 && commandOpcode == OP_CLEAR_LATCH
      modifies this
      ensures Turned(State(), happened, []) == LoopHead(old(State()))
    {
      ClearingInOrder(State());
      hide LoopHead, Publish;
      lastSequence := commandSequence;
      latched := false;
      linkLost := false;
      lastFault := 0;
      lastEvent := EVENT_COMPLETED;
      PublishEvent(lastSequence, EVENT_COMPLETED, 0, AfterClear);
      return [Cleared(lastSequence)];
    }

    method EnterMaintenance() returns (happened: seq<Happening>)
      requires !maintenanceRequested && commandSequence == lastSequence + 1 > 0 && commandOpcode == OP_ENTER_MAINTENANCE
      modifies this
      ensures Turned(State(), happened, []) == LoopHead(old(State()))
    {
      lastSequence := commandSequence;
      lastEvent := EVENT_COMPLETED;
      PublishEvent(lastSequence, EVENT_COMPLETED, 0, AfterMaintenance);
      return [MaintenanceEntered(lastSequence)];
    }

    method RejectCommand() returns (happened: seq<Happening>)
      requires !maintenanceRequested && commandSequence > 0 && commandSequence != lastSequence
      requires commandSequence != lastSequence + 1 || (latched && commandOpcode !in [OP_CLEAR_LATCH, OP_ENTER_MAINTENANCE])
      modifies this
      ensures Turned(State(), happened, []) == LoopHead(old(State()))
    {
      latched := true;
      lastFault := FAULT_REJECTED;
      PublishEvent(commandSequence, EVENT_LATCHED, lastFault, AfterRejection);
      return [Rejected(commandSequence)];
    }

    method AcceptCommand() returns (happened: seq<Happening>)
      requires !maintenanceRequested && commandSequence == lastSequence + 1 > 0
      requires !latched && commandOpcode !in [OP_CLEAR_LATCH, OP_ENTER_MAINTENANCE]
      modifies this
      ensures Turned(State(), happened, []) == LoopHead(old(State()))
    {
      lastSequence := commandSequence;
      lastEvent := EVENT_ACCEPTED;
      lastFault := 0;
      PublishEvent(commandSequence, EVENT_ACCEPTED, 0, AfterAccepted);
      return [Accepted(lastSequence)];
    }

    /** The chain of branches that calls the function for an opcode. */
    method EnterDispatcher() returns (happened: seq<Happening>)
      modifies this
      ensures Turned(State(), happened, []) == Dispatch(old(State()), setup)
    {
      hide Publish;
      linkLost := false;
      if commandOpcode in [1, 2, 5] && commandArgument in setup.slots {
        main := Moving;
      } else if commandOpcode in [3, 4, 6] {
        main := Moving;
      } else if commandOpcode in [10, 11, 12] {
        main := Moving;
      } else if commandOpcode == OP_CLEAR_LATCH {
        latched := false;
        main := Moving;
      } else if commandOpcode == OP_ENTER_MAINTENANCE {
        maintenanceRequested := true;
        main := Moving;
      } else {
        latched := true;
        PublishEvent(commandSequence, EVENT_LATCHED, FAULT_UNEXPECTED_KIND, AfterUnknown);
        return [];
      }
      return [Entered(lastSequence)];
    }

    /** The main loop runs on from where it waits, unless its event is still to be sent. */
    method RunMain() returns (happened: seq<Happening>)
      modifies this
      ensures Turned(State(), happened, []) == MainTurn(old(State()), setup)
    {
      hide LoopHead, Dispatch;
      happened := [];
      match main
      case Idle => happened := RunLoopHead();
      case Moving =>
      case Stopped =>
      case Publishing(sequence, code, next) =>
        if (sentSequence == sequence && sentCode == code) || maintenanceRequested {
          happened := RunOn(next);
        }
    }

    /** What follows an event that has been sent. */
    method RunOn(next: Then) returns (happened: seq<Happening>)
      modifies this
      ensures Turned(State(), happened, []) == Resume(old(State()), next, setup)
    {
      hide LoopHead, Dispatch, Publish;
      match next {
        case AfterAccepted =>
          motionActive := true;
          lastEvent := EVENT_RUNNING;
          PublishEvent(commandSequence, EVENT_RUNNING, 0, AfterRunning);
          happened := [];
        case AfterRunning =>
          happened := EnterDispatcher();
        case AfterUnknown =>
          happened := RunLoopHead();
        case AfterMaintenance =>
          commandSequence := 0;
          maintenanceRequested := true;
          happened := RunLoopHead();
        case _ =>
          commandSequence := 0;
          happened := RunLoopHead();
      }
    }

    /** The dispatched function has returned. */
    method FinishMotion() returns (happened: seq<Happening>)
      requires main.Moving?
      modifies this
      ensures Turned(State(), happened, []) == MotionReturns(old(State()))
    {
      hide Publish;
      happened := [Returned(lastSequence)];
      motionActive := false;
      if linkLost {
        lastEvent := EVENT_LATCHED;
        latched := true;
        lastFault := FAULT_LINK_LOST;
        PublishEvent(lastSequence, EVENT_LATCHED, lastFault, AfterOutcome);
      } else if latched {
        lastEvent := EVENT_LATCHED;
        PublishEvent(lastSequence, EVENT_LATCHED, lastFault, AfterOutcome);
      } else {
        lastEvent := EVENT_COMPLETED;
        PublishEvent(lastSequence, EVENT_COMPLETED, 0, AfterOutcome);
      }
    }

    /** The communication thread tries to open its socket. */
    method OpenSocket(ok: bool) returns (sent: seq<Message>)
      requires !main.Stopped? && !connected
      modifies this
      ensures Turned(State(), [], sent) == Connect(old(State()), ok)
    {
      connected := ok;
      sent := [];
      if connected {
        missedHeartbeats := 0;
        sent := [Hello(session, lastSequence, lastEvent, latched)];
      }
    }

    /** Nine integers have been read. */
    method TakeIncoming(incoming: seq<int>)
      requires |incoming| == 9
      modifies this
      ensures State() == TakeFrame(old(State()), incoming)
    {
      hide Checksum, IncomingCommand;
      var expected := Checksum(incoming[..8]);
      if incoming[0] == PROTOCOL_VERSION && incoming[8] == expected {
        missedHeartbeats := 0;
        if incoming[1] == KIND_COMMAND {
          TakeIncomingCommand(incoming);
        } else if incoming[1] != KIND_HEARTBEAT {
          latched := true;
          lastFault := FAULT_UNEXPECTED_KIND;
        }
      } else {
        latched := true;
        lastFault := FAULT_BAD_FRAME;
      }
    }

    /** A command frame never overwrites a command in flight. */
    method TakeIncomingCommand(incoming: seq<int>)
      requires |incoming| == 9
      modifies this
      ensures State() == IncomingCommand(old(State()), Command(incoming[3], incoming[4], incoming[5], incoming[6], incoming[7]))
    {
      hide CommandInFlight;
      if motionActive || commandSequence > 0 {
        TakeCommandInFlight(incoming[3]);
      } else {
        commandSequence := incoming[3];
        commandOpcode := incoming[4];
        commandArgument := incoming[5];
        commandValue := incoming[6];
        commandPayloadG := incoming[7];
      }
    }

    /** Another command frame while one is in flight. */
    method TakeCommandInFlight(sequence: int)
      modifies this
      ensures State() == CommandInFlight(old(State()), sequence)
    {
      if sequence == lastSequence {
        pendingSequence := lastSequence;
        pendingCode := lastEvent;
        pendingFault := lastFault;
        sentCode := 0;
      } else {
        latched := true;
        lastFault := FAULT_CONFLICT;
      }
    }

    /** The pending event goes out unless it is the one sent last. */
    method SendPendingEvent() returns (sent: seq<Message>)
      modifies this
      ensures (State(), sent) == SendPending(old(State()))
    {
      sent := [];
      if pendingSequence != sentSequence || pendingCode != sentCode {
        sent := [Event(session, pendingSequence, pendingCode, pendingFault, lastSequence)];
        sentSequence := pendingSequence;
        sentCode := pendingCode;
      }
    }

    /** One pass of the communication thread over its open socket. */
    method ReadSocket(incoming: seq<int>) returns (happened: seq<Happening>, sent: seq<Message>)
      requires !main.Stopped? && connected
      modifies this
      ensures Turned(State(), happened, sent) == Read(old(State()), setup, incoming)
    {
      hide TakeFrame, SendPending;
      sent := [];
      if |incoming| == 9 {
        happened := [Heard(incoming)];
        TakeIncoming(incoming);
        sent := SendPendingEvent();
        sent := sent + [Telemetry(session, lastSequence)];
      } else {
        happened := [Silence];
        missedHeartbeats := missedHeartbeats + 1;
      }
      if missedHeartbeats >= setup.heartbeatMissLimit {
        linkLost := true;
        connected := false;
        happened := happened + [LinkLost];
      }
    }
  }

  lemma {:induction false} ClearingInOrder(r: Robot)
    requires !r.maintenanceRequested && r.command.sequence == r.lastSequence + 1 > 0 && r.command.opcode == OP_CLEAR_LATCH
    ensures LoopHead(r) ==
              Turned(Publish(r.(lastSequence := r.command.sequence, latched := false, linkLost := false, lastFault := 0, lastEvent := EVENT_COMPLETED),
                             r.command.sequence, EVENT_COMPLETED, 0, AfterClear),
                     [Cleared(r.command.sequence)], [])
  {
  }
}
