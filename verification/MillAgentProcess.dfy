/**
 The agent in its own form: `state`, `active` and the messages being handled, assigned to statement by statement.
 Each method is what happens between two places of interruption, and is proved to have the effect MillAgent gives it.
 */
module MillAgentProcess {
  import opened Outcomes
  import opened MillAgent
  import MillStatus

  class AgentProcess {
    const executionEnabled: bool
    /** The state file, which outlives the process. */
    var disk: Option<Saved>
    var lastSequence: int
    var lastResult: Option<LastResult>
    var stateActive: Option<Active>
    var active: Option<Active>
    var messages: seq<Command>
    var place: Place

    function State(): Agent
      reads this
    {
      Agent(disk, Saved(lastSequence, lastResult, stateActive), active, messages, place)
    }

    constructor (executionEnabled: bool)
      ensures State() == PoweredOff() && this.executionEnabled == executionEnabled
    {
      this.executionEnabled := executionEnabled;
      disk, lastSequence, lastResult, stateActive, active, messages, place := None, 0, None, None, None, [], Down;
    }

    /** The process starts: the state file if there is one, otherwise the defaults. */
    method Boot()
      requires place.Down?
      modifies this
      ensures State() == Booted(old(State()))
    {
      lastSequence, lastResult, stateActive := 0, None, None;
      if disk.Some? {
        lastSequence, lastResult, stateActive := disk.value.lastSequence, disk.value.lastResult, disk.value.active;
      }
      active := stateActive;
      messages := [];
      place := Disconnected;
    }

    /** Connected: the greeting is next. */
    method Greet()
      requires place.Disconnected?
      modifies this
      ensures State() == Act(old(State()), Connect(true), executionEnabled).agent
    {
      place := Sending(Hello(lastSequence, lastResult), LoopHead, Outside);
    }

    /** The head of the connected loop, after telemetry. */
    method Watch(idle: bool, file: MillStatus.StatusFile) returns (happened: seq<Happening>)
      requires place.LoopHead?
      modifies this
      ensures Turned(State(), happened, []) == LookAtMachine(old(State()), idle, file)
    {
      hide MillStatus.Judge;
      happened := [];
      if active.Some? && idle {
        var complete := MillStatus.Completed;
        if active.value.requireProof {
          complete := MillStatus.CompletedStatus(file, active.value.program, active.value.signature);
        }
        var event := if complete.Completed? then Completed else Latched;
        lastResult := Some(LastResult(active.value.sequence, event));
        stateActive := None;
        place := Saving(Sending(Event(active.value.sequence, event), Forgetting, Outside), Outside);
        happened := [SawIdle(active.value, file)];
      } else {
        place := Receiving;
      }
    }

    /** The next of the messages received. */
    method HandleMessage() returns (happened: seq<Happening>)
      requires place.Handling?
      modifies this
      ensures Turned(State(), happened, []) == HandleNext(old(State()), executionEnabled)
    {
      hide MillAgent.HandleCommand;
      if messages == [] {
        place := LoopHead;
        return [];
      }
      var message := messages[0];
      var known := Saved(lastSequence, lastResult, stateActive);
      messages := messages[1..];
      HandleSequence(message);
      return [Handled(message.sequence, known)];
    }

    method HandleSequence(c: Command)
      modifies this
      ensures State() == MillAgent.HandleCommand(old(State()), c, executionEnabled)
    {
      if c.sequence <= lastSequence {
        if c.sequence == lastSequence {
          var result := lastResult;
          place := Sending(Event(c.sequence, if result.Some? then result.value.event else Latched), Handling, Loop);
        } else {
          place := Sending(Event(c.sequence, Latched), Handling, Loop);
        }
      } else if !executionEnabled {
        lastSequence := c.sequence;
        lastResult := Some(LastResult(c.sequence, Latched));
        place := Saving(Sending(Event(c.sequence, Latched), Handling, Loop), Loop);
      } else {
        lastSequence := c.sequence;
        place := Saving(Choosing(c), Loop);
      }
    }

    /** The new sequence is saved: what the command asks for. */
    method ChooseOperation() returns (happened: seq<Happening>)
      requires place.Choosing?
      modifies this
      ensures Turned(State(), happened, []) == Choose(old(State()), old(place.command))
    {
      var c := place.command;
      happened := [];
      if c.operation.Probe? && active.None? {
        lastResult := Some(LastResult(c.sequence, Completed));
        place := Saving(Sending(Event(c.sequence, Accepted), Sending(Event(c.sequence, Completed), Handling, Loop), Loop), Loop);
        return [Probed(c.sequence)];
      }
      if !c.operation.RunProgram? || active.Some? {
        lastResult := Some(LastResult(c.sequence, Latched));
        place := Saving(Sending(Event(c.sequence, Latched), Handling, Loop), Loop);
        return [Refused(c.sequence)];
      }
      place := Sending(Event(c.sequence, Accepted), Starting(c), Loop);
    }

    /** `start_program` has returned or raised. */
    method BeginProgram(signature: Option<MillStatus.Signature>, program: Option<string>) returns (happened: seq<Happening>)
      requires place.Starting?
      modifies this
      ensures Turned(State(), happened, []) == StartProgram(old(State()), old(place.command), signature, program)
    {
      hide Faulting;
      var c := place.command;
      if program.Some? {
        active := Some(Active(c.sequence, program.value, signature, c.requireProof));
        stateActive := active;
        place := Saving(Sending(Event(c.sequence, Running), Handling, Attempt(c)), Attempt(c));
      } else {
        RecordFault(c);
      }
      return [Began(c.sequence, c.requireProof, signature, program)];
    }

    method RecordFault(c: Command)
      modifies this
      ensures State() == Faulting(old(State()), c)
    {
      lastResult := Some(LastResult(c.sequence, Faulted));
      place := Saving(Sending(Event(c.sequence, Faulted), Handling, Loop), Loop);
    }

    /** `atomic_json`: write aside, flush, rename. */
    method AtomicJson()
      requires place.Saving?
      modifies this
      ensures State() == ProceedFrom(old(State()), executionEnabled).agent
    {
      disk := Some(Saved(lastSequence, lastResult, stateActive));
      place := place.next;
    }

    method SendMessage() returns (sent: seq<Report>)
      requires place.Sending?
      modifies this
      ensures Turned(State(), [], sent) == ProceedFrom(old(State()), executionEnabled)
    {
      sent := [place.report];
      place := place.next;
    }

    /** The handlers of an exception raised in a section. */
    method Handle(section: Section, timedOut: bool)
      modifies this
      ensures State() == Raise(old(State()), section, timedOut)
    {
      match section
      case Outside =>
        messages := [];
        place := Disconnected;
      case Loop =>
        messages := [];
        place := if timedOut then LoopHead else Disconnected;
      case Attempt(c) => RecordFault(c);
    }
  }
}
