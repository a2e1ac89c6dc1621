/**
 The agent on the mill, app/mill_supervisor_agent.py: one process, its state file, and every place between two
 statements at which it can be interrupted.
 */
module MillAgent {
  import opened Outcomes
  import MillStatus

  datatype Name = Accepted | Running | Completed | Faulted | Latched

  datatype Operation = Probe | RunProgram | Unsupported

  datatype Command = Command(sequence: int, operation: Operation, requireProof: bool)

  /** The program the agent believes is running. */
  datatype Active = Active(sequence: int, program: string, signature: Option<MillStatus.Signature>, requireProof: bool)

  datatype LastResult = LastResult(sequence: int, event: Name)

  /** What is kept in memory and, by `atomic_json`, in the state file. */
  datatype Saved = Saved(lastSequence: int, lastResult: Option<LastResult>, active: Option<Active>)

  /** Messages to the backend, other than telemetry. */
  datatype Report =
    | Hello(lastSequence: int, lastResult: Option<LastResult>)
    | Event(sequence: int, event: Name)

  /** Where an exception lands: outside the receive loop, inside it, or inside the attempt to start a program. */
  datatype Section = Outside | Loop | Attempt(command: Command)

  /** The statement to be executed next; saving and sending name what follows them. */
  datatype Place =
    | Down
    | Disconnected
    | LoopHead
    | Saving(next: Place, section: Section)
    | Sending(report: Report, next: Place, section: Section)
    | Forgetting
    | Receiving
    | Handling
    | Choosing(command: Command)
    | Starting(command: Command)

  datatype Agent = Agent(disk: Option<Saved>, state: Saved, active: Option<Active>, queue: seq<Command>, place: Place)

  /** A message is handled knowing the state of the moment. */
  datatype Happening =
    | Handled(sequence: int, known: Saved)
    | Began(sequence: int, requireProof: bool, signature: Option<MillStatus.Signature>, program: Option<string>)
    | Probed(sequence: int)
    | SawIdle(active: Active, file: MillStatus.StatusFile)
    | Refused(sequence: int)
    | StartFailed(sequence: int)

  /** The program was begun as it is thought to run: with this requirement, this file there before, and this path. */
  function BeganAs(x: Active): Happening {
    Began(x.sequence, x.requireProof, x.signature, Some(x.program))
  }

  datatype Turned = Turned(agent: Agent, happened: seq<Happening>, sent: seq<Report>)

  datatype Action =
    | Boot
    | Crash
    | Connect(ok: bool)
    | Look(idle: bool, file: MillStatus.StatusFile)
    | Receive(commands: Option<seq<Command>>)
    | Proceed
    | Fail(timedOut: bool, tookEffect: bool)
    | Start(signature: Option<MillStatus.Signature>, program: Option<string>)

  function Quiet(a: Agent): Turned {
    Turned(a, [], [])
  }

  function Unused(): Saved {
    Saved(0, None, None)
  }

  function PoweredOff(): Agent {
    Agent(None, Unused(), None, [], Down)
  }

  // ---------- statements ----------

  /** The process starts and reads its state file. */
  function Booted(a: Agent): Agent {
    var state := if a.disk.Some? then a.disk.value else Unused();
    Agent(a.disk, state, state.active, [], Disconnected)
  }

  /** An exception lands in its section's handler. */
  function Raise(a: Agent, section: Section, timedOut: bool): Agent {
    match section
    case Outside => a.(queue := [], place := Disconnected)
    case Loop => a.(queue := [], place := if timedOut then LoopHead else Disconnected)
    case Attempt(c) => Faulting(a, c)
  }

  function Faulting(a: Agent, c: Command): Agent {
    a.(state := a.state.(lastResult := Some(LastResult(c.sequence, Faulted))),
       place := Saving(Sending(Event(c.sequence, Faulted), Handling, Loop), Loop))
  }

  /** The machine is idle while a program is thought to run: its outcome is decided. */
  function Conclude(a: Agent, program: Active, file: MillStatus.StatusFile): Agent {
    var proven := !program.requireProof || MillStatus.Judge(file, program.program, program.signature).Completed?;
    var event := if proven then Completed else Latched;
    a.(state := a.state.(lastResult := Some(LastResult(program.sequence, event)), active := None),
       place := Saving(Sending(Event(program.sequence, event), Forgetting, Outside), Outside))
  }

  function LookAtMachine(a: Agent, idle: bool, file: MillStatus.StatusFile): Turned {
    if a.active.Some? && idle then Turned(Conclude(a, a.active.value, file), [SawIdle(a.active.value, file)], [])
    else Quiet(a.(place := Receiving))
  }

  /** The next message of those received, or the end of them. */
  function HandleNext(a: Agent, enabled: bool): Turned {
    if a.queue == [] then Quiet(a.(place := LoopHead))
    else Turned(HandleCommand(a.(queue := a.queue[1..]), a.queue[0], enabled), [Handled(a.queue[0].sequence, a.state)], [])
  }

  function HandleCommand(a: Agent, c: Command, enabled: bool): Agent {
    if c.sequence <= a.state.lastSequence then
      a.(place := Sending(Event(c.sequence, RepeatReply(a, c.sequence)), Handling, Loop))
    else if !enabled then
      a.(state := Saved(c.sequence, Some(LastResult(c.sequence, Latched)), a.state.active),
         place := Saving(Sending(Event(c.sequence, Latched), Handling, Loop), Loop))
    else
      a.(state := a.state.(lastSequence := c.sequence), place := Saving(Choosing(c), Loop))
  }

  /** What a repeated sequence is answered with: the last result if it is the last sequence, otherwise latched. */
  function RepeatReply(a: Agent, sequence: int): Name {
    if sequence == a.state.lastSequence && a.state.lastResult.Some? then a.state.lastResult.value.event else Latched
  }

  function Choose(a: Agent, c: Command): Turned {
    if c.operation.Probe? && a.active.None? then
      Turned(a.(state := a.state.(lastResult := Some(LastResult(c.sequence, Completed))),
                place := Saving(Sending(Event(c.sequence, Accepted), Sending(Event(c.sequence, Completed), Handling, Loop), Loop), Loop)),
             [Probed(c.sequence)], [])
    else if !c.operation.RunProgram? || a.active.Some? then
      Turned(a.(state := a.state.(lastResult := Some(LastResult(c.sequence, Latched))),
                place := Saving(Sending(Event(c.sequence, Latched), Handling, Loop), Loop)),
             [Refused(c.sequence)], [])
    else Quiet(a.(place := Sending(Event(c.sequence, Accepted), Starting(c), Loop)))
  }

  /** `start_program` is called; it returns the program's path, or raises. */
  function StartProgram(a: Agent, c: Command, signature: Option<MillStatus.Signature>, program: Option<string>): Turned {
    var after :=
      if program.None? then Faulting(a, c)
      else
        var running := Some(Active(c.sequence, program.value, signature, c.requireProof));
        a.(active := running, state := a.state.(active := running),
           place := Saving(Sending(Event(c.sequence, Running), Handling, Attempt(c)), Attempt(c)));
    Turned(after, [Began(c.sequence, c.requireProof, signature, program)], [])
  }

  function ProceedFrom(a: Agent, enabled: bool): Turned {
    match a.place
    case Saving(next, _) => Quiet(a.(disk := Some(a.state), place := next))
    case Sending(report, next, _) => Turned(a.(place := next), [], [report])
    case Forgetting => Quiet(a.(active := None, place := Receiving))
    case Handling => HandleNext(a, enabled)
    case Choosing(c) => Choose(a, c)
    case _ => Quiet(a)
  }

  /** An exception is the failure of the command whose start it lands in. */
  function FailureIn(section: Section): seq<Happening> {
    if section.Attempt? then [StartFailed(section.command.sequence)] else []
  }

  /** The statement raises; a message may have gone out, and a state file may have been renamed, all the same. */
  function FailAt(a: Agent, timedOut: bool, tookEffect: bool): Turned {
    match a.place
    case LoopHead => Quiet(Raise(a, Outside, timedOut))
    case Receiving => Quiet(Raise(a, Loop, timedOut))
    case Handling => Quiet(Raise(a, Loop, false))
    case Saving(_, section) =>
      Turned(Raise(if tookEffect then a.(disk := Some(a.state)) else a, section, timedOut), FailureIn(section), [])
    case Sending(report, _, section) =>
      Turned(Raise(a, section, timedOut), FailureIn(section), if tookEffect then [report] else [])
    case _ => Quiet(a)
  }

  function Act(a: Agent, action: Action, enabled: bool): Turned {
    match action
    case Boot => Quiet(if a.place.Down? then Booted(a) else a)
    case Crash => Quiet(a.(place := Down))
    case Connect(ok) =>
      Quiet(if a.place.Disconnected? && ok then a.(place := Sending(Hello(a.state.lastSequence, a.state.lastResult), LoopHead, Outside)) else a)
    case Look(idle, file) => if a.place.LoopHead? then LookAtMachine(a, idle, file) else Quiet(a)
    case Receive(commands) =>
      Quiet(if !a.place.Receiving? then a
            else if commands.None? then a.(place := LoopHead)
            else a.(queue := commands.value, place := Handling))
    case Proceed => ProceedFrom(a, enabled)
    case Fail(timedOut, tookEffect) => FailAt(a, timedOut, tookEffect)
    case Start(signature, program) => if a.place.Starting? then StartProgram(a, a.place.command, signature, program) else Quiet(a)
  }
}
