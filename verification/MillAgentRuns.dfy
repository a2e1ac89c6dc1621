/** What each command is answered with, from any state in which its message is handled next, and how a program ends. */
module MillAgentRuns {
  import opened Outcomes
  import opened MillAgent
  import opened MillAgentSafety
  import opened MillAgentTheorems
  import opened MillAgentOutcomes
  import MillStatus

  /** The command `c` is the next message, and its sequence is new. */
  predicate NewIsNext(a: Agent, c: Command) {
    a.place.Handling? && a.queue != [] && a.queue[0] == c && c.sequence > a.state.lastSequence
  }

  /** A new sequence is in the state file before anything is chosen for it. */
  lemma {:induction false} NewIsSaved(w: World, c: Command)
    requires NewIsNext(w.agent, c)
    ensures var state := w.agent.state.(lastSequence := c.sequence);
            var after := Run(w, [Proceed] + [Proceed], true);
            && after.agent == Agent(Some(state), state, w.agent.active, w.agent.queue[1..], Choosing(c))
            && after.log == w.log + [Handled(c.sequence, w.agent.state)] && after.sent == w.sent
  {
    RunBoth(w, [Proceed], [Proceed], true);
    OneStep(w, Proceed, true);
    var handled := Step(w, Proceed, true);
    OneStep(handled, Proceed, true);
    hide Run;
    assert handled.agent.place == Saving(Choosing(c), Loop);
    assert handled.log + [] == handled.log && w.sent + [] == w.sent;
  }

  /** Saving a decision and sending its one event. */
  lemma {:induction false} SavedAndSent(w: World, r: Report, next: Place, section: Section, enabled: bool)
    requires w.agent.place == Saving(Sending(r, next, section), section)
    ensures var after := Run(w, [Proceed] + [Proceed], enabled);
            after == World(w.agent.(disk := Some(w.agent.state), place := next), w.log, w.sent + [r])
  {
    RunBoth(w, [Proceed], [Proceed], enabled);
    OneStep(w, Proceed, enabled);
    var saved := Step(w, Proceed, enabled);
    OneStep(saved, Proceed, enabled);
    hide Run;
    assert saved == World(w.agent.(disk := Some(w.agent.state), place := w.agent.place.next), w.log, w.sent) by {
      assert w.log + [] == w.log && w.sent + [] == w.sent;
    }
    assert w.log + [] == w.log;
  }

  /** With execution disabled, a new sequence is latched, and nothing is begun. */
  lemma {:induction false} DisabledIsLatched(w: World, c: Command)
    requires NewIsNext(w.agent, c)
    ensures var state := Saved(c.sequence, Some(LastResult(c.sequence, Latched)), w.agent.state.active);
            var after := Run(w, [Proceed] + ([Proceed] + [Proceed]), false);
            && after.agent == Agent(Some(state), state, w.agent.active, w.agent.queue[1..], Handling)
            && after.sent == w.sent + [Event(c.sequence, Latched)]
            && after.log == w.log + [Handled(c.sequence, w.agent.state)]
  {
    RunBoth(w, [Proceed], [Proceed] + [Proceed], false);
    OneStep(w, Proceed, false);
    var handled := Step(w, Proceed, false);
    hide Run;
    assert handled.sent == w.sent + [] == w.sent;
    SavedAndSent(handled, Event(c.sequence, Latched), Handling, Loop, false);
  }

  /** A probe of an agent that thinks nothing runs is accepted and completed. */
  lemma {:induction false} ProbeIsCompleted(w: World, c: Command)
    requires NewIsNext(w.agent, c) && c.operation.Probe? && w.agent.active.None?
    ensures var state := Saved(c.sequence, Some(LastResult(c.sequence, Completed)), w.agent.state.active);
            var after := Run(w, [Proceed] + [Proceed] + ([Proceed] + ([Proceed] + [Proceed]) + [Proceed]), true);
            && after.agent == Agent(Some(state), state, None, w.agent.queue[1..], Handling)
            && after.sent == w.sent + [Event(c.sequence, Accepted)] + [Event(c.sequence, Completed)]
            && after.log == w.log + [Handled(c.sequence, w.agent.state)] + [Probed(c.sequence)]
  {
    RunBoth(w, [Proceed] + [Proceed], [Proceed] + ([Proceed] + [Proceed]) + [Proceed], true);
    NewIsSaved(w, c);
    var saved := Run(w, [Proceed] + [Proceed], true);
    RunBoth(saved, [Proceed] + ([Proceed] + [Proceed]), [Proceed], true);
    RunBoth(saved, [Proceed], [Proceed] + [Proceed], true);
    OneStep(saved, Proceed, true);
    var probed := Step(saved, Proceed, true);
    var accepted := Run(probed, [Proceed] + [Proceed], true);
    OneStep(accepted, Proceed, true);
    hide Run;
    assert probed.sent == w.sent + [] == w.sent;
    SavedAndSent(probed, Event(c.sequence, Accepted), Sending(Event(c.sequence, Completed), Handling, Loop), Loop, true);
    assert accepted.log + [] == accepted.log;
  }

  /** Neither an unsupported operation, nor anything while a program is thought to run, is begun. */
  predicate Conflicts(a: Agent, c: Command) {
    (!c.operation.RunProgram? && !c.operation.Probe?) || a.active.Some?
  }

  lemma {:induction false} ConflictIsLatched(w: World, c: Command)
    requires NewIsNext(w.agent, c) && Conflicts(w.agent, c)
    ensures var state := Saved(c.sequence, Some(LastResult(c.sequence, Latched)), w.agent.state.active);
            var after := Run(w, [Proceed] + [Proceed] + ([Proceed] + ([Proceed] + [Proceed])), true);
            && after.agent == Agent(Some(state), state, w.agent.active, w.agent.queue[1..], Handling)
            && after.sent == w.sent + [Event(c.sequence, Latched)]
            && after.log == w.log + [Handled(c.sequence, w.agent.state)] + [Refused(c.sequence)]
  {
    RunBoth(w, [Proceed] + [Proceed], [Proceed] + ([Proceed] + [Proceed]), true);
    NewIsSaved(w, c);
    var saved := Run(w, [Proceed] + [Proceed], true);
    RunBoth(saved, [Proceed], [Proceed] + [Proceed], true);
    OneStep(saved, Proceed, true);
    var refused := Step(saved, Proceed, true);
    hide Run;
    assert refused.sent == w.sent + [] == w.sent;
    SavedAndSent(refused, Event(c.sequence, Latched), Handling, Loop, true);
  }

  /** A program for an agent that thinks nothing runs is accepted, and then about to be started. */
  lemma {:induction false} ProgramIsAccepted(w: World, c: Command)
    requires NewIsNext(w.agent, c) && c.operation.RunProgram? && w.agent.active.None?
    ensures var state := w.agent.state.(lastSequence := c.sequence);
            var after := Run(w, [Proceed] + [Proceed] + ([Proceed] + [Proceed]), true);
            && after.agent == Agent(Some(state), state, None, w.agent.queue[1..], Starting(c))
            && after.sent == w.sent + [Event(c.sequence, Accepted)]
            && after.log == w.log + [Handled(c.sequence, w.agent.state)]
  {
    RunBoth(w, [Proceed] + [Proceed], [Proceed] + [Proceed], true);
    NewIsSaved(w, c);
    var saved := Run(w, [Proceed] + [Proceed], true);
    RunBoth(saved, [Proceed], [Proceed], true);
    OneStep(saved, Proceed, true);
    var chosen := Step(saved, Proceed, true);
    OneStep(chosen, Proceed, true);
    hide Run;
    assert chosen.sent == w.sent + [] == w.sent && chosen.log == saved.log + [] == saved.log;
    assert chosen.log + [] == chosen.log;
  }

  /**
   Once started it is reported running, and is the active program in memory and in the state file, with the path, the
   requirement and the completion file of its start; a start that fails is reported faulted and changes no program.
   */
  lemma {:induction false} StartIsReported(w: World, c: Command, signature: Option<MillStatus.Signature>,
        program: Option<string>, enabled: bool)
    requires w.agent.place == Starting(c)
    ensures var after := Run(w, [Start(signature, program)] + ([Proceed] + [Proceed]), enabled);
            && after.log == w.log + [Began(c.sequence, c.requireProof, signature, program)]
            && after.agent.place == Handling && after.agent.queue == w.agent.queue
            && after.agent.disk == Some(after.agent.state)
            && if program.Some? then
                 && after.sent == w.sent + [Event(c.sequence, Running)]
                 && after.agent.active == Some(Active(c.sequence, program.value, signature, c.requireProof))
                 && after.agent.state == w.agent.state.(active := after.agent.active)
               else
                 && after.sent == w.sent + [Event(c.sequence, Faulted)]
                 && after.agent.active == w.agent.active
                 && after.agent.state == w.agent.state.(lastResult := Some(LastResult(c.sequence, Faulted)))
  {
    RunBoth(w, [Start(signature, program)], [Proceed] + [Proceed], enabled);
    OneStep(w, Start(signature, program), enabled);
    var begun := Step(w, Start(signature, program), enabled);
    hide Run;
    assert begun.sent == w.sent + [] == w.sent;
    if program.Some? {
      SavedAndSent(begun, Event(c.sequence, Running), Handling, Attempt(c), enabled);
    } else {
      SavedAndSent(begun, Event(c.sequence, Faulted), Handling, Loop, enabled);
    }
  }

  /** A program seen idle is concluded by its proof, saved as no longer active, reported, and forgotten. */
  lemma {:induction false} IdleIsReported(w: World, x: Active, file: MillStatus.StatusFile, enabled: bool)
    requires w.agent.place == LoopHead && w.agent.active == Some(x)
    ensures var proven := !x.requireProof || MillStatus.Judge(file, x.program, x.signature) == MillStatus.Completed;
            var event := if proven then Completed else Latched;
            var state := Saved(w.agent.state.lastSequence, Some(LastResult(x.sequence, event)), None);
            var after := Run(w, [Look(true, file)] + ([Proceed] + [Proceed]) + [Proceed], enabled);
            && after.agent == Agent(Some(state), state, None, w.agent.queue, Receiving)
            && after.sent == w.sent + [Event(x.sequence, event)] && after.log == w.log + [SawIdle(x, file)]
  {
    hide MillStatus.Judge;
    RunBoth(w, [Look(true, file)] + ([Proceed] + [Proceed]), [Proceed], enabled);
    RunBoth(w, [Look(true, file)], [Proceed] + [Proceed], enabled);
    OneStep(w, Look(true, file), enabled);
    var looked := Step(w, Look(true, file), enabled);
    var reported := Run(looked, [Proceed] + [Proceed], enabled);
    OneStep(reported, Proceed, enabled);
    hide Run;
    assert looked.sent == w.sent + [] == w.sent;
    SavedAndSent(looked, looked.agent.place.next.report, Forgetting, Outside, enabled);
    assert reported.log + [] == reported.log && reported.sent + [] == reported.sent;
  }

  /** From a program's message to its end: accepted, started with this path, and seen idle with this file. */
  function ToEnd(signature: Option<MillStatus.Signature>, program: string, file: MillStatus.StatusFile): seq<Action> {
    [Proceed] + [Proceed] + ([Proceed] + [Proceed])
    + ([Start(signature, Some(program))] + ([Proceed] + [Proceed]))
    + [Proceed]
    + ([Look(true, file)] + ([Proceed] + [Proceed]) + [Proceed])
  }

  /**
   A program that starts, with no other message behind it, and is seen idle is reported accepted, running and then, by its
   proof, completed or latched; that result is in the state file, and nothing is active any more.
   */
  lemma {:induction false} ProgramRuns(w: World, c: Command, signature: Option<MillStatus.Signature>, program: string,
      file: MillStatus.StatusFile)
    requires NewIsNext(w.agent, c) && |w.agent.queue| == 1 && c.operation.RunProgram? && w.agent.active.None?
    ensures var proven := !c.requireProof || MillStatus.Judge(file, program, signature) == MillStatus.Completed;
            var event := if proven then Completed else Latched;
            var state := Saved(c.sequence, Some(LastResult(c.sequence, event)), None);
            var after := Run(w, ToEnd(signature, program, file), true);
            && after.agent == Agent(Some(state), state, None, [], Receiving)
            && after.sent == w.sent + [Event(c.sequence, Accepted)] + [Event(c.sequence, Running)] + [Event(c.sequence, event)]
  {
    var accepting, starting := [Proceed] + [Proceed] + ([Proceed] + [Proceed]), [Start(signature, Some(program))] + ([Proceed] + [Proceed]);
    var ending := [Look(true, file)] + ([Proceed] + [Proceed]) + [Proceed];
    RunBoth(w, accepting + starting + [Proceed], ending, true);
    RunBoth(w, accepting + starting, [Proceed], true);
    RunBoth(w, accepting, starting, true);
    ProgramIsAccepted(w, c);
    var accepted := Run(w, accepting, true);
    StartIsReported(accepted, c, signature, Some(program), true);
    var running := Run(accepted, starting, true);
    OneStep(running, Proceed, true);
    hide Run, MillStatus.Judge;
    var idle := Step(running, Proceed, true);
    assert idle.agent == running.agent.(place := LoopHead) && idle.sent == running.sent by {
      assert running.sent + [] == running.sent;
    }
    IdleIsReported(idle, Active(c.sequence, program, signature, c.requireProof), file, true);
  }

  /** A repeat of the last sequence is answered with the last result, or latched if there is none; nothing else changes. */
  lemma {:induction false} RepeatIsAnswered(w: World, c: Command, enabled: bool)
    requires w.agent.place.Handling? && w.agent.queue != [] && w.agent.queue[0] == c && c.sequence == w.agent.state.lastSequence
    ensures var event := if w.agent.state.lastResult.Some? then w.agent.state.lastResult.value.event else Latched;
            var after := Run(w, [Proceed] + [Proceed], enabled);
            && after.agent == w.agent.(queue := w.agent.queue[1..])
            && after.sent == w.sent + [Event(c.sequence, event)]
  {
    RunBoth(w, [Proceed], [Proceed], enabled);
    OneStep(w, Proceed, enabled);
    var handled := Step(w, Proceed, enabled);
    OneStep(handled, Proceed, enabled);
    assert w.sent + [] == w.sent;
  }

  // ---------- exceptions ----------

  /** Statements that can raise, and are not part of an attempt to start a program. */
  predicate InTheOpen(place: Place) {
    place.LoopHead? || place.Receiving? || place.Handling? || ((place.Saving? || place.Sending?) && !place.section.Attempt?)
  }

  predicate InReceiveLoop(place: Place) {
    place.Receiving? || ((place.Saving? || place.Sending?) && place.section.Loop?)
  }

  /**
   An exception outside a start attempt loses the messages not yet handled and nothing of the state; the connection
   survives it only if it is a timeout in the receive loop. What was being saved or sent may have been all the same.
   */
  lemma {:induction false} ExceptionDropsMessages(w: World, timedOut: bool, tookEffect: bool, enabled: bool)
    requires InTheOpen(w.agent.place)
    ensures var a, after := w.agent, Run(w, [Fail(timedOut, tookEffect)], enabled);
            && after.agent.state == a.state && after.agent.active == a.active && after.agent.queue == [] && after.log == w.log
            && after.agent.place == (if InReceiveLoop(a.place) && timedOut then LoopHead else Disconnected)
            && after.agent.disk == (if a.place.Saving? && tookEffect then Some(a.state) else a.disk)
            && after.sent == w.sent + (if a.place.Sending? && tookEffect then [a.place.report] else [])
  {
    OneStep(w, Fail(timedOut, tookEffect), enabled);
    assert w.log + [] == w.log;
  }

  /** An exception in a start attempt has the command reported faulted, with the messages behind it still to be handled. */
  lemma {:induction false} FailedAttemptIsReported(w: World, timedOut: bool, tookEffect: bool, enabled: bool)
    requires (w.agent.place.Saving? || w.agent.place.Sending?) && w.agent.place.section.Attempt?
    ensures var a, c := w.agent, w.agent.place.section.command;
            var state, after := a.state.(lastResult := Some(LastResult(c.sequence, Faulted))),
                                Run(w, [Fail(timedOut, tookEffect)] + ([Proceed] + [Proceed]), enabled);
            && after.agent == Agent(Some(state), state, a.active, a.queue, Handling)
            && after.log == w.log + [StartFailed(c.sequence)]
            && after.sent == w.sent + (if a.place.Sending? && tookEffect then [a.place.report] else []) + [Event(c.sequence, Faulted)]
  {
    RunBoth(w, [Fail(timedOut, tookEffect)], [Proceed] + [Proceed], enabled);
    OneStep(w, Fail(timedOut, tookEffect), enabled);
    var failed := Step(w, Fail(timedOut, tookEffect), enabled);
    hide Run;
    SavedAndSent(failed, Event(w.agent.place.section.command.sequence, Faulted), Handling, Loop, enabled);
  }

  /** The messages of one read are handled in the order they came, and then the loop starts over. */
  lemma {:induction false} MessagesAreQueued(w: World, commands: seq<Command>, enabled: bool)
    requires w.agent.place.Receiving?
    ensures Run(w, [Receive(Some(commands))], enabled) == w.(agent := w.agent.(queue := commands, place := Handling))
    ensures Run(w, [Receive(None)], enabled) == w.(agent := w.agent.(place := LoopHead))
    ensures commands == [] ==> Run(w, [Receive(Some(commands))] + [Proceed], enabled).agent == w.agent.(queue := [], place := LoopHead)
  {
    OneStep(w, Receive(Some(commands)), enabled);
    OneStep(w, Receive(None), enabled);
    RunBoth(w, [Receive(Some(commands))], [Proceed], enabled);
    var received := Step(w, Receive(Some(commands)), enabled);
    OneStep(received, Proceed, enabled);
    assert w.log + [] == w.log && w.sent + [] == w.sent;
  }
}
