/**
 The converse of completions being true: a repeat that crosses another's completed result is answered falsely, in every
 state reached without losing a decision to a crash.
 */
module MillAgentRepeats {
  import opened Outcomes
  import opened MillAgent
  import opened MillAgentSafety
  import opened MillAgentTheorems
  import opened MillAgentOutcomes
  import MillStatus

  /** What the process would start with. */
  function OnDisk(a: Agent): Saved {
    if a.disk.Some? then a.disk.value else Unused()
  }

  /** A crash while the state in memory is not the one in the state file. */
  predicate LosesState(a: Agent, action: Action) {
    action.Crash? && !a.place.Down? && OnDisk(a) != a.state
  }

  predicate NothingLost(w: World, actions: seq<Action>, enabled: bool)
    decreases |actions|
  {
    actions == [] || (!LosesState(w.agent, actions[0]) && NothingLost(Step(w, actions[0], enabled), actions[1..], enabled))
  }

  // ---------- the invariant ----------

  /** If the last sequence is justified, the last result is its own, and no other program is active. */
  ghost predicate OwnResult(a: Agent, log: seq<Happening>) {
    Justified(log, a.state.lastSequence) ==>
      && a.state.lastResult.Some? && a.state.lastResult.value.sequence == a.state.lastSequence
      && OnlyNames(a.active, a.state.lastSequence) && OnlyNames(a.state.active, a.state.lastSequence)
  }

  predicate OnlyNames(x: Option<Active>, s: int) {
    x.Some? ==> x.value.sequence == s
  }

  predicate MemoryHolds(a: Agent) {
    && (a.place.Down? ==> OnDisk(a) == a.state)
    && (a.state.active.Some? && !a.place.Down? ==> a.active == a.state.active && !Closing(a.place))
    && OfProgram(a.place, a.active) && StaysUp(a.place)
  }

  /** No statement is followed by the end of the process. */
  predicate StaysUp(p: Place) {
    match p
    case Saving(next, _) => !next.Down? && StaysUp(next)
    case Sending(_, next, _) => !next.Down? && StaysUp(next)
    case _ => true
  }

  ghost predicate RepeatsHold(w: World) {
    && Holds(w) && IdleWasBegun(w.log)
    && OwnResult(w.agent, w.log) && MemoryHolds(w.agent)
  }

  // ---------- what is justified ----------

  lemma {:induction false} NotYetJustified(log: seq<Happening>, s: int)
    requires UsesBelow(log, s) && IdleWasBegun(log)
    ensures !Justified(log, s)
  {
    forall h | h in log
      ensures h != Probed(s) && !IdleWithProof(h, s)
    {
      if h.SawIdle? {
        assert UseOf(BeganAs(h.active)) == Some(h.active.sequence);
      }
    }
  }

  lemma {:induction false} OnlyByItsOwn(log: seq<Happening>, h: Happening, s: int)
    requires h != Probed(s) && !IdleWithProof(h, s)
    ensures Justified(log + [h], s) <==> Justified(log, s)
  {
    if Justified(log, s) {
      JustifiedStays(log, h, s);
    }
  }

  // ---------- steps ----------

  lemma {:induction false} HandleOwnResult(a: Agent, log: seq<Happening>, c: Command, enabled: bool)
    requires a.place.Handling? && OwnResult(a, log) && IdleWasBegun(log) && UsesBelow(log, a.state.lastSequence + 1)
    ensures OwnResult(HandleCommand(a, c, enabled), log + [Handled(c.sequence, a.state)])
  {
    var h := Handled(c.sequence, a.state);
    OnlyByItsOwn(log, h, a.state.lastSequence);
    if c.sequence > a.state.lastSequence {
      assert UsesBelow(log, c.sequence);
      NotYetJustified(log, c.sequence);
      OnlyByItsOwn(log, h, c.sequence);
    }
    hide Justified, IdleWasBegun, UsesBelow;
  }

  lemma {:induction false} ChooseOwnResult(a: Agent, log: seq<Happening>, c: Command)
    requires a.place == Choosing(c) && OwnResult(a, log) && MemoryHolds(a)
    requires IdleWasBegun(log) && UsesBelow(log, c.sequence) && a.state.lastSequence == c.sequence
    ensures OwnResult(Choose(a, c).agent, log + Choose(a, c).happened)
  {
    NotYetJustified(log, c.sequence);
    assert log + [] == log;
    hide Justified, IdleWasBegun, UsesBelow;
  }

  lemma {:induction false} StartOwnResult(a: Agent, log: seq<Happening>, c: Command,
        signature: Option<MillStatus.Signature>, program: Option<string>)
    requires a.place == Starting(c) && IdleWasBegun(log) && UsesBelow(log, c.sequence) && a.state.lastSequence == c.sequence
    ensures var t := StartProgram(a, c, signature, program);
            OwnResult(t.agent, log + t.happened)
  {
    NotYetJustified(log, c.sequence);
    OnlyByItsOwn(log, Began(c.sequence, c.requireProof, signature, program), c.sequence);
    hide Justified, IdleWasBegun, UsesBelow;
  }

  lemma {:induction false} LookOwnResult(a: Agent, log: seq<Happening>, idle: bool, file: MillStatus.StatusFile)
    requires OwnResult(a, log)
    ensures var t := LookAtMachine(a, idle, file);
            OwnResult(t.agent, log + t.happened)
  {
    assert log + [] == log;
    if a.active.Some? && idle && a.active.value.sequence != a.state.lastSequence {
      OnlyByItsOwn(log, SawIdle(a.active.value, file), a.state.lastSequence);
    }
    hide Justified, MillStatus.Judge;
  }

  lemma {:induction false} RaiseOwnResult(a: Agent, log: seq<Happening>, section: Section, timedOut: bool)
    requires OwnResult(a, log) && (section.Attempt? ==> Names(a.active, section.command.sequence))
    ensures OwnResult(Raise(a, section, timedOut), log)
  {
    hide Justified;
  }

  lemma {:induction false} FailOwnResult(a: Agent, log: seq<Happening>, timedOut: bool, tookEffect: bool)
    requires OwnResult(a, log) && OfProgram(a.place, a.active)
    ensures OwnResult(FailAt(a, timedOut, tookEffect).agent, log)
  {
    hide Raise, Justified;
    match a.place
    case Saving(_, section) => RaiseOwnResult(if tookEffect then a.(disk := Some(a.state)) else a, log, section, timedOut);
    case Sending(_, _, section) => RaiseOwnResult(a, log, section, timedOut);
    case LoopHead => RaiseOwnResult(a, log, Outside, timedOut);
    case Receiving => RaiseOwnResult(a, log, Loop, timedOut);
    case Handling => RaiseOwnResult(a, log, Loop, false);
    case _ =>
  }

  lemma {:induction false} ProceedOwnResult(a: Agent, log: seq<Happening>, enabled: bool)
    requires StartsHold(a, log) && IdleWasBegun(log) && OwnResult(a, log) && MemoryHolds(a)
    ensures var t := ProceedFrom(a, enabled);
            OwnResult(t.agent, log + t.happened)
  {
    assert log + [] == log;
    match a.place
    case Handling =>
      if a.queue != [] {
        UsesUpToLast(a, log);
        HandleOwnResult(a.(queue := a.queue[1..]), log, a.queue[0], enabled);
        hide HandleCommand;
      }
      hide Justified;
    case Choosing(c) =>
      assert Ahead(a.place) == Some(c);
      ChooseOwnResult(a, log, c);
    case _ => hide Justified;
  }

  lemma {:induction false} UsesUpToLast(a: Agent, log: seq<Happening>)
    requires StartsHold(a, log) && !a.place.Down?
    ensures UsesBelow(log, a.state.lastSequence + 1)
  {
  }

  lemma {:induction false} ActOwnResult(a: Agent, log: seq<Happening>, action: Action, enabled: bool)
    requires StartsHold(a, log) && IdleWasBegun(log) && OwnResult(a, log) && MemoryHolds(a)
    ensures var t := Act(a, action, enabled);
            OwnResult(t.agent, log + t.happened)
  {
    assert log + [] == log;
    match action
    case Proceed =>
      ProceedOwnResult(a, log, enabled);
      hide ProceedFrom, OwnResult;
    case Fail(timedOut, tookEffect) =>
      FailOwnResult(a, log, timedOut, tookEffect);
      FailHolds(a, log, timedOut, tookEffect);
      hide FailAt, OwnResult;
    case Start(signature, program) =>
      if a.place.Starting? {
        var c := a.place.command;
        assert Ahead(a.place) == Some(c);
        StartOwnResult(a, log, c, signature, program);
      }
      hide StartProgram, OwnResult;
    case Look(idle, file) =>
      LookOwnResult(a, log, idle, file);
      hide LookAtMachine, OwnResult;
    case _ => hide Justified, StartsHold;
  }

  lemma {:induction false} PlainIsNotClosing(r: Report, q: Report, section: Section)
    ensures forall p | p in [Sending(r, Handling, section), Saving(Sending(r, Handling, section), section),
                             Saving(Sending(q, Sending(r, Handling, section), section), section)] ::
              !Closing(p) && StaysUp(p)
  {
    assert !Closing(Handling) && StaysUp(Handling);
    var p := Sending(r, Handling, section);
    assert !Closing(p) && StaysUp(p);
    var both := Sending(q, p, section);
    assert !Closing(both) && StaysUp(both);
  }

  lemma {:induction false} ProceedMemory(a: Agent, enabled: bool)
    requires MemoryHolds(a) && !a.place.Down?
    ensures MemoryHolds(ProceedFrom(a, enabled).agent)
  {
    ProceedOfProgram(a, enabled);
    hide OfProgram;
    match a.place
    case Handling =>
      if a.queue != [] {
        var c := a.queue[0];
        PlainIsNotClosing(Event(c.sequence, Latched), Event(c.sequence, Latched), Loop);
        PlainIsNotClosing(Event(c.sequence, RepeatReply(a, c.sequence)), Event(c.sequence, Latched), Loop);
        assert !Closing(Choosing(c)) && StaysUp(Choosing(c));
      }
    case Choosing(c) =>
      PlainIsNotClosing(Event(c.sequence, Completed), Event(c.sequence, Accepted), Loop);
      PlainIsNotClosing(Event(c.sequence, Latched), Event(c.sequence, Latched), Loop);
      assert !Closing(Starting(c)) && StaysUp(Starting(c));
    case _ =>
  }

  lemma {:induction false} FailMemory(a: Agent, timedOut: bool, tookEffect: bool)
    requires MemoryHolds(a)
    ensures MemoryHolds(FailAt(a, timedOut, tookEffect).agent)
  {
    FailOfProgram(a, timedOut, tookEffect);
    hide OfProgram;
    if (a.place.Saving? || a.place.Sending?) && a.place.section.Attempt? {
      PlainIsNotClosing(Event(a.place.section.command.sequence, Faulted), Event(0, Faulted), Loop);
    }
  }

  lemma {:induction false} StartMemory(a: Agent, c: Command, signature: Option<MillStatus.Signature>, program: Option<string>)
    requires MemoryHolds(a) && a.place == Starting(c)
    ensures MemoryHolds(StartProgram(a, c, signature, program).agent)
  {
    StartOfProgram(a, c, signature, program);
    hide OfProgram;
    PlainIsNotClosing(Event(c.sequence, Faulted), Event(0, Faulted), Loop);
    PlainIsNotClosing(Event(c.sequence, Running), Event(0, Faulted), Attempt(c));
  }

  lemma {:induction false} ActMemory(a: Agent, action: Action, enabled: bool)
    requires MemoryHolds(a) && !LosesState(a, action)
    ensures MemoryHolds(Act(a, action, enabled).agent)
  {
    StepOfProgram(a, action, enabled);
    hide OfProgram;
    match action
    case Proceed =>
      if !a.place.Down? {
        ProceedMemory(a, enabled);
        hide ProceedFrom;
      }
    case Fail(timedOut, tookEffect) =>
      FailMemory(a, timedOut, tookEffect);
      hide FailAt;
    case Start(signature, program) =>
      if a.place.Starting? {
        StartMemory(a, a.place.command, signature, program);
        hide StartProgram;
      }
    case Connect(_) => assert !Closing(LoopHead) && StaysUp(LoopHead);
    case Look(idle, file) =>
      hide MillStatus.Judge;
      if a.place.LoopHead? && a.active.Some? && idle {
        var p := Conclude(a, a.active.value, file).place.next;
        assert p.next.Forgetting? && StaysUp(p.next) && StaysUp(p);
      }
    case _ =>
  }

  lemma {:induction false} RunRepeats(w: World, actions: seq<Action>, enabled: bool)
    requires RepeatsHold(w) && NothingLost(w, actions, enabled)
    ensures RepeatsHold(Run(w, actions, enabled))
    decreases |actions|
  {
    hide RepeatsHold, Step, LosesState;
    if actions != [] {
      StepRepeats(w, actions[0], enabled);
      RunRepeats(Step(w, actions[0], enabled), actions[1..], enabled);
    }
  }

  lemma {:induction false} StepRepeats(w: World, action: Action, enabled: bool)
    requires RepeatsHold(w) && !LosesState(w.agent, action)
    ensures RepeatsHold(Step(w, action, enabled))
  {
    StepHolds(w, action, enabled);
    IdleStep(w, action, enabled);
    assert StartsHold(w.agent, w.log);
    hide Holds, StartsHold, IdleWasBegun, OwnResult, MemoryHolds, Act, LosesState;
    ActOwnResult(w.agent, w.log, action, enabled);
    ActMemory(w.agent, action, enabled);
  }

  // ---------- the theorems ----------

  /** The next message is a repeat that crosses another's completed result. */
  predicate CrossedIsNext(a: Agent) {
    a.place.Handling? && a.queue != [] && Crossed(Handled(a.queue[0].sequence, a.state))
  }

  /** In any state, it is answered with completed, and the sequence is no more justified for it. */
  lemma {:induction false} CrossedIsAnswered(w: World, enabled: bool)
    requires CrossedIsNext(w.agent)
    ensures var s, after := w.agent.queue[0].sequence, Run(w, [Proceed] + [Proceed], enabled);
            && after.sent == w.sent + [Event(s, Completed)]
            && (Justified(after.log, s) <==> Justified(w.log, s))
  {
    var c := w.agent.queue[0];
    RunBoth(w, [Proceed], [Proceed], enabled);
    OneStep(w, Proceed, enabled);
    var handled := Step(w, Proceed, enabled);
    OneStep(handled, Proceed, enabled);
    OnlyByItsOwn(w.log, Handled(c.sequence, w.agent.state), c.sequence);
    hide Run, Justified;
    assert w.sent + [] == w.sent;
    assert handled.agent.place == Sending(Event(c.sequence, Completed), Handling, Loop);
    assert Step(handled, Proceed, enabled).log == handled.log + [];
    assert handled.log + [] == handled.log;
  }

  /**
   In every state reached without losing memory to a crash, whatever exceptions there were, the completed answer to such a
   repeat is false when it is sent. A crash between a decision and its save has to be left out: it brings back the
   earlier result of a sequence that is already justified, as CrashCanMakeItTrue shows.
   */
  lemma {:induction false} CrossedAnswerIsFalse(actions: seq<Action>, enabled: bool)
    requires NothingLost(PowerOn(), actions, enabled) && CrossedIsNext(Run(PowerOn(), actions, enabled).agent)
    ensures var w := Run(PowerOn(), actions, enabled);
            var s, after := w.agent.queue[0].sequence, Run(w, [Proceed] + [Proceed], enabled);
            Event(s, Completed) in after.sent && !Justified(after.log, s)
  {
    StartHolds();
    RunRepeats(PowerOn(), actions, enabled);
    CrossedIsAnswered(Run(PowerOn(), actions, enabled), enabled);
    hide Run, Justified, Holds;
  }

  const PROBE_2 := Command(2, Probe, false)

  lemma {:induction false} ProbesReceived() returns (actions: seq<Action>, w: World)
    ensures Run(PowerOn(), actions, true) == w && w.log == []
    ensures w.agent == Agent(None, Unused(), None, [PROBE_1, PROBE_2], Handling)
  {
    actions, w := [], PowerOn();
    actions, w := Then(actions, w, Boot);
    actions, w := Then(actions, w, Connect(true));
    actions, w := Then(actions, w, Proceed);
    actions, w := Then(actions, w, Look(false, MillStatus.Absent));
    actions, w := Then(actions, w, Receive(Some([PROBE_1, PROBE_2])));
  }

  const AFTER_1 := Saved(1, Some(LastResult(1, Completed)), None)

  lemma {:induction false} FirstProbeDone() returns (actions: seq<Action>, w: World)
    ensures Run(PowerOn(), actions, true) == w
    ensures w.agent == Agent(Some(AFTER_1), AFTER_1, None, [PROBE_2],
                             Sending(Event(1, Accepted), Sending(Event(1, Completed), Handling, Loop), Loop))
  {
    actions, w := ProbesReceived();
    actions, w := Then(actions, w, Proceed);
    actions, w := Then(actions, w, Proceed);
    assert w.agent == Agent(Some(Saved(1, None, None)), Saved(1, None, None), None, [PROBE_2], Choosing(PROBE_1));
    actions, w := Then(actions, w, Proceed);
    actions, w := Then(actions, w, Proceed);
  }

  lemma {:induction false} FirstProbeAnswered() returns (actions: seq<Action>, w: World)
    ensures Run(PowerOn(), actions, true) == w
    ensures w.agent == Agent(Some(AFTER_1), AFTER_1, None, [PROBE_2], Handling)
  {
    actions, w := FirstProbeDone();
    actions, w := Then(actions, w, Proceed);
    actions, w := Then(actions, w, Proceed);
  }

  /** Probe 2 has answered, and the process has crashed before that could be saved. */
  lemma {:induction false} SecondProbeLost() returns (actions: seq<Action>, w: World)
    ensures Run(PowerOn(), actions, true) == w && Probed(2) in w.log
    ensures w.agent.place.Down? && w.agent.disk == Some(AFTER_1.(lastSequence := 2))
  {
    actions, w := FirstProbeAnswered();
    actions, w := Then(actions, w, Proceed);
    actions, w := Then(actions, w, Proceed);
    assert w.agent.place == Choosing(PROBE_2) && w.agent.disk == Some(AFTER_1.(lastSequence := 2)) && w.agent.active == None;
    actions, w := Then(actions, w, Proceed);
    assert w.log[|w.log| - 1] == Probed(2);
    actions, w := Then(actions, w, Crash);
  }

  /** A run in which the repeat of probe 2 crosses the result of probe 1, and probe 2 is justified all the same. */
  lemma {:induction false} CrashCanMakeItTrue() returns (actions: seq<Action>)
    ensures var w := Run(PowerOn(), actions, true);
            CrossedIsNext(w.agent) && w.agent.queue[0].sequence == 2 && Justified(w.log, 2)
  {
    var w: World;
    actions, w := SecondProbeLost();
    actions, w := Then(actions, w, Boot);
    assert w.agent == Agent(w.agent.disk, AFTER_1.(lastSequence := 2), None, [], Disconnected) && Probed(2) in w.log;
    actions, w := Then(actions, w, Connect(true));
    actions, w := Then(actions, w, Proceed);
    assert w.agent.place == LoopHead && Probed(2) in w.log;
    actions, w := Then(actions, w, Look(false, MillStatus.Absent));
    actions, w := Then(actions, w, Receive(Some([PROBE_2])));
    assert Probed(2) in w.log;
  }
}
