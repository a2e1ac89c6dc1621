/** What the agent says of itself when it connects: the result it last decided, which a crash after the save does not lose. */
module MillAgentGreetings {
  import opened Outcomes
  import opened MillAgent
  import opened MillAgentSafety
  import opened MillAgentTheorems
  import opened MillAgentOutcomes
  import opened MillAgentRepeats
  import MillStatus

  // ---------- what the log says was decided ----------

  /** The result that is decided by this happening. */
  function DecidedBy(h: Happening, enabled: bool): Option<LastResult> {
    match h
    case Handled(s, known) => if s > known.lastSequence && !enabled then Some(LastResult(s, Latched)) else None
    case Began(s, _, _, program) => if program.None? then Some(LastResult(s, Faulted)) else None
    case Probed(s) => Some(LastResult(s, Completed))
    case SawIdle(x, file) =>
      var proven := !x.requireProof || MillStatus.Judge(file, x.program, x.signature) == MillStatus.Completed;
      Some(LastResult(x.sequence, if proven then Completed else Latched))
    case Refused(s) => Some(LastResult(s, Latched))
    case StartFailed(s) => Some(LastResult(s, Faulted))
  }

  function LastDecided(log: seq<Happening>, enabled: bool): Option<LastResult> {
    if log == [] then None
    else
      var n := |log| - 1;
      if DecidedBy(log[n], enabled).Some? then DecidedBy(log[n], enabled) else LastDecided(log[..n], enabled)
  }

  /** The last sequence handled that was greater than the one before it. */
  function LastNew(log: seq<Happening>): int {
    if log == [] then 0
    else
      var n := |log| - 1;
      if log[n].Handled? && log[n].sequence > log[n].known.lastSequence then log[n].sequence else LastNew(log[..n])
  }

  predicate Remembers(a: Agent, log: seq<Happening>, enabled: bool) {
    a.state.lastResult == LastDecided(log, enabled) && a.state.lastSequence == LastNew(log)
  }

  lemma {:induction false} OneMore(log: seq<Happening>, h: Happening, enabled: bool)
    ensures LastDecided(log + [h], enabled) == if DecidedBy(h, enabled).Some? then DecidedBy(h, enabled) else LastDecided(log, enabled)
    ensures LastNew(log + [h]) == if h.Handled? && h.sequence > h.known.lastSequence then h.sequence else LastNew(log)
  {
    hide DecidedBy;
    assert (log + [h])[..|log|] == log;
  }

  lemma {:induction false} HandleRemembers(a: Agent, log: seq<Happening>, c: Command, enabled: bool)
    requires Remembers(a, log, enabled)
    ensures Remembers(HandleCommand(a, c, enabled), log + [Handled(c.sequence, a.state)], enabled)
  {
    hide LastDecided, LastNew;
    OneMore(log, Handled(c.sequence, a.state), enabled);
  }

  lemma {:induction false} ChooseRemembers(a: Agent, log: seq<Happening>, c: Command, enabled: bool)
    requires Remembers(a, log, enabled)
    ensures Remembers(Choose(a, c).agent, log + Choose(a, c).happened, enabled)
  {
    hide LastDecided, LastNew;
    assert log + [] == log;
    OneMore(log, Probed(c.sequence), enabled);
    OneMore(log, Refused(c.sequence), enabled);
  }

  lemma {:induction false} ProceedRemembers(a: Agent, log: seq<Happening>, enabled: bool)
    requires Remembers(a, log, enabled)
    ensures var t := ProceedFrom(a, enabled);
            Remembers(t.agent, log + t.happened, enabled)
  {
    hide LastDecided, LastNew, HandleCommand, Choose;
    assert log + [] == log;
    match a.place
    case Handling =>
      if a.queue != [] {
        HandleRemembers(a.(queue := a.queue[1..]), log, a.queue[0], enabled);
      }
    case Choosing(c) => ChooseRemembers(a, log, c, enabled);
    case _ =>
  }

  lemma {:induction false} FailRemembers(a: Agent, log: seq<Happening>, timedOut: bool, tookEffect: bool, enabled: bool)
    requires Remembers(a, log, enabled)
    ensures var t := FailAt(a, timedOut, tookEffect);
            Remembers(t.agent, log + t.happened, enabled)
  {
    hide LastDecided, LastNew;
    assert log + [] == log;
    if (a.place.Saving? || a.place.Sending?) && a.place.section.Attempt? {
      OneMore(log, StartFailed(a.place.section.command.sequence), enabled);
    }
  }

  lemma {:induction false} ActRemembers(a: Agent, log: seq<Happening>, action: Action, enabled: bool)
    requires Remembers(a, log, enabled) && (a.place.Down? ==> OnDisk(a) == a.state)
    ensures var t := Act(a, action, enabled);
            Remembers(t.agent, log + t.happened, enabled)
  {
    hide LastDecided, LastNew, ProceedFrom, FailAt, StartProgram, LookAtMachine;
    assert log + [] == log;
    match action
    case Proceed => ProceedRemembers(a, log, enabled);
    case Fail(timedOut, tookEffect) => FailRemembers(a, log, timedOut, tookEffect, enabled);
    case Start(signature, program) =>
      if a.place.Starting? {
        StartRemembers(a, log, signature, program, enabled);
      }
    case Look(idle, file) => LookRemembers(a, log, idle, file, enabled);
    case _ =>
  }

  lemma {:induction false} StartRemembers(a: Agent, log: seq<Happening>, signature: Option<MillStatus.Signature>,
        program: Option<string>, enabled: bool)
    requires Remembers(a, log, enabled) && a.place.Starting?
    ensures var t := StartProgram(a, a.place.command, signature, program);
            Remembers(t.agent, log + t.happened, enabled)
  {
    hide LastDecided, LastNew;
    OneMore(log, Began(a.place.command.sequence, a.place.command.requireProof, signature, program), enabled);
  }

  lemma {:induction false} LookRemembers(a: Agent, log: seq<Happening>, idle: bool, file: MillStatus.StatusFile, enabled: bool)
    requires Remembers(a, log, enabled)
    ensures var t := LookAtMachine(a, idle, file);
            Remembers(t.agent, log + t.happened, enabled)
  {
    hide LastDecided, LastNew, MillStatus.Judge;
    assert log + [] == log;
    if a.active.Some? && idle {
      OneMore(log, SawIdle(a.active.value, file), enabled);
    }
  }

  lemma {:induction false} RunRemembers(w: World, actions: seq<Action>, enabled: bool)
    requires Remembers(w.agent, w.log, enabled) && MemoryHolds(w.agent) && NothingLost(w, actions, enabled)
    ensures Remembers(Run(w, actions, enabled).agent, Run(w, actions, enabled).log, enabled)
    decreases |actions|
  {
    if actions != [] {
      ActRemembers(w.agent, w.log, actions[0], enabled);
      ActMemory(w.agent, actions[0], enabled);
      hide Remembers, MemoryHolds, Act, LosesState;
      RunRemembers(Step(w, actions[0], enabled), actions[1..], enabled);
    }
  }

  // ---------- greetings ----------

  /** On connecting, the agent says what it remembers, in any state. */
  lemma {:induction false} GreetingSaysState(w: World, enabled: bool)
    requires w.agent.place.Disconnected?
    ensures Run(w, [Connect(true)] + [Proceed], enabled).sent == w.sent + [Hello(w.agent.state.lastSequence, w.agent.state.lastResult)]
    ensures Run(w, [Connect(true)] + [Proceed], enabled).agent == w.agent.(place := LoopHead)
  {
    RunBoth(w, [Connect(true)], [Proceed], enabled);
    OneStep(w, Connect(true), enabled);
    var greeting := Step(w, Connect(true), enabled);
    OneStep(greeting, Proceed, enabled);
    assert w.sent + [] == w.sent;
  }

  /**
   In every state reached without losing memory to a crash, whatever exceptions there were, the greeting sent on connecting
   carries the last new sequence and the result last decided.
   */
  lemma {:induction false} GreetingReplays(actions: seq<Action>, enabled: bool)
    requires NothingLost(PowerOn(), actions, enabled) && Run(PowerOn(), actions, enabled).agent.place.Disconnected?
    ensures var w := Run(PowerOn(), actions, enabled);
            Run(w, [Connect(true)] + [Proceed], enabled).sent == w.sent + [Hello(LastNew(w.log), LastDecided(w.log, enabled))]
  {
    RunRemembers(PowerOn(), actions, enabled);
    GreetingSaysState(Run(PowerOn(), actions, enabled), enabled);
    hide Run, LastDecided, LastNew;
  }

  /** Whenever the process crashes, what was saved is what the next greeting says. */
  lemma {:induction false} GreetingAfterCrash(w: World, enabled: bool)
    ensures Run(w, [Crash] + [Boot] + ([Connect(true)] + [Proceed]), enabled).sent
         == w.sent + [Hello(OnDisk(w.agent).lastSequence, OnDisk(w.agent).lastResult)]
  {
    RunBoth(w, [Crash] + [Boot], [Connect(true)] + [Proceed], enabled);
    RunBoth(w, [Crash], [Boot], enabled);
    OneStep(w, Crash, enabled);
    var down := Step(w, Crash, enabled);
    OneStep(down, Boot, enabled);
    var up := Step(down, Boot, enabled);
    hide Run;
    assert w.sent + [] == w.sent;
    GreetingSaysState(up, enabled);
  }

  // ---------- sequences are positive ----------

  predicate PositiveState(s: Saved) {
    (s.lastResult.Some? ==> s.lastResult.value.sequence > 0) && PositiveActive(s.active)
  }

  predicate PositiveActive(x: Option<Active>) {
    x.Some? ==> x.value.sequence > 0
  }

  predicate Positive(a: Agent) {
    && PositiveState(a.state) && PositiveState(OnDisk(a)) && PositiveActive(a.active)
    && (Ahead(a.place).Some? ==> Ahead(a.place).value.sequence > 0)
  }

  lemma {:induction false} RaisePositive(a: Agent, section: Section, timedOut: bool)
    requires Positive(a) && (section.Attempt? ==> section.command.sequence > 0)
    ensures Positive(Raise(a, section, timedOut))
  {
    if section.Attempt? {
      NothingAhead(Event(section.command.sequence, Faulted), Event(0, Faulted), Loop);
    }
  }

  lemma {:induction false} FailPositive(a: Agent, timedOut: bool, tookEffect: bool)
    requires Positive(a) && OfProgram(a.place, a.active)
    ensures Positive(FailAt(a, timedOut, tookEffect).agent)
  {
    hide Raise;
    match a.place
    case Saving(_, section) => RaisePositive(if tookEffect then a.(disk := Some(a.state)) else a, section, timedOut);
    case Sending(_, _, section) => RaisePositive(a, section, timedOut);
    case LoopHead => RaisePositive(a, Outside, timedOut);
    case Receiving => RaisePositive(a, Loop, timedOut);
    case Handling => RaisePositive(a, Loop, false);
    case _ =>
  }

  lemma {:induction false} HandlePositive(a: Agent, c: Command, enabled: bool)
    requires Positive(a) && a.place.Handling? && a.state.lastSequence >= 0
    ensures Positive(HandleCommand(a, c, enabled))
  {
    NothingAhead(Event(c.sequence, Latched), Event(0, Latched), Loop);
    NothingAhead(Event(c.sequence, RepeatReply(a, c.sequence)), Event(0, Latched), Loop);
    assert Ahead(Choosing(c)) == Some(c);
  }

  lemma {:induction false} ChoosePositive(a: Agent, c: Command)
    requires Positive(a) && a.place == Choosing(c)
    ensures Positive(Choose(a, c).agent)
  {
    NothingAhead(Event(c.sequence, Latched), Event(0, Latched), Loop);
    NothingAhead(Event(c.sequence, Accepted), Event(c.sequence, Completed), Loop);
    assert Ahead(Starting(c)) == Some(c) && Ahead(a.place) == Some(c);
  }

  lemma {:induction false} ProceedPositive(a: Agent, enabled: bool)
    requires Positive(a) && (a.place.Handling? ==> a.state.lastSequence >= 0)
    ensures Positive(ProceedFrom(a, enabled).agent)
  {
    hide HandleCommand, Choose;
    match a.place
    case Handling =>
      if a.queue != [] {
        HandlePositive(a.(queue := a.queue[1..]), a.queue[0], enabled);
      }
    case Choosing(c) => ChoosePositive(a, c);
    case _ =>
  }

  lemma {:induction false} ActPositive(a: Agent, log: seq<Happening>, action: Action, enabled: bool)
    requires Positive(a) && OfProgram(a.place, a.active) && StartsHold(a, log)
    ensures Positive(Act(a, action, enabled).agent)
  {
    assert a.place.Handling? ==> a.state.lastSequence >= 0;
    hide StartsHold, OfProgram, ProceedFrom, FailAt, MillStatus.Judge;
    match action
    case Proceed => ProceedPositive(a, enabled);
    case Fail(timedOut, tookEffect) => FailPositive(a, timedOut, tookEffect);
    case Start(signature, program) =>
      if a.place.Starting? {
        var c := a.place.command;
        assert Ahead(a.place) == Some(c);
        NothingAhead(Event(c.sequence, Faulted), Event(0, Latched), Loop);
        NothingAhead(Event(c.sequence, Running), Event(0, Latched), Attempt(c));
      }
    case Look(idle, file) =>
      if a.active.Some? {
        NothingAhead(Event(a.active.value.sequence, Completed), Event(0, Latched), Outside);
        NothingAhead(Event(a.active.value.sequence, Latched), Event(0, Latched), Outside);
      }
    case _ => assert Ahead(LoopHead).None?;
  }

  ghost predicate PositiveHolds(w: World) {
    Positive(w.agent) && OfProgram(w.agent.place, w.agent.active) && StartsHold(w.agent, w.log)
  }

  lemma {:induction false} StepPositive(w: World, action: Action, enabled: bool)
    requires PositiveHolds(w)
    ensures PositiveHolds(Step(w, action, enabled))
  {
    ActPositive(w.agent, w.log, action, enabled);
    StepOfProgram(w.agent, action, enabled);
    StartsStepHolds(w, action, enabled);
    hide Positive, OfProgram, StartsHold, Act;
  }

  lemma {:induction false} StartPositive()
    ensures PositiveHolds(PowerOn())
  {
  }
}
