/** What the agent's reports are worth. */
module MillAgentTheorems {
  import opened Outcomes
  import opened MillAgent
  import opened MillAgentSafety
  import MillStatus

  // ---------- the invariant ----------

  ghost predicate Right(r: Option<LastResult>, log: seq<Happening>) {
    r.Some? && r.value.event == Completed ==> Justified(log, r.value.sequence)
  }

  /** A greeting's result is true whatever happens; an event is true as long as no repeat has crossed another's result. */
  ghost predicate True(r: Report, log: seq<Happening>) {
    match r
    case Hello(_, last) => Right(last, log)
    case Event(s, e) => e == Completed && NoneCrossed(log) ==> Justified(log, s)
  }

  ghost predicate PendingTrue(p: Place, log: seq<Happening>) {
    match p
    case Saving(next, _) => PendingTrue(next, log)
    case Sending(r, next, _) => True(r, log) && PendingTrue(next, log)
    case _ => true
  }

  ghost predicate SentTrue(sent: seq<Report>, log: seq<Happening>) {
    forall r | r in sent :: True(r, log)
  }

  ghost predicate Known(x: Option<Active>, log: seq<Happening>) {
    x.Some? ==> BeganAs(x.value) in log
  }

  /** A saved or remembered state: its result is true, its program was begun, its sequence was handled. */
  ghost predicate StateHolds(s: Saved, log: seq<Happening>) {
    && Right(s.lastResult, log) && Known(s.active, log)
    && (s.lastSequence > 0 ==> WasHandled(log, s.lastSequence))
    && (s.lastResult.Some? || s.active.Some? ==> s.lastSequence > 0)
  }

  /** An exception here, or further on, would be put down to a command. */
  predicate Attempting(p: Place) {
    match p
    case Saving(next, section) => section.Attempt? || Attempting(next)
    case Sending(_, next, section) => section.Attempt? || Attempting(next)
    case _ => false
  }

  ghost predicate ReportsHold(a: Agent, log: seq<Happening>) {
    && StateHolds(a.state, log) && (a.disk.Some? ==> StateHolds(a.disk.value, log))
    && Known(a.active, log)
    && PendingTrue(a.place, log)
    && (a.active.Some? || Ahead(a.place).Some? || Attempting(a.place) ==> a.state.lastSequence > 0)
  }

  ghost predicate Holds(w: World) {
    StartsHold(w.agent, w.log) && ReportsHold(w.agent, w.log) && SentTrue(w.sent, w.log)
  }

  // ---------- longer logs ----------

  lemma {:induction false} JustifiedStays(log: seq<Happening>, h: Happening, s: int)
    requires Justified(log, s)
    ensures Justified(log + [h], s)
  {
    var g :| g in log && (g == Probed(s) || IdleWithProof(g, s));
    assert g in log + [h];
  }

  lemma {:induction false} FewerCrossed(log: seq<Happening>, more: seq<Happening>)
    requires NoneCrossed(log + more)
    ensures NoneCrossed(log)
  {
    forall h | h in log
      ensures !Crossed(h)
    {
      assert h in log + more;
    }
  }

  lemma {:induction false} HandledStays(log: seq<Happening>, h: Happening, s: int)
    ensures WasHandled(log, s) ==> WasHandled(log + [h], s)
    ensures h.Handled? && h.sequence == s ==> WasHandled(log + [h], s)
  {
    assert h in log + [h];
    if WasHandled(log, s) {
      var g :| g in log && g.Handled? && g.sequence == s;
      assert g in log + [h];
    }
  }

  lemma {:induction false} TrueStays(r: Report, log: seq<Happening>, h: Happening)
    requires True(r, log)
    ensures True(r, log + [h])
  {
    hide Justified;
    var more := log + [h];
    if NoneCrossed(more) {
      FewerCrossed(log, [h]);
    }
    match r
    case Hello(_, last) => RightStays(last, log, h);
    case Event(s, e) =>
      if Justified(log, s) {
        JustifiedStays(log, h, s);
      }
  }

  lemma {:induction false} RightStays(r: Option<LastResult>, log: seq<Happening>, h: Happening)
    requires Right(r, log)
    ensures Right(r, log + [h])
  {
    if r.Some? && r.value.event == Completed {
      JustifiedStays(log, h, r.value.sequence);
    }
  }

  lemma {:induction false} PendingStays(p: Place, log: seq<Happening>, h: Happening)
    requires PendingTrue(p, log)
    ensures PendingTrue(p, log + [h])
  {
    match p
    case Saving(next, _) => PendingStays(next, log, h);
    case Sending(r, next, _) =>
      TrueStays(r, log, h);
      PendingStays(next, log, h);
    case _ =>
  }

  lemma {:induction false} SentStays(sent: seq<Report>, log: seq<Happening>, h: Happening)
    requires SentTrue(sent, log)
    ensures SentTrue(sent, log + [h])
  {
    forall r | r in sent
      ensures True(r, log + [h])
    {
      TrueStays(r, log, h);
    }
  }

  lemma {:induction false} ReportsStay(a: Agent, log: seq<Happening>, h: Happening)
    requires ReportsHold(a, log)
    ensures ReportsHold(a, log + [h])
  {
    RightStays(a.state.lastResult, log, h);
    HandledStays(log, h, a.state.lastSequence);
    PendingStays(a.place, log, h);
    if a.disk.Some? {
      HandledStays(log, h, a.disk.value.lastSequence);
      RightStays(a.disk.value.lastResult, log, h);
    }
    hide PendingTrue, Right, WasHandled;
  }

  // ---------- steps ----------

  /** Two reports about to be sent that do not claim completion. */
  lemma {:induction false} ModestReport(s: int, e: Name, next: Place, section: Section, log: seq<Happening>)
    requires e != Completed && (next.Handling? || next.Forgetting? || next.Starting?)
    ensures PendingTrue(Sending(Event(s, e), next, section), log)
    ensures Ahead(next).None? ==> Ahead(Sending(Event(s, e), next, section)).None?
    ensures Attempting(Sending(Event(s, e), next, section)) == section.Attempt?
  {
    assert PendingTrue(next, log) && !Attempting(next);
  }

  lemma {:induction false} ClaimingReport(s: int, next: Place, section: Section, log: seq<Happening>)
    requires Justified(log, s) && (next.Handling? || next.Forgetting?)
    ensures PendingTrue(Sending(Event(s, Completed), next, section), log)
    ensures Attempting(Sending(Event(s, Completed), next, section)) == section.Attempt?
  {
    assert PendingTrue(next, log) && !Attempting(next);
  }

  lemma {:induction false} FaultingReports(a: Agent, log: seq<Happening>, c: Command)
    requires ReportsHold(a, log) && a.state.lastSequence > 0
    ensures ReportsHold(Faulting(a, c), log)
  {
    ModestReport(c.sequence, Faulted, Handling, Loop, log);
    hide Justified, WasHandled;
  }

  lemma {:induction false} RaiseReports(a: Agent, log: seq<Happening>, section: Section, timedOut: bool)
    requires ReportsHold(a, log) && (section.Attempt? ==> a.state.lastSequence > 0)
    ensures ReportsHold(Raise(a, section, timedOut), log)
  {
    hide Justified, WasHandled;
    if section.Attempt? {
      FaultingReports(a, log, section.command);
    }
  }

  lemma {:induction false} FailReports(a: Agent, log: seq<Happening>, timedOut: bool, tookEffect: bool)
    requires ReportsHold(a, log)
    ensures var t := FailAt(a, timedOut, tookEffect);
            ReportsHold(t.agent, log + t.happened) && SentTrue(t.sent, log + t.happened)
  {
    FailedReportsHold(a, log, timedOut, tookEffect);
    var t := FailAt(a, timedOut, tookEffect);
    hide ReportsHold, SentTrue, FailAt;
    if t.happened == [] {
      assert log + t.happened == log;
    } else {
      FailureIsOne(a, timedOut, tookEffect);
      ReportsStay(t.agent, log, t.happened[0]);
      SentStays(t.sent, log, t.happened[0]);
    }
  }

  lemma {:induction false} FailureIsOne(a: Agent, timedOut: bool, tookEffect: bool)
    requires FailAt(a, timedOut, tookEffect).happened != []
    ensures FailAt(a, timedOut, tookEffect).happened == [FailAt(a, timedOut, tookEffect).happened[0]]
  {
  }

  lemma {:induction false} FailedReportsHold(a: Agent, log: seq<Happening>, timedOut: bool, tookEffect: bool)
    requires ReportsHold(a, log)
    ensures ReportsHold(FailAt(a, timedOut, tookEffect).agent, log)
    ensures SentTrue(FailAt(a, timedOut, tookEffect).sent, log)
  {
    match a.place
    case Saving(_, section) =>
      var saved := if tookEffect then a.(disk := Some(a.state)) else a;
      assert ReportsHold(saved, log) by { hide Justified, WasHandled; }
      RaiseReports(saved, log, section, timedOut);
    case Sending(_, _, section) => RaiseReports(a, log, section, timedOut);
    case LoopHead => RaiseReports(a, log, Outside, timedOut);
    case Receiving => RaiseReports(a, log, Loop, timedOut);
    case Handling => RaiseReports(a, log, Loop, false);
    case _ =>
  }

  lemma {:induction false} RepeatIsNotSilent(log: seq<Happening>, s: int, known: Saved)
    requires WasHandled(log, s)
    ensures !NoRepeats(log + [Handled(s, known)])
  {
    var more := log + [Handled(s, known)];
    var h :| h in log && h.Handled? && h.sequence == s;
    var i :| 0 <= i < |log| && log[i] == h;
    assert more[i] == h && more[|log|] == Handled(s, known);
  }

  lemma {:induction false} RepeatReports(a: Agent, log: seq<Happening>, c: Command)
    requires ReportsHold(a, log) && c.sequence <= a.state.lastSequence
    ensures True(Event(c.sequence, RepeatReply(a, c.sequence)), log + [Handled(c.sequence, a.state)])
  {
    var h := Handled(c.sequence, a.state);
    if RepeatReply(a, c.sequence) == Completed {
      if a.state.lastResult.value.sequence == c.sequence {
        JustifiedStays(log, h, c.sequence);
      } else {
        assert Crossed(h) && h in log + [h];
      }
    }
  }

  lemma {:induction false} HandleReports(a: Agent, log: seq<Happening>, c: Command, enabled: bool)
    requires ReportsHold(a, log) && a.place.Handling? && a.state.lastSequence >= 0
    ensures ReportsHold(HandleCommand(a, c, enabled), log + [Handled(c.sequence, a.state)])
  {
    var more := log + [Handled(c.sequence, a.state)];
    ReportsStay(a, log, Handled(c.sequence, a.state));
    HandledStays(log, Handled(c.sequence, a.state), c.sequence);
    if c.sequence <= a.state.lastSequence {
      RepeatReports(a, log, c);
      assert PendingTrue(Handling, more) && Ahead(Handling).None? && !Attempting(Handling);
    } else if !enabled {
      ModestReport(c.sequence, Latched, Handling, Loop, more);
    } else {
      assert PendingTrue(Choosing(c), more) && !Attempting(Choosing(c));
    }
    hide Justified, NoneCrossed, WasHandled;
  }

  lemma {:induction false} ChooseReports(a: Agent, log: seq<Happening>, c: Command)
    requires ReportsHold(a, log) && a.place == Choosing(c)
    ensures ReportsHold(Choose(a, c).agent, log + Choose(a, c).happened)
  {
    assert log + [] == log && Ahead(a.place) == Some(c);
    if c.operation.Probe? && a.active.None? {
      var h := Probed(c.sequence);
      ReportsStay(a, log, h);
      assert h in log + [h];
      ClaimingReport(c.sequence, Handling, Loop, log + [h]);
      var both := Sending(Event(c.sequence, Accepted), Sending(Event(c.sequence, Completed), Handling, Loop), Loop);
      assert PendingTrue(both, log + [h]) && !Attempting(both);
      NothingAhead(Event(c.sequence, Accepted), Event(c.sequence, Completed), Loop);
    } else {
      ReportsStay(a, log, Refused(c.sequence));
      ModestReport(c.sequence, Latched, Handling, Loop, log + [Refused(c.sequence)]);
      ModestReport(c.sequence, Accepted, Starting(c), Loop, log);
    }
    hide Justified, NoneCrossed, WasHandled;
  }

  lemma {:induction false} StartReports(a: Agent, log: seq<Happening>, signature: Option<MillStatus.Signature>,
        program: Option<string>)
    requires ReportsHold(a, log) && a.place.Starting?
    ensures var t := StartProgram(a, a.place.command, signature, program);
            ReportsHold(t.agent, log + t.happened)
  {
    var c := a.place.command;
    assert Ahead(a.place) == Some(c);
    var h := Began(c.sequence, c.requireProof, signature, program);
    ReportsStay(a, log, h);
    if program.None? {
      FaultingReports(a, log + [h], c);
    } else {
      ModestReport(c.sequence, Running, Handling, Attempt(c), log + [h]);
    }
    hide Justified, NoneCrossed, WasHandled;
  }

  lemma {:induction false} ConcludeReports(a: Agent, log: seq<Happening>, file: MillStatus.StatusFile)
    requires ReportsHold(a, log) && a.active.Some? && a.place.LoopHead?
    ensures ReportsHold(Conclude(a, a.active.value, file), log + [SawIdle(a.active.value, file)])
  {
    var x := a.active.value;
    var h := SawIdle(x, file);
    ReportsStay(a, log, h);
    if Conclude(a, x, file).state.lastResult.value.event == Completed {
      assert IdleWithProof(h, x.sequence) && h in log + [h];
      ClaimingReport(x.sequence, Forgetting, Outside, log + [h]);
    } else {
      ModestReport(x.sequence, Latched, Forgetting, Outside, log + [h]);
    }
    NothingAhead(Event(x.sequence, Completed), Event(x.sequence, Completed), Outside);
    hide Justified, NoneCrossed, WasHandled;
  }

  lemma {:induction false} ProceedReports(a: Agent, log: seq<Happening>, enabled: bool)
    requires ReportsHold(a, log) && (a.place.Handling? ==> a.state.lastSequence >= 0)
    ensures var t := ProceedFrom(a, enabled);
            ReportsHold(t.agent, log + t.happened) && SentTrue(t.sent, log + t.happened)
  {
    assert log + [] == log;
    match a.place
    case Handling =>
      if a.queue != [] {
        HandleReports(a.(queue := a.queue[1..]), log, a.queue[0], enabled);
      }
      hide ReportsHold, PendingTrue;
    case Choosing(c) =>
      ChooseReports(a, log, c);
      hide ReportsHold;
    case Saving(next, section) => PassOn(a, log);
    case Sending(report, next, section) => PassOn(a, log);
    case _ => hide Justified, NoneCrossed, WasHandled;
  }

  /** Moving on from a save or a send keeps what is pending true. */
  lemma {:induction false} PassOn(a: Agent, log: seq<Happening>)
    requires ReportsHold(a, log) && (a.place.Saving? || a.place.Sending?)
    ensures ReportsHold(a.(place := a.place.next), log)
    ensures ReportsHold(a.(disk := Some(a.state), place := a.place.next), log)
  {
    hide Justified, NoneCrossed, WasHandled;
  }

  lemma {:induction false} StepHolds(w: World, action: Action, enabled: bool)
    requires Holds(w)
    ensures Holds(Step(w, action, enabled))
  {
    StartsStepHolds(w, action, enabled);
    var t := Act(w.agent, action, enabled);
    ActReports(w.agent, w.log, action, enabled);
    hide StartsHold, ReportsHold, Act;
    if t.happened == [] {
      assert w.log + t.happened == w.log;
    } else {
      assert t.happened == [t.happened[0]];
      SentStays(w.sent, w.log, t.happened[0]);
    }
    hide True;
  }

  lemma {:induction false} ActReports(a: Agent, log: seq<Happening>, action: Action, enabled: bool)
    requires StartsHold(a, log) && ReportsHold(a, log)
    ensures var t := Act(a, action, enabled);
            |t.happened| <= 1 && ReportsHold(t.agent, log + t.happened) && SentTrue(t.sent, log + t.happened)
  {
    assert log + [] == log;
    match action
    case Proceed =>
      ProceedReports(a, log, enabled);
      ProceedHolds(a, log, enabled);
      hide ReportsHold, StartsHold, ProceedFrom;
    case Fail(timedOut, tookEffect) =>
      FailReports(a, log, timedOut, tookEffect);
      FailHolds(a, log, timedOut, tookEffect);
      hide ReportsHold, StartsHold, FailAt;
    case Start(signature, program) =>
      if a.place.Starting? {
        StartReports(a, log, signature, program);
      }
      hide ReportsHold, StartsHold;
    case Look(idle, file) =>
      if a.place.LoopHead? && a.active.Some? && idle {
        ConcludeReports(a, log, file);
        hide ReportsHold, StartsHold;
      }
      hide Justified, NoneCrossed, WasHandled;
    case _ =>
      hide Justified, NoneCrossed, WasHandled, UsesBelow, UsesIncrease;
      assert PendingTrue(LoopHead, log) && Ahead(LoopHead).None? && !Attempting(LoopHead);
  }

  lemma {:induction false} RunHolds(w: World, actions: seq<Action>, enabled: bool)
    requires Holds(w)
    ensures Holds(Run(w, actions, enabled))
    decreases |actions|
  {
    hide Holds, Step;
    if actions != [] {
      StepHolds(w, actions[0], enabled);
      RunHolds(Step(w, actions[0], enabled), actions[1..], enabled);
    }
  }

  lemma {:induction false} StartHolds()
    ensures Holds(PowerOn())
  {
  }

  // ---------- the theorems ----------

  /**
   Across any run of crashes, restarts, exceptions, disconnects and commands, work is begun for strictly increasing
   sequences, so `start_program` is called at most once for each; and the state file already names each of them.
   */
  lemma {:induction false} StartedAtMostOnce(actions: seq<Action>, enabled: bool)
    ensures var w := Run(PowerOn(), actions, enabled);
            && UsesIncrease(w.log)
            && UsesBelow(w.log, DiskSequence(w.agent.disk) + 1)
  {
    StartsRunHolds(PowerOn(), actions, enabled);
  }

  ghost predicate Untouched(w: World) {
    Ahead(w.agent.place).None? && forall h | h in w.log :: UseOf(h).None?
  }

  /** An agent whose execution is not enabled never begins anything. */
  lemma {:induction false} DisabledNeverStarts(w: World, actions: seq<Action>)
    requires Untouched(w)
    ensures Untouched(Run(w, actions, false))
    decreases |actions|
  {
    if actions != [] {
      DisabledStep(w, actions[0]);
      DisabledNeverStarts(Step(w, actions[0], false), actions[1..]);
    }
  }

  lemma {:induction false} DisabledStep(w: World, action: Action)
    requires Untouched(w)
    ensures Untouched(Step(w, action, false))
  {
    hide HandleCommand, FailAt, MillStatus.Judge;
    assert Ahead(LoopHead).None?;
    match action
    case Proceed =>
      if w.agent.place.Handling? && w.agent.queue != [] {
        DisabledHandling(w.agent.(queue := w.agent.queue[1..]), w.agent.queue[0]);
      }
    case Look(idle, file) =>
      if w.agent.active.Some? && idle {
        NothingAhead(Event(w.agent.active.value.sequence, Completed), Event(0, Latched), Outside);
        NothingAhead(Event(w.agent.active.value.sequence, Latched), Event(0, Latched), Outside);
      }
    case Fail(timedOut, tookEffect) => DisabledFailure(w.agent, timedOut, tookEffect);
    case _ =>
  }

  lemma {:induction false} DisabledHandling(a: Agent, c: Command)
    ensures Ahead(HandleCommand(a, c, false).place).None?
    ensures HandleCommand(a, c, false).active == a.active
  {
    NothingAhead(Event(c.sequence, Latched), Event(0, Latched), Loop);
    NothingAhead(Event(c.sequence, RepeatReply(a, c.sequence)), Event(0, Latched), Loop);
  }

  lemma {:induction false} DisabledFailure(a: Agent, timedOut: bool, tookEffect: bool)
    requires Ahead(a.place).None?
    ensures var t := FailAt(a, timedOut, tookEffect);
            && Ahead(t.agent.place).None? && t.agent.active == a.active
            && forall h | h in t.happened :: h.StartFailed?
  {
    assert Ahead(LoopHead).None?;
    if (a.place.Saving? || a.place.Sending?) && a.place.section.Attempt? {
      NothingAhead(Event(a.place.section.command.sequence, Faulted), Event(0, Latched), Loop);
    }
  }

  /** Every greeting is true, after any crash and whatever was repeated: the result it replays was proven for its own sequence. */
  lemma {:induction false} GreetingsAreTrue(actions: seq<Action>, enabled: bool, r: Report)
    requires r in Run(PowerOn(), actions, enabled).sent && r.Hello?
    ensures Right(r.lastResult, Run(PowerOn(), actions, enabled).log)
  {
    StartHolds();
    RunHolds(PowerOn(), actions, enabled);
    assert True(r, Run(PowerOn(), actions, enabled).log);
  }

  /**
   The machine was seen idle while this program was thought running, and the completion file, not the one there before,
   proved that it ended normally.
   */
  ghost predicate ProvenIdle(log: seq<Happening>, s: int, signature: Option<MillStatus.Signature>, program: string) {
    exists h | h in log :: h.SawIdle? && h.active == Active(s, program, signature, true)
                           && MillStatus.Judge(h.file, program, signature) == MillStatus.Completed
  }

  /** If the program of `s` was begun with proof required, it was proven. */
  ghost predicate ProvenIfRequired(log: seq<Happening>, s: int) {
    forall signature, program | Began(s, true, signature, program) in log ::
      program.Some? && ProvenIdle(log, s, signature, program.value)
  }

  lemma {:induction false} OneUseEach(log: seq<Happening>, g: Happening, h: Happening)
    requires UsesIncrease(log) && g in log && h in log
    requires UseOf(g).Some? && UseOf(g) == UseOf(h)
    ensures g == h
  {
    var i :| 0 <= i < |log| && log[i] == g;
    var j :| 0 <= j < |log| && log[j] == h;
  }

  /** Every program seen idle was begun, with the same requirement, the same path and the same file there before. */
  ghost predicate IdleWasBegun(log: seq<Happening>) {
    forall h | h in log && h.SawIdle? :: BeganAs(h.active) in log
  }

  lemma {:induction false} IdleIsBegun(w: World, actions: seq<Action>, enabled: bool)
    requires Holds(w) && IdleWasBegun(w.log)
    ensures IdleWasBegun(Run(w, actions, enabled).log)
    decreases |actions|
  {
    if actions != [] {
      StepHolds(w, actions[0], enabled);
      IdleStep(w, actions[0], enabled);
      IdleIsBegun(Step(w, actions[0], enabled), actions[1..], enabled);
    }
  }

  lemma {:induction false} IdleStep(w: World, action: Action, enabled: bool)
    requires Holds(w) && IdleWasBegun(w.log)
    ensures IdleWasBegun(Step(w, action, enabled).log)
  {
    hide StartsHold, SentTrue, PendingTrue, Right;
    var t := Act(w.agent, action, enabled);
    forall h | h in w.log + t.happened && h.SawIdle?
      ensures BeganAs(h.active) in w.log + t.happened
    {
      if h in t.happened {
        assert h.active == w.agent.active.value;
      }
    }
  }

  /** What a justified completion is worth for a program begun with proof required. */
  lemma {:induction false} JustifiedIsProven(log: seq<Happening>, s: int)
    requires UsesIncrease(log) && IdleWasBegun(log) && Justified(log, s)
    ensures ProvenIfRequired(log, s)
  {
    var h :| h in log && (h == Probed(s) || IdleWithProof(h, s));
    hide UsesIncrease, MillStatus.Judge;
    forall signature, program | Began(s, true, signature, program) in log
      ensures program.Some? && ProvenIdle(log, s, signature, program.value)
    {
      if h == Probed(s) {
        OneUseEach(log, h, Began(s, true, signature, program));
      } else {
        OneUseEach(log, BeganAs(h.active), Began(s, true, signature, program));
        assert h.active == Active(s, program.value, signature, true);
      }
    }
  }

  /**
   If no repeat crosses another's result, every completed event is true; and for a program begun with proof required, the machine
   was seen idle with that program's completion file changed and proving normal completion.
   */
  lemma {:induction false} CompletedIsTrue(actions: seq<Action>, enabled: bool, s: int)
    requires Event(s, Completed) in Run(PowerOn(), actions, enabled).sent
    requires NoneCrossed(Run(PowerOn(), actions, enabled).log)
    ensures var log := Run(PowerOn(), actions, enabled).log;
            Justified(log, s) && ProvenIfRequired(log, s)
  {
    StartHolds();
    RunHolds(PowerOn(), actions, enabled);
    var log := Run(PowerOn(), actions, enabled).log;
    assert True(Event(s, Completed), log);
    IdleIsBegun(PowerOn(), actions, enabled);
    JustifiedIsProven(log, s);
  }

  /** In particular, none does if no sequence is repeated. */
  lemma {:induction false} NoRepeatsNoneCrossed(w: World, actions: seq<Action>, enabled: bool)
    requires Holds(w) && (NoRepeats(w.log) ==> NoneCrossed(w.log))
    ensures var log := Run(w, actions, enabled).log;
            NoRepeats(log) ==> NoneCrossed(log)
    decreases |actions|
  {
    hide Holds, Step, NoRepeats, NoneCrossed;
    if actions != [] {
      StepHolds(w, actions[0], enabled);
      StepCrosses(w, actions[0], enabled);
      NoRepeatsNoneCrossed(Step(w, actions[0], enabled), actions[1..], enabled);
    }
  }

  lemma {:induction false} StepCrosses(w: World, action: Action, enabled: bool)
    requires Holds(w) && (NoRepeats(w.log) ==> NoneCrossed(w.log))
    ensures var log := Step(w, action, enabled).log;
            NoRepeats(log) ==> NoneCrossed(log)
  {
    var happened := Act(w.agent, action, enabled).happened;
    var more := w.log + happened;
    if NoRepeats(more) {
      FewerRepeats(w.log, happened);
      forall h | h in more
        ensures !Crossed(h)
      {
        if Crossed(h) && h in happened {
          CrossedIsRepeat(w, action, enabled, h);
        }
      }
    }
  }

  lemma {:induction false} CrossedIsRepeat(w: World, action: Action, enabled: bool, h: Happening)
    requires Holds(w) && h in Act(w.agent, action, enabled).happened && Crossed(h)
    ensures !NoRepeats(w.log + Act(w.agent, action, enabled).happened)
  {
    assert h.known == w.agent.state && Act(w.agent, action, enabled).happened == [h];
    RepeatIsNotSilent(w.log, h.sequence, h.known);
  }

  // ---------- repeats ----------

  /** A repeat of a sequence whose own result is the last one is answered truly, however often it comes. */
  lemma {:induction false} RepeatOfFinishedIsTrue(w: World, c: Command)
    requires Holds(w) && c.sequence == w.agent.state.lastSequence
    requires w.agent.state.lastResult.Some? && w.agent.state.lastResult.value.sequence == c.sequence
    ensures RepeatReply(w.agent, c.sequence) == w.agent.state.lastResult.value.event
    ensures RepeatReply(w.agent, c.sequence) == Completed ==> Justified(w.log, c.sequence)
  {
  }

  lemma {:induction false} RunOneMore(w: World, actions: seq<Action>, action: Action, enabled: bool)
    ensures Run(w, actions + [action], enabled) == Step(Run(w, actions, enabled), action, enabled)
    decreases |actions|
  {
    if actions == [] {
      assert [action][1..] == [];
    } else {
      assert (actions + [action])[1..] == actions[1..] + [action];
      RunOneMore(Step(w, actions[0], enabled), actions[1..], action, enabled);
    }
  }

  lemma {:induction false} Then(actions: seq<Action>, w: World, action: Action) returns (more: seq<Action>, next: World)
    requires Run(PowerOn(), actions, true) == w
    ensures more == actions + [action] && next == Step(w, action, true) && Run(PowerOn(), more, true) == next
  {
    more, next := actions + [action], Step(w, action, true);
    RunOneMore(PowerOn(), actions, action, true);
  }

  const PROBE_1 := Command(1, Probe, false)
  const PROGRAM_2 := Command(2, RunProgram, true)

  /** The agent has been sent a probe and then a program twice, and has answered the probe. */
  lemma {:induction false} ProbeAnswered() returns (actions: seq<Action>, w: World)
    ensures Run(PowerOn(), actions, true) == w && w.log == [Handled(1, Unused()), Probed(1)]
    ensures w.agent == Agent(Some(Saved(1, Some(LastResult(1, Completed)), None)), Saved(1, Some(LastResult(1, Completed)), None),
                             None, [PROGRAM_2, PROGRAM_2], Handling)
  {
    actions, w := [], PowerOn();
    actions, w := Then(actions, w, Boot);
    actions, w := Then(actions, w, Connect(true));
    actions, w := Then(actions, w, Proceed);
    actions, w := Then(actions, w, Look(false, MillStatus.Absent));
    actions, w := Then(actions, w, Receive(Some([PROBE_1, PROGRAM_2, PROGRAM_2])));
    assert w.agent == Agent(None, Unused(), None, [PROBE_1, PROGRAM_2, PROGRAM_2], Handling);
    actions, w := Then(actions, w, Proceed);
    assert w.log == [Handled(1, Unused())];
    actions, w := Then(actions, w, Proceed);
    actions, w := Then(actions, w, Proceed);
    assert w.log == [Handled(1, Unused()), Probed(1)];
    actions, w := Then(actions, w, Proceed);
    actions, w := Then(actions, w, Proceed);
    actions, w := Then(actions, w, Proceed);
  }

  lemma {:induction false} ProgramChosen() returns (actions: seq<Action>, w: World)
    ensures Run(PowerOn(), actions, true) == w
    ensures w.log == [Handled(1, Unused()), Probed(1), Handled(2, Saved(1, Some(LastResult(1, Completed)), None))]
    ensures w.agent.state.lastResult == Some(LastResult(1, Completed)) && w.agent.state.lastSequence == 2
    ensures w.agent.place == Sending(Event(2, Accepted), Starting(PROGRAM_2), Loop) && w.agent.queue == [PROGRAM_2]
  {
    hide Run, MillStatus.Judge;
    actions, w := ProbeAnswered();
    actions, w := Then(actions, w, Proceed);
    actions, w := Then(actions, w, Proceed);
    actions, w := Then(actions, w, Proceed);
  }

  /** Program 2 has been begun and is running; its repeat is next. */
  lemma {:induction false} ProgramRunning() returns (actions: seq<Action>, w: World)
    ensures Run(PowerOn(), actions, true) == w
    ensures w.log == [Handled(1, Unused()), Probed(1), Handled(2, Saved(1, Some(LastResult(1, Completed)), None)), Began(2, true, None, Some("part.ngc"))]
    ensures w.agent.state.lastResult == Some(LastResult(1, Completed)) && w.agent.state.lastSequence == 2
    ensures w.agent.place == Handling && w.agent.queue == [PROGRAM_2]
  {
    hide Run, MillStatus.Judge;
    actions, w := ProgramChosen();
    actions, w := Then(actions, w, Proceed);
    actions, w := Then(actions, w, Start(None, Some("part.ngc")));
    assert w.log == [Handled(1, Unused()), Probed(1), Handled(2, Saved(1, Some(LastResult(1, Completed)), None)), Began(2, true, None, Some("part.ngc"))];
    actions, w := Then(actions, w, Proceed);
    actions, w := Then(actions, w, Proceed);
  }

  lemma {:induction false} NothingProves(log: seq<Happening>, s: int)
    requires forall h | h in log :: h != Probed(s) && !h.SawIdle?
    ensures !Justified(log, s)
  {
  }

  /**
   Without the condition that no repeat crosses another's result it fails: here program 2 is begun, and its repeat, arriving
   while it is still running, is answered with the completed result of probe 1.
   */
  lemma {:induction false} RepeatInFlightIsMisreported() returns (actions: seq<Action>)
    ensures var w := Run(PowerOn(), actions, true);
            Event(2, Completed) in w.sent && !Justified(w.log, 2)
  {
    var w: World;
    actions, w := ProgramRunning();
    var log := w.log + [Handled(2, w.agent.state)];
    NothingProves(log, 2);
    hide Justified, Run;
    actions, w := Then(actions, w, Proceed);
    assert w.agent.place == Sending(Event(2, Completed), Handling, Loop) && w.log == log;
    actions, w := Then(actions, w, Proceed);
    assert w.sent[|w.sent| - 1] == Event(2, Completed) && w.log == log;
  }

  // ---------- results are saved before they are reported ----------

  /** Each completion pending here is the result `r`. */
  predicate PendingIs(p: Place, r: Option<LastResult>) {
    match p
    case Saving(next, _) => PendingIs(next, r)
    case Sending(report, next, _) =>
      && (report.Event? && report.event == Completed ==> r == Some(LastResult(report.sequence, Completed)))
      && PendingIs(next, r)
    case _ => true
  }

  /** The result a pending completion must be: in memory while it is being saved, on disk once it is being sent. */
  function ResultFor(a: Agent): Option<LastResult> {
    if a.place.Saving? then a.state.lastResult else if a.disk.Some? then a.disk.value.lastResult else None
  }

  predicate NeverSaves(p: Place) {
    !p.Saving? && (p.Sending? ==> NeverSaves(p.next))
  }

  /** Nothing is saved after the statement at hand. */
  predicate SavesAtMostNow(p: Place) {
    if p.Saving? then NeverSaves(p.next) else NeverSaves(p)
  }

  ghost predicate SavedFirst(w: World) {
    && (NoRepeats(w.log) ==> PendingIs(w.agent.place, ResultFor(w.agent)))
    && SavesAtMostNow(w.agent.place)
  }

  lemma {:induction false} FewerRepeats(log: seq<Happening>, more: seq<Happening>)
    requires NoRepeats(log + more)
    ensures NoRepeats(log)
  {
    assert forall i | 0 <= i < |log| :: (log + more)[i] == log[i];
  }

  lemma {:induction false} PendingOne(s: int, e: Name, next: Place, section: Section, r: Option<LastResult>)
    requires next.Handling? || next.Forgetting? || next.Starting?
    requires e == Completed ==> r == Some(LastResult(s, Completed))
    ensures PendingIs(Sending(Event(s, e), next, section), r) && NeverSaves(Sending(Event(s, e), next, section))
  {
    assert PendingIs(next, r) && NeverSaves(next);
  }

  lemma {:induction false} RaiseSavesFirst(a: Agent, section: Section, timedOut: bool)
    ensures var after := Raise(a, section, timedOut);
            && PendingIs(after.place, ResultFor(after))
            && SavesAtMostNow(after.place)
  {
    if section.Attempt? {
      PendingOne(section.command.sequence, Faulted, Handling, Loop, Raise(a, section, timedOut).state.lastResult);
    }
  }

  lemma {:induction false} HandleSavesFirst(w: World, enabled: bool)
    requires Holds(w) && w.agent.place.Handling? && w.agent.queue != []
    ensures SavedFirst(Step(w, Proceed, enabled))
  {
    var a, c := w.agent, w.agent.queue[0];
    var after := HandleCommand(a.(queue := a.queue[1..]), c, enabled);
    if c.sequence <= a.state.lastSequence {
      var reply := RepeatReply(a, c.sequence);
      if reply == Completed {
        RepeatIsNotSilent(w.log, c.sequence, a.state);
        assert NeverSaves(Handling);
      } else {
        PendingOne(c.sequence, reply, Handling, Loop, ResultFor(after));
      }
    } else if !enabled {
      PendingOne(c.sequence, Latched, Handling, Loop, after.state.lastResult);
    } else {
      assert PendingIs(Choosing(c), after.state.lastResult) && NeverSaves(Choosing(c));
    }
    hide StartsHold, SentTrue, NoRepeats, Right;
  }

  lemma {:induction false} ChooseSavesFirst(a: Agent, c: Command)
    requires a.place == Choosing(c)
    ensures var after := Choose(a, c).agent;
            && PendingIs(after.place, ResultFor(after))
            && SavesAtMostNow(after.place)
  {
    var after := Choose(a, c).agent;
    PendingOne(c.sequence, Latched, Handling, Loop, ResultFor(after));
    PendingOne(c.sequence, Accepted, Starting(c), Loop, ResultFor(after));
    if c.operation.Probe? && a.active.None? {
      PendingOne(c.sequence, Completed, Handling, Loop, ResultFor(after));
      assert PendingIs(after.place.next, ResultFor(after)) && NeverSaves(after.place.next);
    }
  }

  lemma {:induction false} ProceedSavesFirst(w: World, enabled: bool)
    requires Holds(w) && SavedFirst(w)
    ensures SavedFirst(Step(w, Proceed, enabled))
  {
    var a := w.agent;
    assert w.log + [] == w.log && w.sent + [] == w.sent;
    match a.place
    case Handling =>
      if a.queue != [] {
        HandleSavesFirst(w, enabled);
      }
    case Choosing(c) =>
      ChooseSavesFirst(a, c);
      hide Holds, NoRepeats, Choose;
    case Saving(next, _) => hide Holds, NoRepeats;
    case Sending(report, next, section) =>
      hide Holds, NoRepeats;
      assert NeverSaves(next);
      assert NoRepeats(w.log) ==> PendingIs(next, ResultFor(a));
    case _ => hide Holds, NoRepeats;
  }

  lemma {:induction false} StepSavesFirst(w: World, action: Action, enabled: bool)
    requires Holds(w) && SavedFirst(w)
    ensures SavedFirst(Step(w, action, enabled))
  {
    var a := w.agent;
    var t := Act(a, action, enabled);
    if NoRepeats(w.log + t.happened) {
      FewerRepeats(w.log, t.happened);
    }
    match action
    case Proceed => ProceedSavesFirst(w, enabled);
    case Fail(timedOut, tookEffect) =>
      FailSavesFirst(a, timedOut, tookEffect);
      hide Holds, NoRepeats, FailAt;
    case Start(signature, program) =>
      if a.place.Starting? {
        PendingOne(a.place.command.sequence, Running, Handling, Attempt(a.place.command), t.agent.state.lastResult);
        RaiseSavesFirst(a, Attempt(a.place.command), false);
      }
      hide Holds, NoRepeats;
    case Look(idle, file) =>
      if a.place.LoopHead? && a.active.Some? && idle {
        PendingOne(a.active.value.sequence, t.agent.state.lastResult.value.event, Forgetting, Outside, t.agent.state.lastResult);
      }
      hide Holds, NoRepeats, MillStatus.Judge;
    case _ =>
      assert w.log + [] == w.log && PendingIs(LoopHead, ResultFor(t.agent)) && NeverSaves(LoopHead);
      hide Holds, NoRepeats;
  }

  lemma {:induction false} FailSavesFirst(a: Agent, timedOut: bool, tookEffect: bool)
    ensures var after := FailAt(a, timedOut, tookEffect).agent;
            after == a || (
              && PendingIs(after.place, ResultFor(after))
              && SavesAtMostNow(after.place))
  {
    match a.place
    case Saving(_, section) => RaiseSavesFirst(if tookEffect then a.(disk := Some(a.state)) else a, section, timedOut);
    case Sending(_, _, section) => RaiseSavesFirst(a, section, timedOut);
    case LoopHead => RaiseSavesFirst(a, Outside, timedOut);
    case Receiving => RaiseSavesFirst(a, Loop, timedOut);
    case Handling => RaiseSavesFirst(a, Loop, false);
    case _ =>
  }

  lemma {:induction false} AllSavedFirst(w: World, actions: seq<Action>, enabled: bool)
    requires Holds(w) && SavedFirst(w)
    ensures SavedFirst(Run(w, actions, enabled))
    decreases |actions|
  {
    hide Holds, SavedFirst, Step;
    if actions != [] {
      StepHolds(w, actions[0], enabled);
      StepSavesFirst(w, actions[0], enabled);
      AllSavedFirst(Step(w, actions[0], enabled), actions[1..], enabled);
    }
  }

  /**
   Whenever a completion is about to be reported, the state file already holds it, so that a crash at any later
   statement leaves it for the next greeting.
   */
  lemma {:induction false} ReportsAreSavedFirst(actions: seq<Action>, enabled: bool, s: int)
    requires var w := Run(PowerOn(), actions, enabled);
             NoRepeats(w.log) && w.agent.place.Sending? && w.agent.place.report == Event(s, Completed)
    ensures var disk := Run(PowerOn(), actions, enabled).agent.disk;
            disk.Some? && disk.value.lastResult == Some(LastResult(s, Completed))
  {
    StartHolds();
    AllSavedFirst(PowerOn(), actions, enabled);
  }
}
