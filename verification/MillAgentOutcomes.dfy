/**
 The outcomes the agent reports: under what conditions a sequence never gets two different ones and is never reported
 faulted while its program is active, and how each is broken without them.
 */
module MillAgentOutcomes {
  import opened Outcomes
  import opened MillAgent
  import opened MillAgentSafety
  import opened MillAgentTheorems
  import MillStatus

  /** A report that ends a sequence. */
  predicate IsOutcome(r: Report) {
    r.Event? && r.event in [Completed, Faulted, Latched]
  }

  ghost predicate Spoken(sent: seq<Report>, s: int) {
    exists r | r in sent :: IsOutcome(r) && r.sequence == s
  }

  ghost predicate OneOutcomeEach(sent: seq<Report>) {
    forall r, q | r in sent && q in sent && IsOutcome(r) && IsOutcome(q) && r.sequence == q.sequence :: r == q
  }

  predicate Names(x: Option<Active>, s: int) {
    x.Some? && x.value.sequence == s
  }

  /** The program of `s` is what the agent believes is running, or would believe after a crash. */
  predicate Live(a: Agent, s: int) {
    (!a.place.Down? && Names(a.active, s)) || Names(DiskActive(a), s)
  }

  function DiskActive(a: Agent): Option<Active> {
    if a.disk.Some? then a.disk.value.active else None
  }

  // ---------- the two exceptions that spoil outcomes ----------

  /** An exception within the attempt to start a program. */
  predicate FailsAttempt(a: Agent, action: Action) {
    action.Fail? && (a.place.Saving? || a.place.Sending?) && a.place.section.Attempt?
  }

  /** The outcome of the active program goes out, but with an exception, so that the program is not forgotten. */
  predicate FailsClosing(a: Agent, action: Action) {
    action.Fail? && action.tookEffect && a.place.Sending? && a.place.next.Forgetting?
  }

  predicate Sheltered(w: World, actions: seq<Action>, enabled: bool)
    decreases |actions|
  {
    actions == [] || (
      && !FailsAttempt(w.agent, actions[0]) && !FailsClosing(w.agent, actions[0])
      && Sheltered(Step(w, actions[0], enabled), actions[1..], enabled))
  }

  // ---------- the invariant ----------

  /** The outcome that will be sent from this place. */
  function Pending(p: Place): Option<Report> {
    match p
    case Saving(next, _) => Pending(next)
    case Sending(r, next, _) => if IsOutcome(r) then Some(r) else Pending(next)
    case _ => None
  }

  /** The active program is about to be forgotten. */
  predicate Closing(p: Place) {
    match p
    case Saving(next, _) => Closing(next)
    case Sending(_, next, _) => Closing(next)
    case Forgetting => true
    case _ => false
  }

  /** An outcome is the last thing sent. */
  predicate Shaped(p: Place) {
    match p
    case Saving(next, _) => Shaped(next)
    case Sending(r, next, _) =>
      && Shaped(next) && !next.Saving?
      && (IsOutcome(r) ==> next.Handling? || next.Forgetting?)
      && (Closing(next) ==> next.Forgetting?)
    case _ => true
  }

  /** The sequence was handled, and no outcome of it has been sent. */
  ghost predicate Open(log: seq<Happening>, sent: seq<Report>, s: int) {
    WasHandled(log, s) && !Spoken(sent, s)
  }

  ghost predicate Unfinished(x: Option<Active>, log: seq<Happening>, sent: seq<Report>) {
    x.Some? ==> Open(log, sent, x.value.sequence)
  }

  ghost predicate NotFaulted(x: Option<Active>, log: seq<Happening>, sent: seq<Report>) {
    x.Some? ==> WasHandled(log, x.value.sequence) && Event(x.value.sequence, Faulted) !in sent
  }

  ghost predicate PendingHolds(a: Agent, r: Report, log: seq<Happening>, sent: seq<Report>)
    requires r.Event?
  {
    && Open(log, sent, r.sequence) && !Names(a.state.active, r.sequence)
    && (!a.place.Saving? ==> !Names(DiskActive(a), r.sequence))
    && (Names(a.active, r.sequence) ==> Closing(a.place) && r.event != Faulted)
  }

  ghost predicate AheadOpen(a: Agent, s: int, log: seq<Happening>, sent: seq<Report>) {
    Open(log, sent, s) && !Names(a.active, s) && !Names(a.state.active, s) && !Names(DiskActive(a), s)
  }

  ghost predicate PlaceHolds(a: Agent, log: seq<Happening>, sent: seq<Report>) {
    && Shaped(a.place)
    && (Pending(a.place).Some? ==> Pending(a.place).value.Event? && PendingHolds(a, Pending(a.place).value, log, sent))
    && (Ahead(a.place).Some? ==> Pending(a.place).None? && !Closing(a.place) && AheadOpen(a, Ahead(a.place).value.sequence, log, sent))
  }

  ghost predicate AllSpokenHandled(log: seq<Happening>, sent: seq<Report>) {
    forall s :: Spoken(sent, s) ==> WasHandled(log, s)
  }

  ghost predicate OutcomesHold(a: Agent, log: seq<Happening>, sent: seq<Report>) {
    && OneOutcomeEach(sent) && AllSpokenHandled(log, sent)
    && Unfinished(DiskActive(a), log, sent)
    && (!a.place.Down? ==>
          && Unfinished(a.state.active, log, sent)
          && (if a.place.Forgetting? then NotFaulted(a.active, log, sent) else Unfinished(a.active, log, sent))
          && PlaceHolds(a, log, sent))
  }

  // ---------- longer logs, more sent ----------

  lemma {:induction false} SpeakOne(sent: seq<Report>, r: Report, s: int)
    ensures Spoken(sent + [r], s) <==> Spoken(sent, s) || (IsOutcome(r) && r.sequence == s)
  {
    assert r in sent + [r];
    if q :| q in sent && IsOutcome(q) && q.sequence == s {
      assert q in sent + [r];
    }
  }

  lemma {:induction false} FirstOutcome(sent: seq<Report>, r: Report)
    requires OneOutcomeEach(sent) && (IsOutcome(r) ==> !Spoken(sent, r.sequence))
    ensures OneOutcomeEach(sent + [r])
  {
  }

  lemma {:induction false} OutcomesStay(a: Agent, log: seq<Happening>, sent: seq<Report>, h: Happening)
    requires OutcomesHold(a, log, sent)
    ensures OutcomesHold(a, log + [h], sent)
  {
    forall s
      ensures Open(log, sent, s) ==> Open(log + [h], sent, s)
      ensures WasHandled(log, s) ==> WasHandled(log + [h], s)
    {
      HandledStays(log, h, s);
    }
    hide Open, WasHandled, Spoken, OneOutcomeEach;
  }

  // ---------- steps ----------

  lemma {:induction false} NewSequence(a: Agent, log: seq<Happening>, sent: seq<Report>, s: int, known: Saved)
    requires OutcomesHold(a, log, sent) && a.place.Handling? && NoRepeats(log + [Handled(s, known)])
    ensures AheadOpen(a, s, log + [Handled(s, known)], sent)
  {
    if WasHandled(log, s) {
      RepeatIsNotSilent(log, s, known);
    }
    HandledStays(log, Handled(s, known), s);
    hide WasHandled, Spoken, NoRepeats;
  }

  /** An outcome about to be sent that goes to a sequence with no program. */
  lemma {:induction false} OutcomePends(a: Agent, s: int, e: Name, section: Section, log: seq<Happening>, sent: seq<Report>)
    requires AheadOpen(a, s, log, sent)
    ensures PlaceHolds(a.(place := Sending(Event(s, e), Handling, section)), log, sent)
    ensures PlaceHolds(a.(place := Saving(Sending(Event(s, e), Handling, section), section)), log, sent)
  {
    hide Open;
    var p := Sending(Event(s, e), Handling, section);
    assert Pending(Handling).None? && Ahead(Handling).None? && !Closing(Handling) && Shaped(Handling);
    assert Ahead(p).None? && !Closing(p) && Shaped(p);
  }

  lemma {:induction false} HandleOutcomes(a: Agent, log: seq<Happening>, sent: seq<Report>, c: Command, enabled: bool)
    requires OutcomesHold(a, log, sent) && a.place.Handling? && NoRepeats(log + [Handled(c.sequence, a.state)])
    ensures OutcomesHold(HandleCommand(a, c, enabled), log + [Handled(c.sequence, a.state)], sent)
  {
    var h := Handled(c.sequence, a.state);
    NewSequence(a, log, sent, c.sequence, a.state);
    OutcomesStay(a, log, sent, h);
    hide Open, OneOutcomeEach, AllSpokenHandled, NoRepeats, WasHandled, PlaceHolds;
    if c.sequence <= a.state.lastSequence {
      OutcomePends(a, c.sequence, RepeatReply(a, c.sequence), Loop, log + [h], sent);
    } else if !enabled {
      OutcomePends(HandleCommand(a, c, enabled), c.sequence, Latched, Loop, log + [h], sent);
    } else {
      ChoosingHolds(HandleCommand(a, c, enabled), c, log + [h], sent);
    }
  }

  lemma {:induction false} ChoosingHolds(a: Agent, c: Command, log: seq<Happening>, sent: seq<Report>)
    requires AheadOpen(a, c.sequence, log, sent)
    requires a.place == Saving(Choosing(c), Loop) || a.place == Sending(Event(c.sequence, Accepted), Starting(c), Loop)
    ensures PlaceHolds(a, log, sent)
  {
    hide Open;
    assert Ahead(Choosing(c)) == Some(c) && Ahead(Starting(c)) == Some(c);
    assert Pending(Choosing(c)).None? && !Closing(Choosing(c)) && Pending(Starting(c)).None? && !Closing(Starting(c));
    assert Shaped(Starting(c)) && Shaped(Choosing(c));
  }

  lemma {:induction false} ProbeHolds(a: Agent, s: int, log: seq<Happening>, sent: seq<Report>)
    requires AheadOpen(a, s, log, sent)
    requires a.place == Saving(Sending(Event(s, Accepted), Sending(Event(s, Completed), Handling, Loop), Loop), Loop)
    ensures PlaceHolds(a, log, sent)
  {
    hide Open;
    var p := Sending(Event(s, Completed), Handling, Loop);
    assert Pending(Handling).None? && Ahead(Handling).None? && !Closing(Handling) && Shaped(Handling);
    assert Pending(p) == Some(Event(s, Completed)) && Ahead(p).None? && !Closing(p) && Shaped(p);
    var q := Sending(Event(s, Accepted), p, Loop);
    assert Pending(q) == Some(Event(s, Completed)) && Ahead(q).None? && !Closing(q) && Shaped(q);
  }

  lemma {:induction false} ChooseOutcomes(a: Agent, log: seq<Happening>, sent: seq<Report>, c: Command)
    requires OutcomesHold(a, log, sent) && a.place == Choosing(c)
    ensures OutcomesHold(Choose(a, c).agent, log + Choose(a, c).happened, sent)
  {
    assert log + [] == log && Ahead(a.place) == Some(c);
    OutcomesStay(a, log, sent, Probed(c.sequence));
    OutcomesStay(a, log, sent, Refused(c.sequence));
    hide Open, OneOutcomeEach, AllSpokenHandled;
    var after := Choose(a, c).agent;
    if c.operation.Probe? && a.active.None? {
      ProbeHolds(after, c.sequence, log + [Probed(c.sequence)], sent);
    } else if !c.operation.RunProgram? || a.active.Some? {
      OutcomePends(after, c.sequence, Latched, Loop, log + [Refused(c.sequence)], sent);
    } else {
      ChoosingHolds(after, c, log, sent);
    }
    hide PlaceHolds, AheadOpen;
  }

  lemma {:induction false} RunningHolds(a: Agent, c: Command, log: seq<Happening>, sent: seq<Report>)
    requires a.place == Saving(Sending(Event(c.sequence, Running), Handling, Attempt(c)), Attempt(c))
    ensures PlaceHolds(a, log, sent)
  {
    hide Open;
    var p := Sending(Event(c.sequence, Running), Handling, Attempt(c));
    assert Pending(Handling).None? && Ahead(Handling).None? && !Closing(Handling) && Shaped(Handling);
    assert Pending(p).None? && Ahead(p).None? && !Closing(p) && Shaped(p);
  }

  lemma {:induction false} StartOutcomes(a: Agent, log: seq<Happening>, sent: seq<Report>,
      signature: Option<MillStatus.Signature>, program: Option<string>)
    requires OutcomesHold(a, log, sent) && a.place.Starting?
    ensures var t := StartProgram(a, a.place.command, signature, program);
            OutcomesHold(t.agent, log + t.happened, sent)
  {
    var c := a.place.command;
    var h := Began(c.sequence, c.requireProof, signature, program);
    assert Ahead(a.place) == Some(c);
    OutcomesStay(a, log, sent, h);
    hide Open, OneOutcomeEach, AllSpokenHandled;
    var after := StartProgram(a, c, signature, program).agent;
    if program.None? {
      OutcomePends(after, c.sequence, Faulted, Loop, log + [h], sent);
    } else {
      RunningHolds(after, c, log + [h], sent);
    }
    hide PlaceHolds;
  }

  lemma {:induction false} ConcludeOutcomes(a: Agent, log: seq<Happening>, sent: seq<Report>, file: MillStatus.StatusFile)
    requires OutcomesHold(a, log, sent) && a.active.Some? && a.place.LoopHead?
    ensures OutcomesHold(Conclude(a, a.active.value, file), log + [SawIdle(a.active.value, file)], sent)
  {
    var after := Conclude(a, a.active.value, file);
    OutcomesStay(a, log, sent, SawIdle(a.active.value, file));
    hide Open, OneOutcomeEach, AllSpokenHandled, MillStatus.Judge;
    var p := after.place.next;
    assert p.next.Forgetting? && Pending(p) == Some(p.report) && Ahead(p).None? && Closing(p) && Shaped(p);
    assert Pending(after.place) == Some(p.report) && Ahead(after.place).None? && Closing(after.place) && Shaped(after.place);
  }

  lemma {:induction false} SaveOutcomes(a: Agent, log: seq<Happening>, sent: seq<Report>, next: Place)
    requires OutcomesHold(a, log, sent) && a.place.Saving?
    requires next == a.place.next || Quick(next)
    ensures OutcomesHold(a.(disk := Some(a.state), place := next), log, sent)
  {
    hide Open, OneOutcomeEach, AllSpokenHandled;
    QuickHolds(a.(disk := Some(a.state), place := next), log, sent);
    if next == a.place.next && next.Forgetting? {
      assert Closing(a.place);
      OpenNotFaulted(a, log, sent);
    }
  }

  /** A place with nothing to save or send. */
  predicate Quick(p: Place) {
    p.Disconnected? || p.LoopHead? || p.Receiving? || p.Handling?
  }

  lemma {:induction false} QuickHolds(a: Agent, log: seq<Happening>, sent: seq<Report>)
    ensures Quick(a.place) ==> PlaceHolds(a, log, sent)
  {
  }

  lemma {:induction false} OpenNotFaulted(a: Agent, log: seq<Happening>, sent: seq<Report>)
    requires Unfinished(a.active, log, sent)
    ensures NotFaulted(a.active, log, sent)
  {
    if a.active.Some? {
      assert IsOutcome(Event(a.active.value.sequence, Faulted));
    }
  }

  lemma {:induction false} QuickOutcomes(a: Agent, log: seq<Happening>, sent: seq<Report>, next: Agent)
    requires OutcomesHold(a, log, sent) && !a.place.Down? && Quick(next.place)
    requires next.disk == a.disk && next.state == a.state && (next.active == a.active || next.active.None?)
    requires a.place.Forgetting? ==> next.active.None?
    ensures OutcomesHold(next, log, sent)
  {
    hide Open, OneOutcomeEach, AllSpokenHandled;
    QuickHolds(next, log, sent);
    hide PlaceHolds;
  }

  /** A report goes out, and the agent goes on to `next`, which is what follows it or a place with nothing pending. */
  lemma {:induction false} SendOutcomes(a: Agent, log: seq<Happening>, sent: seq<Report>, after: Agent)
    requires OutcomesHold(a, log, sent) && a.place.Sending?
    requires || after == a.(place := a.place.next)
             || (Quick(after.place) && !a.place.next.Forgetting? && after == a.(queue := after.queue, place := after.place))
    ensures OutcomesHold(after, log, sent + [a.place.report])
  {
    var r, next := a.place.report, a.place.next;
    if IsOutcome(r) {
      OutcomeIsSent(a, log, sent, after);
    } else {
      forall s
        ensures Spoken(sent + [r], s) == Spoken(sent, s)
      {
        SpeakOne(sent, r, s);
      }
      FirstOutcome(sent, r);
      QuickHolds(after, log, sent + [r]);
      hide OneOutcomeEach, Spoken, WasHandled;
      if after.place.Forgetting? {
        OpenNotFaulted(a, log, sent);
      }
    }
  }

  lemma {:induction false} OutcomeIsSent(a: Agent, log: seq<Happening>, sent: seq<Report>, after: Agent)
    requires OutcomesHold(a, log, sent) && a.place.Sending? && IsOutcome(a.place.report)
    requires || after == a.(place := a.place.next)
             || (Quick(after.place) && !a.place.next.Forgetting? && after == a.(queue := after.queue, place := after.place))
    ensures OutcomesHold(after, log, sent + [a.place.report])
  {
    var r, next := a.place.report, a.place.next;
    assert Pending(a.place) == Some(r);
    assert PendingHolds(a, r, log, sent);
    forall s
      ensures Spoken(sent + [r], s) <==> Spoken(sent, s) || s == r.sequence
    {
      SpeakOne(sent, r, s);
    }
    FirstOutcome(sent, r);
    assert Pending(next).None? && Ahead(next).None? && Shaped(next);
    assert Closing(a.place) <==> next.Forgetting?;
    QuickHolds(after, log, sent + [r]);
    OpenNotFaulted(a, log, sent);
    hide OneOutcomeEach, Spoken, WasHandled, IsOutcome;
  }

  lemma {:induction false} ProceedOutcomes(a: Agent, log: seq<Happening>, sent: seq<Report>, enabled: bool)
    requires OutcomesHold(a, log, sent) && NoRepeats(log + ProceedFrom(a, enabled).happened)
    ensures var t := ProceedFrom(a, enabled);
            OutcomesHold(t.agent, log + t.happened, sent + t.sent)
  {
    assert log + [] == log && sent + [] == sent;
    hide OutcomesHold, NoRepeats, HandleCommand, Choose;
    match a.place
    case Saving(next, _) => SaveOutcomes(a, log, sent, next);
    case Sending(report, next, _) => SendOutcomes(a, log, sent, a.(place := next));
    case Forgetting => QuickOutcomes(a, log, sent, a.(active := None, place := Receiving));
    case Handling =>
      if a.queue == [] {
        QuickOutcomes(a, log, sent, a.(place := LoopHead));
      } else {
        assert OutcomesHold(a.(queue := a.queue[1..]), log, sent) by { QuickOutcomes(a, log, sent, a.(queue := a.queue[1..])); }
        HandleOutcomes(a.(queue := a.queue[1..]), log, sent, a.queue[0], enabled);
      }
    case Choosing(c) => ChooseOutcomes(a, log, sent, c);
    case _ =>
  }

  lemma {:induction false} FailOutcomes(a: Agent, log: seq<Happening>, sent: seq<Report>, action: Action)
    requires OutcomesHold(a, log, sent) && action.Fail? && !FailsAttempt(a, action) && !FailsClosing(a, action)
    ensures var t := FailAt(a, action.timedOut, action.tookEffect);
            t.happened == [] && OutcomesHold(t.agent, log, sent + t.sent)
  {
    assert sent + [] == sent;
    hide OutcomesHold;
    var after := FailAt(a, action.timedOut, action.tookEffect).agent;
    match a.place
    case Saving(_, section) =>
      if action.tookEffect {
        SaveOutcomes(a, log, sent, after.place);
        QuickOutcomes(a.(disk := Some(a.state), place := after.place), log, sent, after);
      } else {
        QuickOutcomes(a, log, sent, after);
      }
    case Sending(_, _, section) =>
      if action.tookEffect {
        SendOutcomes(a, log, sent, after);
      } else {
        QuickOutcomes(a, log, sent, after);
      }
    case LoopHead => QuickOutcomes(a, log, sent, after);
    case Receiving => QuickOutcomes(a, log, sent, after);
    case Handling => QuickOutcomes(a, log, sent, after);
    case _ =>
  }

  lemma {:induction false} BootOutcomes(a: Agent, log: seq<Happening>, sent: seq<Report>)
    requires OutcomesHold(a, log, sent)
    ensures a.place.Down? ==> OutcomesHold(Booted(a), log, sent)
    ensures OutcomesHold(a.(place := Down), log, sent)
  {
    hide Open, OneOutcomeEach, AllSpokenHandled;
    QuickHolds(Booted(a), log, sent);
    hide PlaceHolds;
  }

  lemma {:induction false} ConnectOutcomes(a: Agent, log: seq<Happening>, sent: seq<Report>)
    requires OutcomesHold(a, log, sent) && a.place.Disconnected?
    ensures OutcomesHold(a.(place := Sending(Hello(a.state.lastSequence, a.state.lastResult), LoopHead, Outside)), log, sent)
  {
    hide Open, OneOutcomeEach, AllSpokenHandled;
    assert Pending(LoopHead).None? && Ahead(LoopHead).None? && !Closing(LoopHead) && Shaped(LoopHead);
  }

  lemma {:induction false} ActOutcomes(a: Agent, log: seq<Happening>, sent: seq<Report>, action: Action, enabled: bool)
    requires OutcomesHold(a, log, sent) && !FailsAttempt(a, action) && !FailsClosing(a, action)
    requires NoRepeats(log + Act(a, action, enabled).happened)
    ensures var t := Act(a, action, enabled);
            OutcomesHold(t.agent, log + t.happened, sent + t.sent)
  {
    assert log + [] == log && sent + [] == sent;
    hide OutcomesHold, NoRepeats, Booted, ProceedFrom, FailAt, StartProgram, Conclude;
    match action
    case Boot => BootOutcomes(a, log, sent);
    case Crash => BootOutcomes(a, log, sent);
    case Connect(ok) =>
      if a.place.Disconnected? && ok {
        ConnectOutcomes(a, log, sent);
      }
    case Look(idle, file) =>
      if a.place.LoopHead? {
        if a.active.Some? && idle {
          ConcludeOutcomes(a, log, sent, file);
        } else {
          QuickOutcomes(a, log, sent, a.(place := Receiving));
        }
      }
    case Receive(commands) =>
      if a.place.Receiving? {
        QuickOutcomes(a, log, sent, Act(a, action, enabled).agent);
      }
    case Proceed => ProceedOutcomes(a, log, sent, enabled);
    case Fail(timedOut, tookEffect) => FailOutcomes(a, log, sent, action);
    case Start(signature, program) =>
      if a.place.Starting? {
        StartOutcomes(a, log, sent, signature, program);
      }
  }

  lemma {:induction false} RunOutcomes(w: World, actions: seq<Action>, enabled: bool)
    requires OutcomesHold(w.agent, w.log, w.sent) && Sheltered(w, actions, enabled) && NoRepeats(Run(w, actions, enabled).log)
    ensures var after := Run(w, actions, enabled);
            OutcomesHold(after.agent, after.log, after.sent)
    decreases |actions|
  {
    hide OutcomesHold, Act, NoRepeats, FailsAttempt, FailsClosing;
    if actions != [] {
      var next := Step(w, actions[0], enabled);
      RunOnlyAdds(next, actions[1..], enabled);
      ActOutcomes(w.agent, w.log, w.sent, actions[0], enabled);
      RunOutcomes(next, actions[1..], enabled);
    }
  }

  lemma {:induction false} RunOnlyAdds(w: World, actions: seq<Action>, enabled: bool)
    requires NoRepeats(Run(w, actions, enabled).log)
    ensures NoRepeats(w.log)
    decreases |actions|
  {
    hide Act, NoRepeats;
    if actions != [] {
      RunOnlyAdds(Step(w, actions[0], enabled), actions[1..], enabled);
      FewerRepeats(w.log, Act(w.agent, actions[0], enabled).happened);
    }
  }

  // ---------- the theorem ----------

  /**
   Whatever crashes and other exceptions there are: if no sequence is repeated and neither of the two exceptions occurs,
   no sequence is ever reported with two different outcomes, and none that has been reported faulted is active.
   */
  lemma {:induction false} OutcomesAreUnique(actions: seq<Action>, enabled: bool)
    requires Sheltered(PowerOn(), actions, enabled) && NoRepeats(Run(PowerOn(), actions, enabled).log)
    ensures var w := Run(PowerOn(), actions, enabled);
            && OneOutcomeEach(w.sent)
            && forall s | Event(s, Faulted) in w.sent :: !Live(w.agent, s)
  {
    RunOutcomes(PowerOn(), actions, enabled);
    var w := Run(PowerOn(), actions, enabled);
    forall s | Event(s, Faulted) in w.sent
      ensures !Live(w.agent, s)
    {
      assert Spoken(w.sent, s) by { assert IsOutcome(Event(s, Faulted)); }
      hide Spoken, WasHandled, OneOutcomeEach, PlaceHolds;
    }
  }

  // ---------- without its conditions ----------

  /** Attempts ahead are of the active program, and so is the outcome sent before it is forgotten. */
  predicate OfProgram(p: Place, x: Option<Active>) {
    match p
    case Saving(next, section) => (section.Attempt? ==> Names(x, section.command.sequence)) && OfProgram(next, x)
    case Sending(r, next, section) =>
      && (section.Attempt? ==> Names(x, section.command.sequence)) && OfProgram(next, x)
      && (next.Forgetting? ==> section.Outside? && r.Event? && Names(x, r.sequence))
    case _ => true
  }

  lemma {:induction false} PlainOfProgram(r: Report, q: Report, section: Section, x: Option<Active>)
    requires section.Attempt? ==> Names(x, section.command.sequence)
    ensures OfProgram(Sending(r, Handling, section), x) && OfProgram(Saving(Sending(r, Handling, section), section), x)
    ensures OfProgram(Saving(Sending(q, Sending(r, Handling, section), section), section), x)
  {
    assert OfProgram(Handling, x);
    var p := Sending(r, Handling, section);
    assert OfProgram(p, x);
    assert OfProgram(Sending(q, p, section), x);
  }

  lemma {:induction false} HandleOfProgram(a: Agent, c: Command, enabled: bool)
    requires a.place.Handling?
    ensures HandleCommand(a, c, enabled).active == a.active
    ensures OfProgram(HandleCommand(a, c, enabled).place, a.active)
  {
    PlainOfProgram(Event(c.sequence, Latched), Event(c.sequence, Latched), Loop, a.active);
    PlainOfProgram(Event(c.sequence, RepeatReply(a, c.sequence)), Event(c.sequence, Latched), Loop, a.active);
    assert OfProgram(Choosing(c), a.active);
  }

  lemma {:induction false} ChooseOfProgram(a: Agent, c: Command)
    ensures Choose(a, c).agent.active == a.active
    ensures OfProgram(Choose(a, c).agent.place, a.active)
  {
    PlainOfProgram(Event(c.sequence, Completed), Event(c.sequence, Accepted), Loop, a.active);
    PlainOfProgram(Event(c.sequence, Latched), Event(c.sequence, Latched), Loop, a.active);
    assert OfProgram(Starting(c), a.active);
  }

  lemma {:induction false} RaiseOfProgram(a: Agent, section: Section, timedOut: bool)
    ensures Raise(a, section, timedOut).active == a.active
    ensures OfProgram(Raise(a, section, timedOut).place, a.active)
  {
    if section.Attempt? {
      PlainOfProgram(Event(section.command.sequence, Faulted), Event(0, Faulted), Loop, a.active);
    }
  }

  lemma {:induction false} StartOfProgram(a: Agent, c: Command, signature: Option<MillStatus.Signature>,
        program: Option<string>)
    ensures var after := StartProgram(a, c, signature, program).agent;
            OfProgram(after.place, after.active)
  {
    var after := StartProgram(a, c, signature, program).agent;
    PlainOfProgram(Event(c.sequence, Faulted), Event(0, Faulted), Loop, after.active);
    if program.Some? {
      PlainOfProgram(Event(c.sequence, Running), Event(0, Faulted), Attempt(c), after.active);
    }
  }

  lemma {:induction false} LookOfProgram(a: Agent, idle: bool, file: MillStatus.StatusFile)
    ensures LookAtMachine(a, idle, file).agent.active == a.active
    ensures OfProgram(LookAtMachine(a, idle, file).agent.place, a.active)
  {
    hide MillStatus.Judge;
    if a.active.Some? && idle {
      var p := Conclude(a, a.active.value, file).place.next;
      assert p.next.Forgetting? && OfProgram(p.next, a.active) && OfProgram(p, a.active);
    }
  }

  lemma {:induction false} ProceedOfProgram(a: Agent, enabled: bool)
    requires OfProgram(a.place, a.active)
    ensures var after := ProceedFrom(a, enabled).agent;
            OfProgram(after.place, after.active)
  {
    hide HandleCommand, Choose;
    match a.place
    case Handling =>
      if a.queue != [] {
        HandleOfProgram(a.(queue := a.queue[1..]), a.queue[0], enabled);
      }
    case Choosing(c) => ChooseOfProgram(a, c);
    case _ =>
  }

  lemma {:induction false} FailOfProgram(a: Agent, timedOut: bool, tookEffect: bool)
    requires OfProgram(a.place, a.active)
    ensures var after := FailAt(a, timedOut, tookEffect).agent;
            OfProgram(after.place, after.active)
  {
    hide Raise;
    match a.place
    case Saving(_, section) => RaiseOfProgram(if tookEffect then a.(disk := Some(a.state)) else a, section, timedOut);
    case Sending(_, _, section) => RaiseOfProgram(a, section, timedOut);
    case LoopHead => RaiseOfProgram(a, Outside, timedOut);
    case Receiving => RaiseOfProgram(a, Loop, timedOut);
    case Handling => RaiseOfProgram(a, Loop, false);
    case _ =>
  }

  lemma {:induction false} StepOfProgram(a: Agent, action: Action, enabled: bool)
    requires OfProgram(a.place, a.active)
    ensures var after := Act(a, action, enabled).agent;
            OfProgram(after.place, after.active)
  {
    hide ProceedFrom, FailAt, StartProgram, LookAtMachine;
    match action
    case Proceed => ProceedOfProgram(a, enabled);
    case Fail(timedOut, tookEffect) => FailOfProgram(a, timedOut, tookEffect);
    case Start(signature, program) =>
      if a.place.Starting? {
        StartOfProgram(a, a.place.command, signature, program);
      }
    case Look(idle, file) => LookOfProgram(a, idle, file);
    case Connect(_) => assert OfProgram(LoopHead, a.active);
    case _ =>
  }

  lemma {:induction false} RunOfProgram(w: World, actions: seq<Action>, enabled: bool)
    requires OfProgram(w.agent.place, w.agent.active)
    ensures var after := Run(w, actions, enabled).agent;
            OfProgram(after.place, after.active)
    decreases |actions|
  {
    hide OfProgram, Act;
    if actions != [] {
      StepOfProgram(w.agent, actions[0], enabled);
      RunOfProgram(Step(w, actions[0], enabled), actions[1..], enabled);
    }
  }

  lemma {:induction false} OneStep(w: World, action: Action, enabled: bool)
    ensures Run(w, [action], enabled) == Step(w, action, enabled)
  {
    hide Step;
    assert [action][1..] == [];
    assert Run(Step(w, action, enabled), [], enabled) == Step(w, action, enabled);
  }

  lemma {:induction false} ThreeSteps(w: World, first: Action, second: Action, third: Action, enabled: bool)
    ensures Run(w, [first, second, third], enabled) == Step(Step(Step(w, first, enabled), second, enabled), third, enabled)
  {
    hide Step;
    assert [first, second, third][1..] == [second, third] && [second, third][1..] == [third];
    OneStep(Step(Step(w, first, enabled), second, enabled), third, enabled);
  }

  lemma {:induction false} FaultIsNext(w: World, timedOut: bool, tookEffect: bool, enabled: bool)
    requires FailsAttempt(w.agent, Fail(timedOut, tookEffect))
    ensures var after := Step(w, Fail(timedOut, tookEffect), enabled);
            && after.agent.place == Saving(Sending(Event(w.agent.place.section.command.sequence, Faulted), Handling, Loop), Loop)
            && after.agent.active == w.agent.active
  {
  }

  lemma {:induction false} SavedThenSent(w: World, r: Report, next: Place, section: Section, enabled: bool)
    requires w.agent.place == Saving(Sending(r, next, section), section)
    ensures var after := Step(Step(w, Proceed, enabled), Proceed, enabled);
            after.sent == w.sent + [r] && after.agent.active == w.agent.active && after.agent.place == next
  {
    assert w.sent + [] == w.sent;
  }

  /** An exception within any attempt, in any reachable state, has the live program reported faulted. */
  lemma {:induction false} FailedAttemptFaultsALiveProgram(actions: seq<Action>, enabled: bool, timedOut: bool,
        tookEffect: bool)
    requires FailsAttempt(Run(PowerOn(), actions, enabled).agent, Fail(timedOut, tookEffect))
    ensures var w := Run(PowerOn(), actions, enabled);
            var s, after := w.agent.place.section.command.sequence, Run(w, [Fail(timedOut, tookEffect), Proceed, Proceed], enabled);
            Event(s, Faulted) in after.sent && Live(after.agent, s)
  {
    var w := Run(PowerOn(), actions, enabled);
    var s := w.agent.place.section.command.sequence;
    RunOfProgram(PowerOn(), actions, enabled);
    assert Names(w.agent.active, s);
    ThreeSteps(w, Fail(timedOut, tookEffect), Proceed, Proceed, enabled);
    hide Run, OfProgram, Step;
    FaultIsNext(w, timedOut, tookEffect, enabled);
    SavedThenSent(Step(w, Fail(timedOut, tookEffect), enabled), Event(s, Faulted), Handling, Loop, enabled);
  }

  /** A completion that goes out with an exception, in any reachable state, can be followed by the opposite outcome. */
  lemma {:induction false} FailedClosingReportsTwice(actions: seq<Action>, enabled: bool, timedOut: bool)
    requires var a := Run(PowerOn(), actions, enabled).agent;
             && FailsClosing(a, Fail(timedOut, true)) && a.active.Some? && a.active.value.requireProof
             && a.place.report == Event(a.active.value.sequence, Completed)
    ensures var w := Run(PowerOn(), actions, enabled);
            var s := w.agent.active.value.sequence;
            var actions := [Fail(timedOut, true), Connect(true), Proceed] + [Look(true, MillStatus.Absent), Proceed, Proceed];
            var after := Run(w, actions, enabled);
            Event(s, Completed) in after.sent && Event(s, Latched) in after.sent
  {
    var w := Run(PowerOn(), actions, enabled);
    var s := w.agent.active.value.sequence;
    RunOfProgram(PowerOn(), actions, enabled);
    assert w.agent.place.section.Outside?;
    var reconnects, looks := [Fail(timedOut, true), Connect(true), Proceed], [Look(true, MillStatus.Absent), Proceed, Proceed];
    RunBoth(w, reconnects, looks, enabled);
    var again := Run(w, reconnects, enabled);
    ThreeSteps(w, reconnects[0], reconnects[1], reconnects[2], enabled);
    ThreeSteps(again, looks[0], looks[1], looks[2], enabled);
    hide Run, OfProgram;
    var failed := Step(w, Fail(timedOut, true), enabled);
    assert failed.agent.place.Disconnected? && failed.agent.active == w.agent.active && Event(s, Completed) in failed.sent;
    assert again.agent.place.LoopHead? && again.agent.active == w.agent.active && Event(s, Completed) in again.sent;
    var looked := Step(again, Look(true, MillStatus.Absent), enabled);
    assert looked.agent.place == Saving(Sending(Event(s, Latched), Forgetting, Outside), Outside) && looked.sent == again.sent + [];
    SavedThenSent(looked, Event(s, Latched), Forgetting, Outside, enabled);
  }

  lemma {:induction false} RunBoth(w: World, actions: seq<Action>, more: seq<Action>, enabled: bool)
    ensures Run(w, actions + more, enabled) == Run(Run(w, actions, enabled), more, enabled)
    decreases |actions|
  {
    hide Step;
    if actions == [] {
      assert actions + more == more;
    } else {
      assert (actions + more)[1..] == actions[1..] + more;
      RunBoth(Step(w, actions[0], enabled), actions[1..], more, enabled);
    }
  }

  /** A repeat of an earlier sequence, in any state, is reported latched, whatever that sequence came to. */
  lemma {:induction false} StaleRepeatIsLatched(w: World, enabled: bool)
    requires w.agent.place.Handling? && w.agent.queue != [] && w.agent.queue[0].sequence < w.agent.state.lastSequence
    ensures Run(w, [Proceed] + [Proceed], enabled).sent == w.sent + [Event(w.agent.queue[0].sequence, Latched)]
  {
    RunBoth(w, [Proceed], [Proceed], enabled);
    OneStep(w, Proceed, enabled);
    var handled := Step(w, Proceed, enabled);
    OneStep(handled, Proceed, enabled);
    assert w.sent + [] == w.sent;
  }

  const PROGRAM_1 := Command(1, RunProgram, false)

  /** Program 1 has been received. */
  lemma {:induction false} ProgramReceived() returns (actions: seq<Action>, w: World)
    ensures Run(PowerOn(), actions, true) == w && w.log == []
    ensures w.agent == Agent(None, Unused(), None, [PROGRAM_1], Handling)
  {
    actions, w := [], PowerOn();
    actions, w := Then(actions, w, Boot);
    actions, w := Then(actions, w, Connect(true));
    actions, w := Then(actions, w, Proceed);
    actions, w := Then(actions, w, Look(false, MillStatus.Absent));
    actions, w := Then(actions, w, Receive(Some([PROGRAM_1])));
  }

  lemma {:induction false} ProgramAccepted() returns (actions: seq<Action>, w: World)
    ensures Run(PowerOn(), actions, true) == w && w.log == [Handled(1, Unused())]
    ensures w.agent == Agent(Some(Saved(1, None, None)), Saved(1, None, None), None, [],
                             Sending(Event(1, Accepted), Starting(PROGRAM_1), Loop))
  {
    actions, w := ProgramReceived();
    actions, w := Then(actions, w, Proceed);
    assert w.agent.place == Saving(Choosing(PROGRAM_1), Loop) && w.log == [Handled(1, Unused())];
    actions, w := Then(actions, w, Proceed);
    actions, w := Then(actions, w, Proceed);
  }

  /** Program 1 has been started, and its running message is next. */
  lemma {:induction false} ProgramStarted() returns (actions: seq<Action>, w: World)
    ensures Run(PowerOn(), actions, true) == w && w.log == [Handled(1, Unused()), Began(1, false, None, Some("part.ngc"))]
    ensures w.agent.place == Sending(Event(1, Running), Handling, Attempt(PROGRAM_1)) && w.agent.queue == []
    ensures w.agent.active == Some(Active(1, "part.ngc", None, false))
  {
    actions, w := ProgramAccepted();
    actions, w := Then(actions, w, Proceed);
    actions, w := Then(actions, w, Start(None, Some("part.ngc")));
    actions, w := Then(actions, w, Proceed);
  }

  /** Its running message has failed, and it has been reported faulted. */
  lemma {:induction false} ProgramFaulted() returns (actions: seq<Action>, w: World)
    ensures Run(PowerOn(), actions, true) == w
    ensures w.log == [Handled(1, Unused()), Began(1, false, None, Some("part.ngc")), StartFailed(1)]
    ensures Event(1, Faulted) in w.sent && w.agent.place == Handling && w.agent.queue == []
    ensures w.agent.active == Some(Active(1, "part.ngc", None, false))
  {
    actions, w := ProgramStarted();
    actions, w := Then(actions, w, Fail(false, false));
    var log := w.log;
    actions, w := Then(actions, w, Proceed);
    assert w.agent.place == Sending(Event(1, Faulted), Handling, Loop) && w.log == log;
    actions, w := Then(actions, w, Proceed);
    assert w.sent[|w.sent| - 1] == Event(1, Faulted);
  }

  /** The program is seen idle and, with no proof required, reported completed. */
  lemma {:induction false} ThenCompleted(w: World)
    requires w.agent.place == Handling && w.agent.queue == [] && w.agent.active == Some(Active(1, "part.ngc", None, false))
    ensures var after := Run(w, [Proceed, Look(true, MillStatus.Absent), Proceed] + [Proceed], true);
            && Event(1, Completed) in after.sent
            && after.log == w.log + [SawIdle(Active(1, "part.ngc", None, false), MillStatus.Absent)]
  {
    var look := Look(true, MillStatus.Absent);
    RunBoth(w, [Proceed, look, Proceed], [Proceed], true);
    ThreeSteps(w, Proceed, look, Proceed, true);
    var saved := Run(w, [Proceed, look, Proceed], true);
    OneStep(saved, Proceed, true);
    hide Run;
    var watching := Step(w, Proceed, true);
    assert watching.agent.place == LoopHead && watching.log == w.log + [];
    var looked := Step(watching, look, true);
    assert looked.agent.place == Saving(Sending(Event(1, Completed), Forgetting, Outside), Outside);
    assert saved.agent.place == Sending(Event(1, Completed), Forgetting, Outside) && saved.log == looked.log + [];
    assert Step(saved, Proceed, true).sent == saved.sent + [Event(1, Completed)];
  }

  /** A run in which program 1 is reported faulted while it is active, and completed later on. */
  lemma {:induction false} FaultedThenCompleted() returns (early: seq<Action>, late: seq<Action>)
    ensures var w := Run(PowerOn(), early, true);
            Event(1, Faulted) in w.sent && Live(w.agent, 1)
    ensures Event(1, Completed) in Run(PowerOn(), early + late, true).sent
    ensures NoRepeats(Run(PowerOn(), early + late, true).log)
  {
    var w: World;
    early, w := ProgramFaulted();
    late := [Proceed, Look(true, MillStatus.Absent), Proceed] + [Proceed];
    RunBoth(PowerOn(), early, late, true);
    ThenCompleted(w);
    hide Run;
  }
}
