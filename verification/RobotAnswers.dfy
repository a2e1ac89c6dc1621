/** What the robot says of the last command it took, whenever it is asked again. */
module RobotAnswers {
  import opened Outcomes
  import opened Frames
  import opened RobotProgram
  import opened RobotSafety
  import opened RobotTheorems
  import opened RobotRuns

  /** What the log says has last become of the last command taken, or that nothing was taken since the start. */
  function LastOutcome(log: seq<Happening>): int {
    if log == [] then EVENT_IDLE
    else match Last(log)
      case BootedWith(_) => EVENT_IDLE
      case Accepted(_) => EVENT_ACCEPTED
      case Cleared(_) => EVENT_COMPLETED
      case MaintenanceEntered(_) => EVENT_COMPLETED
      case Entered(_) => EVENT_RUNNING
      case Returned(s) => if CleanSoFar(Before(log), s) then EVENT_COMPLETED else EVENT_LATCHED
      case _ => LastOutcome(Before(log))
  }

  /** The acceptance of a command is still to be sent. */
  predicate Accepting(r: Robot) {
    r.main.Publishing? && r.main.next.AfterAccepted?
  }

  /** An accepted command counts as running once its acceptance has been sent. */
  function Answer(log: seq<Happening>, accepting: bool): int {
    if LastOutcome(log) == EVENT_ACCEPTED && !accepting then EVENT_RUNNING else LastOutcome(log)
  }

  /** What each wait of the main loop is for. */
  predicate WaitsFor(r: Robot) {
    match r.main
    case Publishing(sequence, code, next) => (
      match next
      case AfterRejection => code == EVENT_LATCHED && sequence == r.command.sequence != r.lastSequence && sequence > 0
      case AfterUnknown => code == EVENT_LATCHED && r.lastEvent == EVENT_RUNNING
      case AfterAccepted => sequence == r.lastSequence && code == r.lastEvent == EVENT_ACCEPTED
      case AfterRunning => sequence == r.lastSequence && code == r.lastEvent == EVENT_RUNNING
      case _ => sequence == r.lastSequence && code == r.lastEvent)
    case Moving => r.lastEvent == EVENT_RUNNING
    case _ => true
  }

  ghost predicate AnswerHolds(r: Robot, log: seq<Happening>) {
    r.lastEvent == Answer(log, Accepting(r)) && WaitsFor(r)
  }

  // ---------- steps ----------

  /** Happenings that say nothing of a command's outcome. */
  predicate SaysNothing(h: Happening) {
    h.Heard? || h.Silence? || h.LinkLost? || h.Rejected?
  }

  lemma {:induction false} NothingSaid(log: seq<Happening>, h: Happening)
    requires SaysNothing(h)
    ensures LastOutcome(log + [h]) == LastOutcome(log)
  {
    Grow(log, h);
  }

  lemma {:induction false} QuietHeadAnswers(r: Robot, log: seq<Happening>)
    requires r.lastEvent == Answer(log, false) && LoopHead(r).happened == []
    ensures AnswerHolds(LoopHead(r).robot, log)
  {
    hide LastOutcome;
  }

  lemma {:induction false} TakingAnswers(r: Robot, log: seq<Happening>, h: Happening)
    requires r.lastEvent == Answer(log, false) && LoopHead(r).happened == [h]
    ensures AnswerHolds(LoopHead(r).robot, log + [h])
  {
    Grow(log, h);
    hide CleanSoFar;
  }

  lemma {:induction false} HeadAnswers(r: Robot, log: seq<Happening>)
    requires r.lastEvent == Answer(log, false)
    ensures AnswerHolds(LoopHead(r).robot, log + LoopHead(r).happened)
  {
    HeadTakesOne(r);
    hide AnswerHolds, LoopHead, Answer;
    var t := LoopHead(r);
    if t.happened == [] {
      assert log + t.happened == log;
      QuietHeadAnswers(r, log);
    } else {
      TakingAnswers(r, log, t.happened[0]);
    }
  }

  lemma {:induction false} HeadTakesOne(r: Robot)
    ensures LoopHead(r).happened == [] || LoopHead(r).happened == [LoopHead(r).happened[0]]
  {
  }

  lemma {:induction false} DispatchAnswers(r: Robot, log: seq<Happening>, setup: Setup)
    requires r.lastEvent == EVENT_RUNNING == Answer(log, false)
    ensures AnswerHolds(Dispatch(r, setup).robot, log + Dispatch(r, setup).happened)
  {
    hide Known;
    Grow(log, Entered(r.lastSequence));
    assert log + [] == log;
  }

  lemma {:induction false} ResumeAnswers(r: Robot, log: seq<Happening>, setup: Setup)
    requires r.main.Publishing? && AnswerHolds(r, log)
    requires r.main.next.AfterAccepted? ==> r.command.sequence == r.lastSequence
    ensures var t := Resume(r, r.main.next, setup);
            AnswerHolds(t.robot, log + t.happened)
  {
    hide LoopHead, Dispatch, LastOutcome;
    assert log + [] == log;
    match r.main.next
    case AfterAccepted =>
    case AfterRunning => DispatchAnswers(r, log, setup);
    case AfterUnknown => HeadAnswers(r, log);
    case AfterMaintenance => HeadAnswers(ForgetCommand(r).(maintenanceRequested := true), log);
    case _ => HeadAnswers(ForgetCommand(r), log);
  }

  lemma {:induction false} MainAnswers(r: Robot, log: seq<Happening>, setup: Setup)
    requires Good(r, log) && AnswerHolds(r, log)
    ensures AnswerHolds(MainTurn(r, setup).robot, log + MainTurn(r, setup).happened)
  {
    assert log + [] == log;
    InWindowHoldsItsCommand(r, log);
    hide Good, LoopHead, Resume, LastOutcome;
    match r.main
    case Idle => HeadAnswers(r, log);
    case Publishing(_, _, _) => ResumeAnswers(r, log, setup);
    case _ =>
  }

  lemma {:induction false} InWindowHoldsItsCommand(r: Robot, log: seq<Happening>)
    requires Good(r, log)
    ensures Accepting(r) ==> r.command.sequence == r.lastSequence
    ensures r.main.Moving? ==>
              && Running(log) == Some(r.lastSequence) == LastAccepted(log)
              && (r.latched <==> HostileSince(log, r.lastSequence)) && (r.linkLost <==> LostSince(log))
  {
  }

  lemma {:induction false} ReturnAnswers(r: Robot, log: seq<Happening>)
    requires Good(r, log) && AnswerHolds(r, log)
    ensures AnswerHolds(MotionReturns(r).robot, log + MotionReturns(r).happened)
  {
    InWindowHoldsItsCommand(r, log);
    hide Good, HostileSince, LostSince, Running, LastAccepted;
    if r.main.Moving? {
      Grow(log, Returned(r.lastSequence));
    } else {
      assert log + [] == log;
    }
  }

  lemma {:induction false} ReadAnswers(r: Robot, log: seq<Happening>, setup: Setup, words: seq<int>)
    requires AnswerHolds(r, log)
    ensures AnswerHolds(Read(r, setup, words).robot, log + Read(r, setup, words).happened)
  {
    ReadKeepsAnswer(r, setup, words);
    hide Read, LastOutcome;
    var t := Read(r, setup, words);
    if t.happened == [] {
      assert log + t.happened == log;
    } else {
      NothingSaid(log, t.happened[0]);
      NothingSaid(log + [t.happened[0]], LinkLost);
      assert log + [t.happened[0]] == log + t.happened || log + [t.happened[0]] + [LinkLost] == log + t.happened;
    }
  }

  /** Where the read robot waits, and what for, is as before; only an idle robot's command is replaced. */
  lemma {:induction false} ReadKeepsAnswer(r: Robot, setup: Setup, words: seq<int>)
    requires WaitsFor(r)
    ensures var t := Read(r, setup, words);
            && t.robot.main == r.main && t.robot.lastEvent == r.lastEvent && WaitsFor(t.robot)
            && (t.happened == [] || |t.happened| == 1 || (|t.happened| == 2 && t.happened[1] == LinkLost))
            && forall h | h in t.happened :: SaysNothing(h)
  {
    if |words| == 9 {
      FrameKeepsCommand(r, words);
      FrameKeepsLastEvent(r, words);
      hide TakeFrame;
    }
  }

  lemma {:induction false} FrameKeepsLastEvent(r: Robot, words: seq<int>)
    requires |words| == 9
    ensures TakeFrame(r, words).lastEvent == r.lastEvent
  {
    hide GoodFrame;
  }

  lemma {:induction false} StepAnswers(w: World, a: Action, setup: Setup)
    requires Holds(w) && AnswerHolds(w.robot, w.log)
    ensures AnswerHolds(Step(w, a, setup).robot, Step(w, a, setup).log)
  {
    assert w.log + [] == w.log;
    assert Good(w.robot, w.log);
    hide Holds, Good, AllTruthful, MainTurn, MotionReturns, Read, LastOutcome;
    match a
    case MainRuns =>
      MainAnswers(w.robot, w.log, setup);
      hide AnswerHolds;
    case MotionEnds =>
      ReturnAnswers(w.robot, w.log);
      hide AnswerHolds;
    case SocketOpens(ok) =>
    case SocketReads(words) =>
      ReadAnswers(w.robot, w.log, setup, words);
      hide AnswerHolds;
    case Reboot(session, seed) => FirstAnswers(session, seed, w.log);
  }

  lemma {:induction false} FirstAnswers(session: int, seed: int, log: seq<Happening>)
    ensures AnswerHolds(Booted(session, seed), log + [BootedWith(seed)])
  {
    Grow(log, BootedWith(seed));
  }

  lemma {:induction false} RunAnswers(w: World, actions: seq<Action>, setup: Setup)
    requires Holds(w) && AnswerHolds(w.robot, w.log) && AllAllowed(w, actions, setup)
    ensures Holds(Run(w, actions, setup)) && AnswerHolds(Run(w, actions, setup).robot, Run(w, actions, setup).log)
    decreases |actions|
  {
    hide Holds, AnswerHolds, Step, Allowed;
    if actions != [] {
      StepHolds(w, actions[0], setup);
      StepAnswers(w, actions[0], setup);
      RunAnswers(Step(w, actions[0], setup), actions[1..], setup);
    }
  }

  // ---------- the answers ----------

  lemma {:induction false} AnswersAreEvents(log: seq<Happening>, accepting: bool)
    ensures EVENT_ACCEPTED <= Answer(log, accepting) <= EVENT_IDLE
  {
    OutcomesAreEvents(log);
  }

  lemma {:induction false} OutcomesAreEvents(log: seq<Happening>)
    ensures EVENT_ACCEPTED <= LastOutcome(log) <= EVENT_IDLE
  {
    hide CleanSoFar;
    if log != [] {
      OutcomesAreEvents(Before(log));
    }
  }

  /** The main loop is at its head, with a repeat of the last command taken. */
  predicate HoldsRepeat(r: Robot) {
    r.main.Idle? && !r.maintenanceRequested && r.command.sequence == r.lastSequence > 0
  }

  function AnswerEvent(r: Robot, log: seq<Happening>): Message {
    Event(r.session, r.lastSequence, Answer(log, Accepting(r)), r.lastFault, r.lastSequence)
  }

  function Answering(beat: seq<int>): seq<Action> {
    [MainRuns] + Round(beat)
  }

  /**
   In every state reached, a repeat of the last command taken that the main loop finds is answered, with the next frame,
   by an event of that sequence with the outcome the log gives it; nothing is taken or dispatched.
   */
  lemma {:induction false} RepeatIsAnswered(w: World, setup: Setup, beat: seq<int>)
    requires AnswerHolds(w.robot, w.log) && HoldsRepeat(w.robot) && w.robot.connected
    requires IsHeartbeat(beat) && setup.heartbeatMissLimit > 0
    ensures var after := Run(w, Answering(beat), setup);
            && after.sent == w.sent + [AnswerEvent(w.robot, w.log), Telemetry(w.robot.session, w.robot.lastSequence)]
            && after.log == w.log + [Heard(beat)]
            && after.robot.main.Idle? && after.robot.command.sequence == 0 && after.robot.latched == w.robot.latched
            && after.robot.motionActive == w.robot.motionActive && after.robot.lastSequence == w.robot.lastSequence
            && !after.robot.maintenanceRequested
  {
    AnswersAreEvents(w.log, false);
    hide LastOutcome, GoodFrame;
    RunAllMore(w, [MainRuns], Round(beat), setup);
    OneStep(w, MainRuns, setup);
    var asked := Step(w, MainRuns, setup);
    assert asked.robot == Publish(w.robot, w.robot.lastSequence, w.robot.lastEvent, w.robot.lastFault, AfterDuplicate);
    assert asked.log == w.log && asked.sent == w.sent;
    TwoSteps(asked, SocketReads(beat), MainRuns, setup);
    hide Run;
    var told := Step(asked, SocketReads(beat), setup);
    assert told.robot == asked.robot.(missedHeartbeats := 0, sentSequence := w.robot.lastSequence, sentCode := w.robot.lastEvent);
    assert told.sent == w.sent + [AnswerEvent(w.robot, w.log), Telemetry(w.robot.session, w.robot.lastSequence)];
    assert told.log == w.log + [Heard(beat)];
    var done := Step(told, MainRuns, setup);
    assert MainTurn(told.robot, setup) == LoopHead(ForgetCommand(told.robot));
    assert done.log == told.log + [] && done.sent == told.sent + [];
  }

  /** A repeat that arrives while its command is in flight is answered in the same pass, from the log and the place. */
  lemma {:induction false} RepeatInFlightIsAnswered(w: World, setup: Setup, words: seq<int>, c: Command)
    requires AnswerHolds(w.robot, w.log) && w.robot.InFlight() && w.robot.connected && !w.robot.main.Stopped?
    requires Carries(words, c) && c.sequence == w.robot.lastSequence && setup.heartbeatMissLimit > 0
    ensures var after := Step(w, SocketReads(words), setup);
            && after.sent == w.sent + [AnswerEvent(w.robot, w.log), Telemetry(w.robot.session, w.robot.lastSequence)]
            && after.log == w.log + [Heard(words)] && after.robot.latched == w.robot.latched
  {
    AnswersAreEvents(w.log, Accepting(w.robot));
    hide LastOutcome, GoodFrame;
  }

  function Repeating(words: seq<int>, beat: seq<int>): seq<Action> {
    [SocketOpens(true)] + [SocketReads(words)] + Answering(beat)
  }

  /** From any ready state, the frame of the last command, once more, and a heartbeat bring its outcome once more. */
  lemma {:induction false} ReadyAnswersRepeat(w: World, setup: Setup, words: seq<int>, c: Command, beat: seq<int>)
    requires Ready(w.robot) && AnswerHolds(w.robot, w.log) && setup.heartbeatMissLimit > 0
    requires Carries(words, c) && c.sequence == w.robot.lastSequence > 0 && IsHeartbeat(beat)
    ensures var after := Run(w, Repeating(words, beat), setup);
            && Ready(after.robot) && after.robot.lastSequence == c.sequence
            && EnteredIn(after.log) == EnteredIn(w.log) && AcceptedIn(after.log) == AcceptedIn(w.log)
            && |after.sent| >= |w.sent| + 2
            && after.sent[|after.sent| - 2..] == [AnswerEvent(w.robot, w.log), Telemetry(w.robot.session, w.robot.lastSequence)]
  {
    RunAllMore(w, [SocketOpens(true)] + [SocketReads(words)], Answering(beat), setup);
    RunAllMore(w, [SocketOpens(true)], [SocketReads(words)], setup);
    OneStep(w, SocketOpens(true), setup);
    var linked := Step(w, SocketOpens(true), setup);
    OneStep(linked, SocketReads(words), setup);
    var asked := Step(linked, SocketReads(words), setup);
    assert linked.log == w.log + [] == w.log;
    RepeatIsTaken(linked.robot, setup, words, c);
    NotUsed(w.log, Heard(words));
    NothingSaid(w.log, Heard(words));
    hide Run, LastOutcome, GoodFrame, EnteredIn, AcceptedIn;
    assert asked.log == w.log + [Heard(words)];
    assert AnswerHolds(asked.robot, asked.log);
    RepeatIsAnswered(asked, setup, beat);
    NotUsed(asked.log, Heard(beat));
    assert AnswerEvent(asked.robot, asked.log) == AnswerEvent(w.robot, w.log);
  }

  lemma {:induction false} RepeatIsTaken(r: Robot, setup: Setup, words: seq<int>, c: Command)
    requires Ready(r) && r.connected && Carries(words, c) && c.sequence == r.lastSequence > 0 && setup.heartbeatMissLimit > 0
    ensures var t := Read(r, setup, words);
            && HoldsRepeat(t.robot) && t.robot.connected && t.happened == [Heard(words)]
            && Ready(t.robot.(command := r.command)) && t.robot.lastEvent == r.lastEvent && t.robot.lastFault == r.lastFault
            && t.robot.session == r.session && t.robot.lastSequence == r.lastSequence
  {
    hide GoodFrame;
  }

  /** A command that has completed is reported completed a second time when its frame comes again, and is not run again. */
  lemma {:induction false} CompletedIsAnsweredAgain(w: World, setup: Setup, words: seq<int>, c: Command, beat: seq<int>)
    requires Holds(w) && AnswerHolds(w.robot, w.log)
    requires Ready(w.robot) && NextCommand(w.robot, c) && Known(c, setup) && setup.heartbeatMissLimit > 0
    requires Carries(words, c) && IsHeartbeat(beat)
    ensures var once := Run(w, ToCompletion(words, beat), setup);
            var twice := Run(once, Repeating(words, beat), setup);
            && EnteredIn(once.log) == EnteredIn(w.log) + [c.sequence] && EnteredIn(twice.log) == EnteredIn(once.log)
            && |once.sent| >= 2 && once.sent[|once.sent| - 2..] == ToldOf(w.robot.session, c, EVENT_COMPLETED)
            && |twice.sent| >= |once.sent| + 2
            && var again := twice.sent[|twice.sent| - 2];
               again.Event? && again.sequence == c.sequence && again.code == EVENT_COMPLETED
  {
    var once := Run(w, ToCompletion(words, beat), setup);
    CommandCompletes(w, setup, words, c, beat);
    NoRebootAllowed(w, ToCompletion(words, beat), setup);
    RunAnswers(w, ToCompletion(words, beat), setup);
    hide Run, ToCompletion, Repeating, Holds, LastOutcome, EnteredIn, AcceptedIn, Carries;
    ReadyAnswersRepeat(once, setup, words, c, beat);
    var twice := Run(once, Repeating(words, beat), setup);
    assert twice.sent[|twice.sent| - 2] == twice.sent[|twice.sent| - 2..][0];
  }

  lemma {:induction false} NoRebootAllowed(w: World, actions: seq<Action>, setup: Setup)
    requires NoReboot(actions)
    ensures AllAllowed(w, actions, setup)
    decreases |actions|
  {
    hide Step;
    if actions != [] {
      assert actions[0] in actions;
      NoRebootAllowed(Step(w, actions[0], setup), actions[1..], setup);
    }
  }

  /** All of this holds from the first start on. */
  lemma {:induction false} AnswersHoldThroughout(session: int, seed: int, actions: seq<Action>, setup: Setup)
    requires AllAllowed(FirstBoot(session, seed), actions, setup)
    ensures var w := Run(FirstBoot(session, seed), actions, setup);
            Holds(w) && AnswerHolds(w.robot, w.log)
  {
    StartHolds(session, seed);
    FirstAnswers(session, seed, []);
    assert [] + [BootedWith(seed)] == [BootedWith(seed)];
    RunAnswers(FirstBoot(session, seed), actions, setup);
  }

  // ---------- a repeat can silence a rejection ----------

  /** The main loop waits for its rejection to be sent, and another event has taken its place. */
  predicate Stalled(r: Robot) {
    && r.main.Publishing? && r.main.next.AfterRejection? && !r.maintenanceRequested
    && r.main.code == EVENT_LATCHED && r.main.sequence == r.command.sequence > 0
    && r.main.sequence != r.lastSequence == r.pendingSequence
    && (r.sentSequence != r.main.sequence || r.sentCode != EVENT_LATCHED)
  }

  /** A rejected command whose event has not gone out yet is stalled by a repeat of the last command taken. */
  lemma {:induction false} RepeatStallsRejection(r: Robot, setup: Setup, words: seq<int>, c: Command)
    requires r.connected && r.main == Publishing(r.command.sequence, EVENT_LATCHED, AfterRejection) && !r.maintenanceRequested
    requires r.command.sequence > 0 && r.command.sequence != r.lastSequence && r.sentCode == 0
    requires Carries(words, c) && c.sequence == r.lastSequence
    ensures Stalled(Read(r, setup, words).robot)
  {
    hide GoodFrame;
  }

  /** From any ready state: a command out of order, and the last one again before its rejection is sent. */
  lemma {:induction false} RejectionIsLost(w: World, setup: Setup, words: seq<int>, c: Command, repeated: seq<int>,
        last: Command, more: seq<Action>)
    requires Ready(w.robot) && setup.heartbeatMissLimit > 0 && NoReboot(more)
    requires Carries(words, c) && c.sequence > 0 && c.sequence != w.robot.lastSequence && c.sequence != w.robot.lastSequence + 1
    requires Carries(repeated, last) && last.sequence == w.robot.lastSequence
    ensures var after := Run(w, Asking(words) + [SocketReads(repeated)] + more, setup);
            Stalled(after.robot) && AcceptedIn(after.log) == AcceptedIn(w.log) && EnteredIn(after.log) == EnteredIn(w.log)
  {
    RunAllMore(w, Asking(words) + [SocketReads(repeated)], more, setup);
    RunAllMore(w, Asking(words), [SocketReads(repeated)], setup);
    RunAllMore(w, [SocketOpens(true)], [SocketReads(words), MainRuns], setup);
    OneStep(w, SocketOpens(true), setup);
    var linked := Step(w, SocketOpens(true), setup);
    TwoSteps(linked, SocketReads(words), MainRuns, setup);
    var heard := Step(linked, SocketReads(words), setup);
    var rejected := Step(heard, MainRuns, setup);
    OneStep(rejected, SocketReads(repeated), setup);
    var stalled := Step(rejected, SocketReads(repeated), setup);
    assert linked.log == w.log + [] == w.log;
    OutOfOrderIsHeld(linked.robot, setup, words, c);
    HeldIsRejected(heard.robot);
    RepeatStallsRejection(rejected.robot, setup, repeated, last);
    ReadTakesNothing(rejected.robot, setup, repeated);
    NotUsed(w.log, Heard(words));
    NotUsed(heard.log, Rejected(c.sequence));
    hide Run, EnteredIn, AcceptedIn, Read, LoopHead, GoodFrame, Stalled;
    NothingTaken(rejected.log, Read(rejected.robot, setup, repeated).happened);
    assert heard.log == w.log + [Heard(words)] && rejected.log == heard.log + [Rejected(c.sequence)];
    StalledRun(stalled, more, setup);
  }

  lemma {:induction false} OutOfOrderIsHeld(r: Robot, setup: Setup, words: seq<int>, c: Command)
    requires Ready(r) && r.connected && Carries(words, c) && setup.heartbeatMissLimit > 0
    ensures var t := Read(r, setup, words);
            && t.robot.command == c && t.robot.connected && t.robot.main.Idle? && !t.robot.maintenanceRequested
            && t.robot.lastSequence == r.lastSequence && t.happened == [Heard(words)]
  {
    hide GoodFrame;
  }

  lemma {:induction false} HeldIsRejected(r: Robot)
    requires r.main.Idle? && !r.maintenanceRequested
    requires r.command.sequence > 0 && r.command.sequence != r.lastSequence && r.command.sequence != r.lastSequence + 1
    ensures var t := LoopHead(r);
            && t.robot.main == Publishing(r.command.sequence, EVENT_LATCHED, AfterRejection)
            && t.happened == [Rejected(r.command.sequence)]
            && t.robot.sentCode == 0 && t.robot.command == r.command && t.robot.lastSequence == r.lastSequence
            && t.robot.connected == r.connected && !t.robot.maintenanceRequested
  {
  }

  lemma {:induction false} ReadTakesNothing(r: Robot, setup: Setup, words: seq<int>)
    ensures forall h | h in Read(r, setup, words).happened :: Taken(h).None? && !h.Entered?
  {
    hide TakeFrame;
  }

  /** Stalled is for good: short of a restart the rejection is never sent, and no command is taken or dispatched. */
  lemma {:induction false} StalledRun(w: World, more: seq<Action>, setup: Setup)
    requires Stalled(w.robot) && NoReboot(more)
    ensures var after := Run(w, more, setup);
            Stalled(after.robot) && AcceptedIn(after.log) == AcceptedIn(w.log) && EnteredIn(after.log) == EnteredIn(w.log)
    decreases |more|
  {
    hide Stalled, Step, AcceptedIn, EnteredIn;
    if more != [] {
      assert more[0] in more;
      StalledStep(w, more[0], setup);
      StalledRun(Step(w, more[0], setup), more[1..], setup);
    }
  }

  lemma {:induction false} StalledStep(w: World, a: Action, setup: Setup)
    requires Stalled(w.robot) && !a.Reboot?
    ensures var after := Step(w, a, setup);
            Stalled(after.robot) && AcceptedIn(after.log) == AcceptedIn(w.log) && EnteredIn(after.log) == EnteredIn(w.log)
  {
    assert w.log + [] == w.log;
    if a.SocketReads? {
      StalledRead(w.robot, setup, a.words);
      ReadTakesNothing(w.robot, setup, a.words);
      NothingTaken(w.log, Read(w.robot, setup, a.words).happened);
      hide Read, Stalled;
    }
    hide EnteredIn, AcceptedIn;
  }

  lemma {:induction false} StalledFrame(r: Robot, words: seq<int>)
    requires Stalled(r) && |words| == 9
    ensures Stalled(TakeFrame(r, words))
  {
    hide GoodFrame;
  }

  lemma {:induction false} StalledSending(r: Robot)
    requires Stalled(r)
    ensures Stalled(SendPending(r).0)
  {
  }

  lemma {:induction false} StalledCount(r: Robot, missed: nat)
    requires Stalled(r)
    ensures Stalled(r.(missedHeartbeats := missed)) && Stalled(r.(linkLost := true, connected := false))
  {
  }

  lemma {:induction false} StalledRead(r: Robot, setup: Setup, words: seq<int>)
    requires Stalled(r)
    ensures Stalled(Read(r, setup, words).robot)
  {
    hide Stalled, TakeFrame, SendPending;
    if |words| == 9 {
      StalledFrame(r, words);
      StalledSending(TakeFrame(r, words));
      StalledCount(SendPending(TakeFrame(r, words)).0, 0);
    } else {
      StalledCount(r, r.missedHeartbeats + 1);
      StalledCount(r.(missedHeartbeats := r.missedHeartbeats + 1), 0);
    }
  }
}
