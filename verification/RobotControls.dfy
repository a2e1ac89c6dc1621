/** The rest of what the robot reports, and when: control commands, rejections, and motions that were disturbed. */
module RobotControls {
  import opened Outcomes
  import opened Frames
  import opened RobotProgram
  import opened RobotSafety
  import opened RobotTheorems
  import opened RobotRuns

  /** Nothing in flight; the latch may be set. */
  predicate Resting(r: Robot) {
    r.main.Idle? && !r.motionActive && !r.maintenanceRequested && r.command.sequence <= 0 <= r.lastSequence
  }

  /** The frame of `c` has been taken by a robot that was `r`. */
  predicate Took(before: Robot, r: Robot, c: Command) {
    && r.main.Idle? && r.connected && !r.maintenanceRequested && !r.motionActive && r.command == c
    && r.latched == before.latched && r.lastSequence == before.lastSequence && r.session == before.session
    && r.missedHeartbeats == 0
  }

  lemma {:induction false} RestingTakes(r: Robot, setup: Setup, words: seq<int>, c: Command)
    requires Resting(r) && r.connected && Carries(words, c) && setup.heartbeatMissLimit > 0
    ensures Took(r, Read(r, setup, words).robot, c) && Read(r, setup, words).happened == [Heard(words)]
  {
    hide GoodFrame;
  }

  lemma {:induction false} RestingAsked(w: World, setup: Setup, words: seq<int>, c: Command) returns (taken: World)
    requires Resting(w.robot) && Carries(words, c) && setup.heartbeatMissLimit > 0
    ensures Took(w.robot, taken.robot, c) && taken.log == w.log + [Heard(words)]
    ensures Run(w, Asking(words), setup) == Step(taken, MainRuns, setup)
  {
    RunAllMore(w, [SocketOpens(true)], [SocketReads(words), MainRuns], setup);
    OneStep(w, SocketOpens(true), setup);
    var linked := Step(w, SocketOpens(true), setup);
    TwoSteps(linked, SocketReads(words), MainRuns, setup);
    taken := Step(linked, SocketReads(words), setup);
    hide Run, GoodFrame;
    assert linked.robot == w.robot.(connected := true, missedHeartbeats := linked.robot.missedHeartbeats);
    assert linked.log == w.log + [] == w.log;
    RestingTakes(linked.robot, setup, words, c);
  }

  // ---------- control commands ----------

  lemma {:induction false} ControlIsTaken(r: Robot, before: Robot, c: Command)
    requires Took(before, r, c) && c.sequence == r.lastSequence + 1 > 0
    requires c.opcode == OP_CLEAR_LATCH || c.opcode == OP_ENTER_MAINTENANCE
    ensures var t := LoopHead(r);
            && t.sent == [] && t.robot.lastSequence == c.sequence && t.robot.session == r.session && !t.robot.motionActive
            && t.robot.lastEvent == EVENT_COMPLETED && t.robot.command == c
            && if c.opcode == OP_CLEAR_LATCH then
                 && Awaits(t.robot, c.sequence, EVENT_COMPLETED, 0, AfterClear) && t.happened == [Cleared(c.sequence)]
                 && !t.robot.latched && !t.robot.linkLost && t.robot.lastFault == 0
               else
                 && Awaits(t.robot, c.sequence, EVENT_COMPLETED, 0, AfterMaintenance)
                 && t.happened == [MaintenanceEntered(c.sequence)]
                 && t.robot.latched == r.latched
  {
  }

  lemma {:induction false} TakenNext(log: seq<Happening>, h: Happening, s: int)
    requires h == Cleared(s) || h == MaintenanceEntered(s)
    ensures EnteredIn(log + [h]) == EnteredIn(log) && AcceptedIn(log + [h]) == AcceptedIn(log) + [s]
  {
    Grow(log, h);
    assert EnteredIn(log) + [] == EnteredIn(log);
  }

  /** The next command in order, if it is a clear-latch, clears the latch and is reported completed; the robot is ready. */
  lemma {:induction false} ClearLatchRecovers(w: World, setup: Setup, words: seq<int>, c: Command, beat: seq<int>)
    requires Resting(w.robot) && Carries(words, c) && c.opcode == OP_CLEAR_LATCH && c.sequence == w.robot.lastSequence + 1
    requires IsHeartbeat(beat) && setup.heartbeatMissLimit > 0
    ensures var after := Run(w, Asking(words) + Round(beat), setup);
            && Ready(after.robot) && !after.robot.linkLost && after.robot.lastFault == 0
            && after.robot.lastSequence == c.sequence
            && after.sent == Run(w, Asking(words), setup).sent + ToldOf(w.robot.session, c, EVENT_COMPLETED)
            && AcceptedIn(after.log) == AcceptedIn(w.log) + [c.sequence] && EnteredIn(after.log) == EnteredIn(w.log)
  {
    RunAllMore(w, Asking(words), Round(beat), setup);
    var taken := RestingAsked(w, setup, words, c);
    var asked := Step(taken, MainRuns, setup);
    ControlIsTaken(taken.robot, w.robot, c);
    NotUsed(w.log, Heard(words));
    TakenNext(taken.log, Cleared(c.sequence), c.sequence);
    NotUsed(asked.log, Heard(beat));
    RoundGoesOn(asked, setup, beat, c.sequence, EVENT_COMPLETED, 0, AfterClear);
    hide Run, GoodFrame, EnteredIn, AcceptedIn;
    assert Resume(Announced(asked.robot, beat), AfterClear, setup).happened == [];
    assert asked.log + [Heard(beat)] + [] == asked.log + [Heard(beat)];
  }

  /** The next command in order, if it asks for maintenance, is reported completed and stops the program. */
  lemma {:induction false} MaintenanceStops(w: World, setup: Setup, words: seq<int>, c: Command, beat: seq<int>)
    requires Resting(w.robot) && Carries(words, c) && c.opcode == OP_ENTER_MAINTENANCE && c.sequence == w.robot.lastSequence + 1
    requires IsHeartbeat(beat) && setup.heartbeatMissLimit > 0
    ensures var after := Run(w, Asking(words) + Round(beat), setup);
            && after.robot.main.Stopped? && after.robot.lastSequence == c.sequence
            && after.sent == Run(w, Asking(words), setup).sent + ToldOf(w.robot.session, c, EVENT_COMPLETED)
            && AcceptedIn(after.log) == AcceptedIn(w.log) + [c.sequence] && EnteredIn(after.log) == EnteredIn(w.log)
  {
    RunAllMore(w, Asking(words), Round(beat), setup);
    var taken := RestingAsked(w, setup, words, c);
    var asked := Step(taken, MainRuns, setup);
    ControlIsTaken(taken.robot, w.robot, c);
    NotUsed(w.log, Heard(words));
    TakenNext(taken.log, MaintenanceEntered(c.sequence), c.sequence);
    NotUsed(asked.log, Heard(beat));
    RoundGoesOn(asked, setup, beat, c.sequence, EVENT_COMPLETED, 0, AfterMaintenance);
    hide Run, GoodFrame, EnteredIn, AcceptedIn;
    assert Resume(Announced(asked.robot, beat), AfterMaintenance, setup).happened == [];
    assert asked.log + [Heard(beat)] + [] == asked.log + [Heard(beat)];
  }

  /** A stopped program does nothing more. */
  lemma {:induction false} StoppedForGood(w: World, a: Action, setup: Setup)
    requires w.robot.main.Stopped? && !a.Reboot?
    ensures Step(w, a, setup) == w
  {
    assert w.log + [] == w.log && w.sent + [] == w.sent;
  }

  // ---------- rejections ----------

  /** The program does not take this command: it is out of order, or latched out. */
  predicate Refused(r: Robot, c: Command) {
    && c.sequence > 0 && c.sequence != r.lastSequence
    && (c.sequence != r.lastSequence + 1 || (r.latched && c.opcode != OP_CLEAR_LATCH && c.opcode != OP_ENTER_MAINTENANCE))
  }

  lemma {:induction false} RefusedIsRejected(r: Robot, before: Robot, c: Command)
    requires Took(before, r, c) && Refused(r, c)
    ensures var t := LoopHead(r);
            && t.sent == [] && t.happened == [Rejected(c.sequence)] && t.robot.latched && !t.robot.motionActive
            && t.robot.lastSequence == r.lastSequence && t.robot.session == r.session && t.robot.command == c
            && Awaits(t.robot, c.sequence, EVENT_LATCHED, FAULT_REJECTED, AfterRejection)
  {
  }

  /** A command out of order, or a motion for a latched robot, is reported latched with fault 103, and is not taken. */
  lemma {:induction false} RefusedIsReported(w: World, setup: Setup, words: seq<int>, c: Command, beat: seq<int>)
    requires Resting(w.robot) && Carries(words, c) && Refused(w.robot, c)
    requires IsHeartbeat(beat) && setup.heartbeatMissLimit > 0
    ensures var after := Run(w, Asking(words) + Round(beat), setup);
            && Resting(after.robot) && after.robot.latched && after.robot.lastSequence == w.robot.lastSequence
            && after.sent == Run(w, Asking(words), setup).sent
                             + Told(w.robot.session, c.sequence, EVENT_LATCHED, FAULT_REJECTED, w.robot.lastSequence)
            && AcceptedIn(after.log) == AcceptedIn(w.log) && EnteredIn(after.log) == EnteredIn(w.log)
  {
    RunAllMore(w, Asking(words), Round(beat), setup);
    var taken := RestingAsked(w, setup, words, c);
    var asked := Step(taken, MainRuns, setup);
    RefusedIsRejected(taken.robot, w.robot, c);
    NotUsed(w.log, Heard(words));
    NotUsed(taken.log, Rejected(c.sequence));
    NotUsed(asked.log, Heard(beat));
    RoundGoesOn(asked, setup, beat, c.sequence, EVENT_LATCHED, FAULT_REJECTED, AfterRejection);
    hide Run, GoodFrame, EnteredIn, AcceptedIn;
    assert Resume(Announced(asked.robot, beat), AfterRejection, setup).happened == [];
    assert asked.log + [Heard(beat)] + [] == asked.log + [Heard(beat)];
  }

  // ---------- motions that were disturbed ----------

  /** A frame hostile to the command in flight latches the robot with the fault of its kind. */
  lemma {:induction false} HostileLatches(r: Robot, words: seq<int>)
    requires r.InFlight() && Hostile(words, r.lastSequence)
    ensures var after := TakeFrame(r, words);
            && after.latched && after.command == r.command && after.main == r.main
            && after.lastFault ==
                 if !GoodFrame(words) then 101 else if words[1] == KIND_COMMAND then 105 else 102
  {
    hide GoodFrame;
  }

  /** The outcome of a motion, as the log tells it: the fault is 104 for a lost link, else that of the last disturbance. */
  function OutcomeOf(w: World): (int, int) {
    if LostSince(w.log) then (EVENT_LATCHED, 104)
    else if HostileSince(w.log, w.robot.lastSequence) then (EVENT_LATCHED, w.robot.lastFault)
    else (EVENT_COMPLETED, 0)
  }

  lemma {:induction false} ReturnedAwaits(w: World)
    requires Holds(w) && w.robot.main.Moving?
    ensures var t, outcome := MotionReturns(w.robot), OutcomeOf(w);
            && t.sent == [] && t.happened == [Returned(w.robot.lastSequence)]
            && t.robot.lastEvent == outcome.0 && t.robot.session == w.robot.session
            && t.robot.lastSequence == w.robot.lastSequence
            && t.robot.main == Publishing(w.robot.lastSequence, outcome.0, AfterOutcome)
            && t.robot.pendingSequence == w.robot.lastSequence && t.robot.pendingCode == outcome.0
            && t.robot.pendingFault == outcome.1
            && t.robot.sentCode == 0 && !t.robot.motionActive && (t.robot.latched <==> outcome.0 == EVENT_LATCHED)
            && (t.robot.latched ==> t.robot.lastFault == outcome.1) && !t.robot.maintenanceRequested && t.robot.lastSequence > 0
  {
    hide WellOrdered, CompletionsHold, AllTruthful, HostileSince, LostSince, Running, LastAccepted;
  }

  /**
   When a motion returns, its outcome, as the log tells it, is the next event sent, over a new connection if the link was
   lost; and the robot rests, latched unless the motion completed.
   */
  lemma {:induction false} OutcomeIsReported(w: World, setup: Setup, beat: seq<int>)
    requires Holds(w) && w.robot.main.Moving? && IsHeartbeat(beat) && setup.heartbeatMissLimit > 0
    ensures var linked, outcome := Run(w, [MotionEnds, SocketOpens(true)], setup), OutcomeOf(w);
            var after := Run(w, [MotionEnds, SocketOpens(true)] + Round(beat), setup);
            && after.sent == linked.sent + Told(w.robot.session, w.robot.lastSequence, outcome.0, outcome.1, w.robot.lastSequence)
            && Resting(after.robot) && (after.robot.latched <==> outcome.0 == EVENT_LATCHED)
            && (after.robot.latched ==> after.robot.lastFault == outcome.1) && after.robot.lastEvent == outcome.0 && after.robot.lastSequence == w.robot.lastSequence
  {
    RunAllMore(w, [MotionEnds, SocketOpens(true)], Round(beat), setup);
    TwoSteps(w, MotionEnds, SocketOpens(true), setup);
    var ended := Step(w, MotionEnds, setup);
    var linked := Step(ended, SocketOpens(true), setup);
    var outcome := OutcomeOf(w);
    ReturnedAwaits(w);
    hide Run, Holds, OutcomeOf, GoodFrame;
    assert outcome.0 == EVENT_LATCHED || outcome.0 == EVENT_COMPLETED by { OutcomesAreTwo(w); }
    assert Awaits(linked.robot, w.robot.lastSequence, outcome.0, outcome.1, AfterOutcome);
    RoundGoesOn(linked, setup, beat, w.robot.lastSequence, outcome.0, outcome.1, AfterOutcome);
  }

  lemma {:induction false} OutcomesAreTwo(w: World)
    ensures OutcomeOf(w).0 == EVENT_LATCHED || OutcomeOf(w).0 == EVENT_COMPLETED
  {
  }

  // ---------- faults ----------

  /** Only a latched robot has a fault, and only a stopped program has been asked for maintenance. */
  predicate FaultsAreLatched(r: Robot) {
    (!r.latched ==> r.lastFault == 0) && (r.maintenanceRequested ==> r.main.Stopped?)
  }

  lemma {:induction false} HeadKeepsFaults(r: Robot)
    requires !r.latched ==> r.lastFault == 0
    ensures FaultsAreLatched(LoopHead(r).robot)
  {
  }

  lemma {:induction false} MainKeepsFaults(r: Robot, log: seq<Happening>, setup: Setup)
    requires Good(r, log) && FaultsAreLatched(r)
    ensures FaultsAreLatched(MainTurn(r, setup).robot)
  {
    hide LoopHead, WellOrdered, CompletionsHold, Known, HostileSince, LostSince;
    if r.main.Idle? {
      HeadKeepsFaults(r);
    } else if r.main.Publishing? {
      HeadKeepsFaults(r);
      HeadKeepsFaults(ForgetCommand(r));
      HeadKeepsFaults(ForgetCommand(r).(maintenanceRequested := true));
    }
  }

  lemma {:induction false} ReadKeepsFaults(r: Robot, setup: Setup, words: seq<int>)
    requires FaultsAreLatched(r)
    ensures FaultsAreLatched(Read(r, setup, words).robot)
  {
    hide TakeFrame;
    if |words| == 9 {
      FrameKeepsFaults(r, words);
    }
  }

  lemma {:induction false} FrameKeepsFaults(r: Robot, words: seq<int>)
    requires FaultsAreLatched(r) && |words| == 9
    ensures FaultsAreLatched(TakeFrame(r, words))
  {
    hide GoodFrame;
  }

  lemma {:induction false} StepKeepsFaults(w: World, a: Action, setup: Setup)
    requires Holds(w) && FaultsAreLatched(w.robot)
    ensures FaultsAreLatched(Step(w, a, setup).robot)
  {
    hide Good, MainTurn, Read;
    match a
    case MainRuns => MainKeepsFaults(w.robot, w.log, setup);
    case MotionEnds =>
    case SocketOpens(ok) =>
    case SocketReads(words) => ReadKeepsFaults(w.robot, setup, words);
    case Reboot(session, seed) =>
  }

  /** Over any run, only a latched robot has a fault, and only a stopped program has been asked for maintenance. */
  lemma {:induction false} FaultsMeanLatched(session: int, seed: int, actions: seq<Action>, setup: Setup)
    requires AllAllowed(FirstBoot(session, seed), actions, setup)
    ensures FaultsAreLatched(Run(FirstBoot(session, seed), actions, setup).robot)
  {
    StartHolds(session, seed);
    RunKeepsFaults(FirstBoot(session, seed), actions, setup);
  }

  lemma {:induction false} RunKeepsFaults(w: World, actions: seq<Action>, setup: Setup)
    requires Holds(w) && FaultsAreLatched(w.robot) && AllAllowed(w, actions, setup)
    ensures FaultsAreLatched(Run(w, actions, setup).robot)
    decreases |actions|
  {
    hide Holds, FaultsAreLatched, Step, Allowed;
    if actions != [] {
      StepHolds(w, actions[0], setup);
      StepKeepsFaults(w, actions[0], setup);
      RunKeepsFaults(Step(w, actions[0], setup), actions[1..], setup);
    }
  }
}
