/**
 Particular runs of the robot, from any ready state: a command that completes, a command that moves with the latch
 set, and a command the dispatcher does not know.
 */
module RobotRuns {
  import opened Outcomes
  import opened Frames
  import opened RobotProgram
  import opened RobotSafety
  import opened RobotTheorems

  lemma {:induction false} RunAllMore(w: World, actions: seq<Action>, more: seq<Action>, setup: Setup)
    ensures Run(w, actions + more, setup) == Run(Run(w, actions, setup), more, setup)
    decreases |actions|
  {
    if actions == [] {
      assert actions + more == more;
    } else {
      assert (actions + more)[1..] == actions[1..] + more;
      RunAllMore(Step(w, actions[0], setup), actions[1..], more, setup);
    }
  }

  lemma {:induction false} OneStep(w: World, a: Action, setup: Setup)
    ensures Run(w, [a], setup) == Step(w, a, setup)
  {
    hide Step;
    assert [a][1..] == [];
    assert Run(Step(w, a, setup), [], setup) == Step(w, a, setup);
  }

  lemma {:induction false} TwoSteps(w: World, a: Action, b: Action, setup: Setup)
    ensures Run(w, [a, b], setup) == Step(Step(w, a, setup), b, setup)
  {
    hide Step;
    assert [a, b][1..] == [b];
    OneStep(Step(w, a, setup), b, setup);
  }

  predicate NoReboot(actions: seq<Action>) {
    forall a | a in actions :: !a.Reboot?
  }

  // ---------- frames ----------

  predicate Carries(words: seq<int>, c: Command) {
    && |words| == 9 && GoodFrame(words) && words[1] == KIND_COMMAND
    && c == Command(words[3], words[4], words[5], words[6], words[7])
  }

  predicate IsHeartbeat(words: seq<int>) {
    |words| == 9 && GoodFrame(words) && words[1] == KIND_HEARTBEAT
  }

  predicate IsDamaged(words: seq<int>) {
    |words| == 9 && !GoodFrame(words)
  }

  function Sealed(body: seq<int>): (words: seq<int>)
    requires |body| == 8 && body[0] == PROTOCOL_VERSION
    ensures |words| == 9 && GoodFrame(words) && words[..8] == body
  {
    assert (body + [Checksum(body)])[..8] == body;
    body + [Checksum(body)]
  }

  function CommandWords(app: int, c: Command): (words: seq<int>)
    ensures Carries(words, c)
  {
    hide GoodFrame, Checksum;
    var body := [PROTOCOL_VERSION, KIND_COMMAND, app, c.sequence, c.opcode, c.argument, c.value, c.payloadG];
    var words := Sealed(body);
    assert words[..8][1] == words[1] && words[..8][3] == words[3] && words[..8][4] == words[4];
    assert words[..8][5] == words[5] && words[..8][6] == words[6] && words[..8][7] == words[7];
    words
  }

  function BeatWords(app: int): (words: seq<int>)
    ensures IsHeartbeat(words)
  {
    hide GoodFrame, Checksum;
    var words := Sealed([PROTOCOL_VERSION, KIND_HEARTBEAT, app, 0, 0, 0, 0, 0]);
    assert words[..8][1] == words[1];
    words
  }

  // ---------- the stages of a command ----------

  /** Nothing in flight, and nothing in the way of the next command. */
  predicate Ready(r: Robot) {
    && r.main.Idle? && !r.latched && !r.motionActive && !r.maintenanceRequested
    && r.command.sequence <= 0 <= r.lastSequence
  }

  predicate NextCommand(r: Robot, c: Command) {
    c.sequence == r.lastSequence + 1 && c.opcode != OP_CLEAR_LATCH && c.opcode != OP_ENTER_MAINTENANCE
  }

  /** The main loop waits for this event to be sent. */
  predicate Awaits(r: Robot, sequence: int, code: int, fault: int, next: Then) {
    && r.connected && !r.maintenanceRequested && r.main == Publishing(sequence, code, next)
    && r.pendingSequence == sequence && r.pendingCode == code > 0 && r.pendingFault == fault && r.sentCode == 0
  }

  /** It waits for the event `code` of command `c`. */
  predicate Announces(r: Robot, c: Command, code: int, next: Then) {
    && Awaits(r, c.sequence, code, 0, next) && !r.latched && r.missedHeartbeats == 0
    && r.command == c && r.lastSequence == c.sequence > 0
  }

  /** What goes out when an event is sent. */
  function Told(session: int, sequence: int, code: int, fault: int, lastSequence: int): seq<Message> {
    [Event(session, sequence, code, fault, lastSequence), Telemetry(session, lastSequence)]
  }

  function ToldOf(session: int, c: Command, code: int): seq<Message> {
    Told(session, c.sequence, code, 0, c.sequence)
  }

  function Asking(words: seq<int>): seq<Action> {
    [SocketOpens(true)] + [SocketReads(words), MainRuns]
  }

  /** A frame arrives and the event waiting is sent, then the main loop goes on. */
  function Round(words: seq<int>): seq<Action> {
    [SocketReads(words), MainRuns]
  }

  lemma {:induction false} AskedIsAccepted(w: World, setup: Setup, words: seq<int>, c: Command)
    requires Ready(w.robot) && NextCommand(w.robot, c) && Carries(words, c) && setup.heartbeatMissLimit > 0
    ensures var after := Run(w, Asking(words), setup);
            && Announces(after.robot, c, EVENT_ACCEPTED, AfterAccepted) && !after.robot.motionActive
            && after.robot.session == w.robot.session && after.robot.lastFault == 0
            && after.log == w.log + [Heard(words)] + [Accepted(c.sequence)]
  {
    RunAllMore(w, [SocketOpens(true)], [SocketReads(words), MainRuns], setup);
    OneStep(w, SocketOpens(true), setup);
    var linked := Step(w, SocketOpens(true), setup);
    TwoSteps(linked, SocketReads(words), MainRuns, setup);
    hide Run, GoodFrame;
    assert linked.robot.connected && Ready(linked.robot) && NextCommand(linked.robot, c);
    assert linked.log == w.log;
    ReadyTakesCommand(linked.robot, setup, words, c);
    var heard := Step(linked, SocketReads(words), setup);
    assert heard.log == w.log + [Heard(words)];
    HeldIsAccepted(heard.robot, c);
    hide LoopHead;
  }

  predicate Holding(r: Robot, c: Command) {
    && Ready(r.(command := r.command.(sequence := 0))) && r.command == c && r.connected && r.missedHeartbeats == 0
    && NextCommand(r, c)
  }

  lemma {:induction false} ReadyTakesCommand(r: Robot, setup: Setup, words: seq<int>, c: Command)
    requires Ready(r) && r.connected && NextCommand(r, c) && Carries(words, c) && setup.heartbeatMissLimit > 0
    ensures Holding(Read(r, setup, words).robot, c) && Read(r, setup, words).happened == [Heard(words)]
    ensures Read(r, setup, words).robot.session == r.session
  {
    hide GoodFrame;
  }

  lemma {:induction false} HeldIsAccepted(r: Robot, c: Command)
    requires Holding(r, c)
    ensures var t := LoopHead(r);
            && Announces(t.robot, c, EVENT_ACCEPTED, AfterAccepted) && !t.robot.motionActive && t.robot.session == r.session
            && t.robot.lastFault == 0 && t.happened == [Accepted(c.sequence)]
  {
  }

  /** The robot once the waiting event is sent and the frame that came with it is taken. */
  function Announced(r: Robot, words: seq<int>): Robot
    requires |words| == 9
  {
    TakeFrame(r, words).(sentSequence := r.pendingSequence, sentCode := r.pendingCode)
  }

  lemma {:induction false} RoundGoesOn(w: World, setup: Setup, words: seq<int>, sequence: int, code: int,
        fault: int, next: Then)
    requires Awaits(w.robot, sequence, code, fault, next) && setup.heartbeatMissLimit > 0
    requires IsHeartbeat(words) || (IsDamaged(words) && w.robot.missedHeartbeats == 0)
    ensures var after, t := Run(w, Round(words), setup), Resume(Announced(w.robot, words), next, setup);
            && after.robot == t.robot && after.log == w.log + [Heard(words)] + t.happened
            && after.sent == w.sent + Told(w.robot.session, sequence, code, fault, w.robot.lastSequence)
  {
    TwoSteps(w, SocketReads(words), MainRuns, setup);
    hide Run, Resume, GoodFrame, Known;
    AnnouncementIsSent(w.robot, setup, words, sequence, code, fault, next);
    var read := Step(w, SocketReads(words), setup);
    assert read.robot == Announced(w.robot, words);
    assert read.sent == w.sent + Told(w.robot.session, sequence, code, fault, w.robot.lastSequence);
    ResumeSendsNothing(read.robot, next, setup);
    assert read.sent + [] == read.sent;
  }

  lemma {:induction false} ResumeSendsNothing(r: Robot, next: Then, setup: Setup)
    ensures Resume(r, next, setup).sent == []
  {
  }

  lemma {:induction false} AnnouncementIsSent(r: Robot, setup: Setup, words: seq<int>, sequence: int, code: int,
        fault: int, next: Then)
    requires Awaits(r, sequence, code, fault, next) && setup.heartbeatMissLimit > 0
    requires IsHeartbeat(words) || (IsDamaged(words) && r.missedHeartbeats == 0)
    ensures var t := Read(r, setup, words);
            && t.robot == Announced(r, words) && t.happened == [Heard(words)]
            && t.sent == Told(r.session, sequence, code, fault, r.lastSequence)
            && t.robot.main == r.main && !t.robot.maintenanceRequested
            && MainTurn(t.robot, setup) == Resume(t.robot, next, setup)
  {
    hide GoodFrame, Resume;
  }

  lemma {:induction false} AcceptedIsAnnounced(w: World, setup: Setup, beat: seq<int>, c: Command)
    requires Announces(w.robot, c, EVENT_ACCEPTED, AfterAccepted) && IsHeartbeat(beat) && setup.heartbeatMissLimit > 0
    ensures var after := Run(w, Round(beat), setup);
            && Announces(after.robot, c, EVENT_RUNNING, AfterRunning) && after.robot.motionActive
            && after.robot.session == w.robot.session && after.sent == w.sent + ToldOf(w.robot.session, c, EVENT_ACCEPTED)
            && after.log == w.log + [Heard(beat)]
  {
    RoundGoesOn(w, setup, beat, c.sequence, EVENT_ACCEPTED, 0, AfterAccepted);
    hide Run, GoodFrame;
    assert w.log + [Heard(beat)] + [] == w.log + [Heard(beat)];
  }

  /** The event RUNNING goes out with a frame, damaged or not, and the dispatcher is entered. */
  lemma {:induction false} RunningIsDispatched(w: World, setup: Setup, words: seq<int>, c: Command)
    requires Announces(w.robot, c, EVENT_RUNNING, AfterRunning) && w.robot.motionActive && setup.heartbeatMissLimit > 0
    requires IsHeartbeat(words) || IsDamaged(words)
    requires c.opcode != OP_CLEAR_LATCH && c.opcode != OP_ENTER_MAINTENANCE
    ensures Run(w, Round(words), setup).robot.session == w.robot.session
    ensures Run(w, Round(words), setup).sent == w.sent + ToldOf(w.robot.session, c, EVENT_RUNNING)
    ensures var after := Run(w, Round(words), setup);
            if Known(c, setup) then
              && after.robot.main.Moving? && after.robot.connected && !after.robot.linkLost && !after.robot.maintenanceRequested
              && after.robot.command == c && after.robot.lastSequence == c.sequence && after.robot.missedHeartbeats == 0
              && (after.robot.latched <==> IsDamaged(words))
              && after.log == w.log + [Heard(words)] + [Entered(c.sequence)]
            else
              && Wedged(after.robot) && after.log == w.log + [Heard(words)]
              && Awaits(after.robot, c.sequence, EVENT_LATCHED, FAULT_UNEXPECTED_KIND, AfterUnknown)
              && after.robot.lastSequence == c.sequence
  {
    RoundGoesOn(w, setup, words, c.sequence, EVENT_RUNNING, 0, AfterRunning);
    hide Run, GoodFrame, Known;
    assert w.log + [Heard(words)] + [] == w.log + [Heard(words)];
  }

  predicate MovesClean(r: Robot, c: Command) {
    && r.main.Moving? && r.connected && !r.linkLost && !r.latched && !r.maintenanceRequested && r.missedHeartbeats == 0
    && r.command == c && r.lastSequence == c.sequence > 0
  }

  lemma {:induction false} MotionCompletes(w: World, setup: Setup, beat: seq<int>, c: Command)
    requires MovesClean(w.robot, c) && IsHeartbeat(beat) && setup.heartbeatMissLimit > 0
    ensures var after := Run(w, [MotionEnds] + Round(beat), setup);
            && Ready(after.robot) && after.robot.lastSequence == c.sequence && after.robot.lastEvent == EVENT_COMPLETED
            && after.log == w.log + [Returned(c.sequence)] + [Heard(beat)]
            && after.sent == w.sent + ToldOf(w.robot.session, c, EVENT_COMPLETED)
  {
    RunAllMore(w, [MotionEnds], Round(beat), setup);
    OneStep(w, MotionEnds, setup);
    var ended := Step(w, MotionEnds, setup);
    assert Announces(ended.robot, c, EVENT_COMPLETED, AfterOutcome) && ended.log == w.log + [Returned(c.sequence)] by { hide Run; }
    assert !ended.robot.motionActive && ended.sent == w.sent;
    RoundGoesOn(ended, setup, beat, c.sequence, EVENT_COMPLETED, 0, AfterOutcome);
    hide Run, GoodFrame;
    var after := Resume(Announced(ended.robot, beat), AfterOutcome, setup);
    assert after.happened == [] && Ready(after.robot) && after.robot.lastSequence == c.sequence;
    assert after.robot.lastEvent == EVENT_COMPLETED;
    assert ended.log + [Heard(beat)] + [] == ended.log + [Heard(beat)];
  }

  // ---------- what a log of these runs lists ----------

  lemma {:induction false} NotUsed(log: seq<Happening>, h: Happening)
    requires Taken(h).None? && !h.Entered?
    ensures EnteredIn(log + [h]) == EnteredIn(log) && AcceptedIn(log + [h]) == AcceptedIn(log)
  {
    NothingTaken(log, [h]);
  }

  lemma {:induction false} AcceptedNext(log: seq<Happening>, s: int)
    ensures EnteredIn(log + [Accepted(s)]) == EnteredIn(log) && AcceptedIn(log + [Accepted(s)]) == AcceptedIn(log) + [s]
  {
    Grow(log, Accepted(s));
    assert EnteredIn(log) + [] == EnteredIn(log);
  }

  lemma {:induction false} EnteredNext(log: seq<Happening>, s: int)
    ensures EnteredIn(log + [Entered(s)]) == EnteredIn(log) + [s] && AcceptedIn(log + [Entered(s)]) == AcceptedIn(log)
  {
    Grow(log, Entered(s));
    assert AcceptedIn(log) + [] == AcceptedIn(log);
  }

  // ---------- the runs ----------

  /** Up to the dispatcher: the command arrives and ACCEPTED goes out with a heartbeat, then RUNNING with `last`. */
  function ToDispatch(words: seq<int>, beat: seq<int>, last: seq<int>): seq<Action> {
    Asking(words) + Round(beat) + Round(last)
  }

  lemma {:induction false} CommandReachesDispatcher(w: World, setup: Setup, words: seq<int>, c: Command,
        beat: seq<int>, last: seq<int>)
    requires Ready(w.robot) && NextCommand(w.robot, c) && Carries(words, c) && setup.heartbeatMissLimit > 0
    requires IsHeartbeat(beat) && (IsHeartbeat(last) || IsDamaged(last))
    ensures var after := Run(w, ToDispatch(words, beat, last), setup);
            && AcceptedIn(after.log) == AcceptedIn(w.log) + [c.sequence]
            && if Known(c, setup) then
                 && after.robot.main.Moving? && (after.robot.latched <==> IsDamaged(last))
                 && (!IsDamaged(last) ==> MovesClean(after.robot, c))
                 && EnteredIn(after.log) == EnteredIn(w.log) + [c.sequence] && Last(after.log) == Entered(c.sequence)
               else
                 && Wedged(after.robot) && EnteredIn(after.log) == EnteredIn(w.log)
                 && Awaits(after.robot, c.sequence, EVENT_LATCHED, FAULT_UNEXPECTED_KIND, AfterUnknown)
                 && after.robot.lastSequence == c.sequence
    ensures Run(w, ToDispatch(words, beat, last), setup).robot.session == w.robot.session
    ensures Run(w, ToDispatch(words, beat, last), setup).sent
         == Run(w, Asking(words), setup).sent + ToldOf(w.robot.session, c, EVENT_ACCEPTED) + ToldOf(w.robot.session, c, EVENT_RUNNING)
  {
    RunAllMore(w, Asking(words) + Round(beat), Round(last), setup);
    RunAllMore(w, Asking(words), Round(beat), setup);
    var accepted := Run(w, Asking(words), setup);
    var running := Run(accepted, Round(beat), setup);
    var after := Run(running, Round(last), setup);
    AskedIsAccepted(w, setup, words, c);
    AcceptedIsAnnounced(accepted, setup, beat, c);
    RunningIsDispatched(running, setup, last, c);
    NotUsed(w.log, Heard(words));
    AcceptedNext(w.log + [Heard(words)], c.sequence);
    NotUsed(accepted.log, Heard(beat));
    NotUsed(running.log, Heard(last));
    EnteredNext(running.log + [Heard(last)], c.sequence);
    hide Run, EnteredIn, AcceptedIn, GoodFrame, Known, Wedged;
    assert Last(running.log + [Heard(last)] + [Entered(c.sequence)]) == Entered(c.sequence);
  }

  function ToCompletion(words: seq<int>, beat: seq<int>): seq<Action> {
    ToDispatch(words, beat, beat) + ([MotionEnds] + Round(beat))
  }

  /**
   From any ready state, the next command, if it is one the dispatcher knows, is dispatched once and reported accepted,
   running and completed, given its frame and heartbeats; and the robot is ready again.
   */
  lemma {:induction false} CommandCompletes(w: World, setup: Setup, words: seq<int>, c: Command, beat: seq<int>)
    requires Ready(w.robot) && NextCommand(w.robot, c) && Known(c, setup) && setup.heartbeatMissLimit > 0
    requires Carries(words, c) && IsHeartbeat(beat)
    ensures var after := Run(w, ToCompletion(words, beat), setup);
            && Ready(after.robot) && after.robot.lastSequence == c.sequence && after.robot.lastEvent == EVENT_COMPLETED
            && EnteredIn(after.log) == EnteredIn(w.log) + [c.sequence]
            && AcceptedIn(after.log) == AcceptedIn(w.log) + [c.sequence]
            && after.sent == Run(w, Asking(words), setup).sent
                             + ToldOf(w.robot.session, c, EVENT_ACCEPTED) + ToldOf(w.robot.session, c, EVENT_RUNNING)
                             + ToldOf(w.robot.session, c, EVENT_COMPLETED)
    ensures NoReboot(ToCompletion(words, beat))
  {
    CommandReachesDispatcher(w, setup, words, c, beat, beat);
    var moving := Run(w, ToDispatch(words, beat, beat), setup);
    RunAllMore(w, ToDispatch(words, beat, beat), [MotionEnds] + Round(beat), setup);
    MotionCompletes(moving, setup, beat, c);
    NotUsed(moving.log, Returned(c.sequence));
    NotUsed(moving.log + [Returned(c.sequence)], Heard(beat));
  }

  /**
   No motion is started while latched is not what the program does: from any ready state, a damaged frame between a
   command's acceptance and its start latches the robot, and the command is dispatched all the same.
   */
  lemma {:induction false} LatchedCommandMoves(w: World, setup: Setup, words: seq<int>, c: Command, beat: seq<int>,
        damaged: seq<int>)
    requires Ready(w.robot) && NextCommand(w.robot, c) && Known(c, setup) && setup.heartbeatMissLimit > 0
    requires Carries(words, c) && IsHeartbeat(beat) && IsDamaged(damaged)
    ensures var after := Run(w, ToDispatch(words, beat, damaged), setup);
            && EnteredIn(after.log) == EnteredIn(w.log) + [c.sequence] && Last(after.log) == Entered(c.sequence)
            && after.robot.main.Moving? && after.robot.latched
  {
    CommandReachesDispatcher(w, setup, words, c, beat, damaged);
  }

  /**
   From any ready state, the next command, if it is not one the dispatcher knows, is accepted and wedges the robot, which
   reports it latched with the next heartbeat: whatever comes after it short of a restart, nothing is taken or dispatched
   again.
   */
  lemma {:induction false} UnknownCommandWedges(w: World, setup: Setup, words: seq<int>, c: Command,
        beat: seq<int>, more: seq<Action>)
    requires Ready(w.robot) && NextCommand(w.robot, c) && !Known(c, setup) && setup.heartbeatMissLimit > 0
    requires Carries(words, c) && IsHeartbeat(beat) && NoReboot(more)
    ensures var after := Run(w, ToDispatch(words, beat, beat) + more, setup);
            && Wedged(after.robot)
            && AcceptedIn(after.log) == AcceptedIn(w.log) + [c.sequence] && EnteredIn(after.log) == EnteredIn(w.log)
    ensures var wedged := Run(w, ToDispatch(words, beat, beat), setup);
            Run(w, ToDispatch(words, beat, beat) + Round(beat), setup).sent
            == wedged.sent + Told(w.robot.session, c.sequence, EVENT_LATCHED, FAULT_UNEXPECTED_KIND, c.sequence)
  {
    CommandReachesDispatcher(w, setup, words, c, beat, beat);
    var wedged := Run(w, ToDispatch(words, beat, beat), setup);
    RunAllMore(w, ToDispatch(words, beat, beat), more, setup);
    WedgedRun(wedged, more, setup);
    RunAllMore(w, ToDispatch(words, beat, beat), Round(beat), setup);
    hide Run, Wedged, EnteredIn, AcceptedIn, GoodFrame, Resume;
    RoundGoesOn(wedged, setup, beat, c.sequence, EVENT_LATCHED, FAULT_UNEXPECTED_KIND, AfterUnknown);
  }

  lemma {:induction false} WedgedRun(w: World, more: seq<Action>, setup: Setup)
    requires Wedged(w.robot) && NoReboot(more)
    ensures var after := Run(w, more, setup);
            Wedged(after.robot) && AcceptedIn(after.log) == AcceptedIn(w.log) && EnteredIn(after.log) == EnteredIn(w.log)
    decreases |more|
  {
    hide Wedged, Step, AcceptedIn, EnteredIn;
    if more != [] {
      assert more[0] in more;
      WedgedForGood(w, more[0], setup);
      WedgedRun(Step(w, more[0], setup), more[1..], setup);
    }
  }

  /** Both happen on a first start: a latched motion after nine zeros, and a wedge by opcode 99 or by a move to no known slot. */
  lemma {:induction false} FirstStartCanDoBoth(session: int, seed: nat, setup: Setup, app: int, slot: int)
    requires setup.heartbeatMissLimit > 0 && slot !in setup.slots
    ensures var words := CommandWords(app, Command(seed + 1, 3, 0, 0, 0));
            var after := Run(FirstBoot(session, seed), ToDispatch(words, BeatWords(app), [0, 0, 0, 0, 0, 0, 0, 0, 0]), setup).robot;
            after.main.Moving? && after.latched
    ensures forall c | c in [Command(seed + 1, 99, 0, 0, 0), Command(seed + 1, 1, slot, 0, 0)] ::
              Wedged(Run(FirstBoot(session, seed), ToDispatch(CommandWords(app, c), BeatWords(app), BeatWords(app)), setup).robot)
  {
    hide Run, ToDispatch, CommandWords, BeatWords, GoodFrame, Wedged;
    var start, beat := FirstBoot(session, seed), BeatWords(app);
    FirstStartIsReady(session, seed);
    FirstLatched(start, seed, setup, app);
    forall c | c in [Command(seed + 1, 99, 0, 0, 0), Command(seed + 1, 1, slot, 0, 0)]
      ensures Wedged(Run(start, ToDispatch(CommandWords(app, c), beat, beat), setup).robot)
    {
      FirstWedged(start, seed, setup, app, c);
    }
  }

  lemma {:induction false} FirstStartIsReady(session: int, seed: nat)
    ensures Ready(FirstBoot(session, seed).robot) && FirstBoot(session, seed).robot.lastSequence == seed
  {
  }

  lemma {:induction false} FirstLatched(start: World, seed: nat, setup: Setup, app: int)
    requires Ready(start.robot) && start.robot.lastSequence == seed && setup.heartbeatMissLimit > 0
    ensures var words := CommandWords(app, Command(seed + 1, 3, 0, 0, 0));
            var after := Run(start, ToDispatch(words, BeatWords(app), [0, 0, 0, 0, 0, 0, 0, 0, 0]), setup).robot;
            after.main.Moving? && after.latched
  {
    hide Run, ToDispatch, CommandWords, BeatWords, GoodFrame, Wedged, Ready, IsDamaged;
    ZerosAreDamaged();
    var known := Command(seed + 1, 3, 0, 0, 0);
    LatchedCommandMoves(start, setup, CommandWords(app, known), known, BeatWords(app), [0, 0, 0, 0, 0, 0, 0, 0, 0]);
  }

  lemma {:induction false} FirstWedged(start: World, seed: nat, setup: Setup, app: int, c: Command)
    requires Ready(start.robot) && start.robot.lastSequence == seed && setup.heartbeatMissLimit > 0
    requires NextCommand(start.robot, c) && !Known(c, setup)
    ensures Wedged(Run(start, ToDispatch(CommandWords(app, c), BeatWords(app), BeatWords(app)), setup).robot)
  {
    hide Run, ToDispatch, CommandWords, BeatWords, GoodFrame, Wedged, Ready, Known, NextCommand;
    CommandReachesDispatcher(start, setup, CommandWords(app, c), c, BeatWords(app), BeatWords(app));
  }

  lemma {:induction false} ZerosAreDamaged()
    ensures IsDamaged([0, 0, 0, 0, 0, 0, 0, 0, 0])
  {
  }
}
