/**
 What holds over every run of the robot's two threads, whatever arrives on the socket, however often
 the link drops, and across restarts of the program.
 */
module RobotSafety {
  import opened Outcomes
  import opened Frames
  import opened RobotProgram

  /** The robot, everything that has happened to it, and everything it has sent. */
  datatype World = World(robot: Robot, log: seq<Happening>, sent: seq<Message>)

  datatype Action =
    | MainRuns
    | MotionEnds
    | SocketOpens(ok: bool)
    | SocketReads(words: seq<int>)
    | Reboot(session: int, seed: int)

  function Extend(w: World, t: Turned): World {
    World(t.robot, w.log + t.happened, w.sent + t.sent)
  }

  function Step(w: World, a: Action, setup: Setup): World {
    match a
    case MainRuns => Extend(w, MainTurn(w.robot, setup))
    case MotionEnds => Extend(w, MotionReturns(w.robot))
    case SocketOpens(ok) => Extend(w, Connect(w.robot, ok))
    case SocketReads(words) => Extend(w, Read(w.robot, setup, words))
    case Reboot(session, seed) => World(Booted(session, seed), w.log + [BootedWith(seed)], w.sent)
  }

  /** A restart is seeded with at least the last sequence accepted. */
  predicate Allowed(w: World, a: Action) {
    a.Reboot? ==> forall s | s in AcceptedIn(w.log) :: s <= a.seed
  }

  function FirstBoot(session: int, seed: int): World {
    World(Booted(session, seed), [BootedWith(seed)], [])
  }

  function Run(w: World, actions: seq<Action>, setup: Setup): World
    decreases |actions|
  {
    if actions == [] then w else Run(Step(w, actions[0], setup), actions[1..], setup)
  }

  predicate AllAllowed(w: World, actions: seq<Action>, setup: Setup)
    decreases |actions|
  {
    actions == [] || (Allowed(w, actions[0]) && AllAllowed(Step(w, actions[0], setup), actions[1..], setup))
  }

  // ---------- reading the log, latest happening last ----------

  function Before(log: seq<Happening>): seq<Happening>
    requires log != []
  {
    log[..|log| - 1]
  }

  function Last(log: seq<Happening>): Happening
    requires log != []
  {
    log[|log| - 1]
  }

  /** The sequence taken, in order, by this happening. */
  function Taken(h: Happening): Option<int> {
    match h
    case Accepted(s) => Some(s)
    case Cleared(s) => Some(s)
    case MaintenanceEntered(s) => Some(s)
    case _ => None
  }

  function AcceptedIn(log: seq<Happening>): seq<int> {
    if log == [] then [] else
      AcceptedIn(Before(log)) + (if Taken(Last(log)).Some? then [Taken(Last(log)).value] else [])
  }

  function EnteredIn(log: seq<Happening>): seq<int> {
    if log == [] then [] else
      EnteredIn(Before(log)) + (if Last(log).Entered? then [Last(log).sequence] else [])
  }

  /** The last sequence taken, or the seed of the latest start. */
  function LastTaken(log: seq<Happening>): int {
    if log == [] then 0
    else if Last(log).BootedWith? then Last(log).seed
    else if Taken(Last(log)).Some? then Taken(Last(log)).value
    else LastTaken(Before(log))
  }

  /** The command accepted and not yet dispatched. */
  function Waiting(log: seq<Happening>): Option<int> {
    if log == [] then None
    else match Last(log)
      case Accepted(s) => Some(s)
      case Entered(_) => None
      case Cleared(_) => None
      case MaintenanceEntered(_) => None
      case BootedWith(_) => None
      case _ => Waiting(Before(log))
  }

  /** The command the dispatcher is running. */
  function Running(log: seq<Happening>): Option<int> {
    if log == [] then None
    else match Last(log)
      case Entered(s) => Some(s)
      case Returned(_) => None
      case BootedWith(_) => None
      case _ => Running(Before(log))
  }

  /** A frame that must stop the command `s` in flight from completing: damaged, of the wrong kind, or another command. */
  predicate Hostile(words: seq<int>, s: int) {
    |words| == 9 && (
      || !GoodFrame(words)
      || (words[1] == KIND_COMMAND && words[3] != s)
      || words[1] !in [KIND_COMMAND, KIND_HEARTBEAT])
  }

  /** A hostile frame was heard since the last acceptance. */
  predicate HostileSince(log: seq<Happening>, s: int) {
    log != [] && !Last(log).Accepted? && (
      (Last(log).Heard? && Hostile(Last(log).words, s)) || HostileSince(Before(log), s))
  }

  /** The link was lost since the dispatcher was last entered. */
  predicate LostSince(log: seq<Happening>) {
    log != [] && !Last(log).Entered? && (Last(log).LinkLost? || LostSince(Before(log)))
  }

  function LastAccepted(log: seq<Happening>): Option<int> {
    if log == [] then None
    else if Last(log).Accepted? then Some(Last(log).sequence)
    else LastAccepted(Before(log))
  }

  /** Sequences are taken one after another from the seed, dispatched once each, and return once each. */
  predicate WellOrdered(log: seq<Happening>) {
    log == [] || (WellOrdered(Before(log)) &&
      var before := Before(log);
      match Last(log)
      case BootedWith(seed) => forall s | s in AcceptedIn(before) :: s <= seed
      case Accepted(s) => s == LastTaken(before) + 1
      case Cleared(s) => s == LastTaken(before) + 1
      case MaintenanceEntered(s) => s == LastTaken(before) + 1
      case Entered(s) => Waiting(before) == Some(s)
      case Returned(s) => Running(before) == Some(s)
      case _ => true)
  }

  /** Command `s` has been running, and since its acceptance nothing hostile was heard, nor the link lost since its start. */
  predicate CleanSoFar(log: seq<Happening>, s: int) {
    LastAccepted(log) == Some(s) && Running(log) == Some(s) && !HostileSince(log, s) && !LostSince(log)
  }

  /** Reporting `s` as completed is true: it ran clean, or it was an in-order clear-latch or maintenance command. */
  predicate Justified(log: seq<Happening>, s: int) {
    log != [] && (
      || Justified(Before(log), s)
      || (Last(log) == Returned(s) && CleanSoFar(Before(log), s))
      || Last(log) == Cleared(s)
      || Last(log) == MaintenanceEntered(s))
  }

  lemma {:induction false} Grow(log: seq<Happening>, h: Happening)
    ensures Before(log + [h]) == log && Last(log + [h]) == h
  {
  }

  // ---------- the invariant ----------

  /** Between acceptance and the dispatcher's return. */
  predicate InWindow(r: Robot) {
    r.main.Moving? || (r.main.Publishing? && (r.main.next.AfterAccepted? || r.main.next.AfterRunning?))
  }

  ghost predicate WindowHolds(r: Robot, log: seq<Happening>) {
    InWindow(r) ==>
      && r.command.sequence == r.lastSequence > 0
      && !r.maintenanceRequested && (r.main.Moving? || r.main.next.AfterRunning? ==> r.motionActive)
      && r.command.opcode != OP_CLEAR_LATCH && r.command.opcode != OP_ENTER_MAINTENANCE
      && LastAccepted(log) == Some(r.lastSequence)
      && (r.latched <==> HostileSince(log, r.lastSequence))
      && (if r.main.Moving? then
            Running(log) == Some(r.lastSequence) && (r.linkLost <==> LostSince(log))
          else Waiting(log) == Some(r.lastSequence))
  }

  /** Whatever says completed is true. */
  ghost predicate CompletionsHold(r: Robot, log: seq<Happening>) {
    && (r.lastEvent == EVENT_COMPLETED ==> Justified(log, r.lastSequence))
    && (r.pendingCode == EVENT_COMPLETED ==> Justified(log, r.pendingSequence))
  }

  ghost predicate Truthful(m: Message, log: seq<Happening>) {
    match m
    case Hello(_, last, event, _) => event == EVENT_COMPLETED ==> Justified(log, last)
    case Event(_, s, code, _, _) => code == EVENT_COMPLETED ==> Justified(log, s)
    case Telemetry(_, _) => true
  }

  ghost predicate Good(r: Robot, log: seq<Happening>) {
    WellOrdered(log) && LastTaken(log) == r.lastSequence && WindowHolds(r, log) && CompletionsHold(r, log)
  }

  ghost predicate AllTruthful(sent: seq<Message>, log: seq<Happening>) {
    forall m | m in sent :: Truthful(m, log)
  }

  ghost predicate Holds(w: World) {
    Good(w.robot, w.log) && AllTruthful(w.sent, w.log)
  }

  lemma {:induction false} TruthStays(sent: seq<Message>, log: seq<Happening>, h: Happening)
    requires AllTruthful(sent, log)
    ensures AllTruthful(sent, log + [h])
  {
    Grow(log, h);
  }

  lemma {:induction false} StartHolds(session: int, seed: int)
    ensures Holds(FirstBoot(session, seed))
  {
    Grow([], BootedWith(seed));
  }

  lemma {:induction false} LoopHeadHolds(r: Robot, log: seq<Happening>)
    requires Good(r, log)
    ensures var t := LoopHead(r);
            t.sent == [] && |t.happened| <= 1 && Good(t.robot, log + t.happened)
  {
    var t := LoopHead(r);
    if t.happened == [] {
      assert log + t.happened == log;
    } else {
      var h := t.happened[0];
      assert t.happened == [h];
      if h.Rejected? {
        RejectionHolds(r, log);
      } else {
        TakingHolds(r, log);
      }
    }
  }

  lemma {:induction false} RejectionHolds(r: Robot, log: seq<Happening>)
    requires Good(r, log) && LoopHead(r).happened == [Rejected(r.command.sequence)]
    ensures Good(LoopHead(r).robot, log + [Rejected(r.command.sequence)])
  {
    Grow(log, Rejected(r.command.sequence));
  }

  lemma {:induction false} TakingHolds(r: Robot, log: seq<Happening>)
    requires Good(r, log) && |LoopHead(r).happened| == 1 && Taken(LoopHead(r).happened[0]).Some?
    ensures Good(LoopHead(r).robot, log + [LoopHead(r).happened[0]])
  {
    hide HostileSince, LostSince, Running;
    var h := LoopHead(r).happened[0];
    Grow(log, h);
    if h.Accepted? {
      FreshlyAccepted(log, h.sequence);
    }
  }

  lemma {:induction false} FreshlyAccepted(log: seq<Happening>, s: int)
    ensures !HostileSince(log + [Accepted(s)], s)
  {
    Grow(log, Accepted(s));
  }

  lemma {:induction false} DispatchHolds(r: Robot, log: seq<Happening>, setup: Setup)
    requires Good(r, log) && r.main.Publishing? && r.main.next.AfterRunning?
    ensures var t := Dispatch(r, setup);
            t.sent == [] && |t.happened| <= 1 && Good(t.robot, log + t.happened)
  {
    hide Known, Checksum;
    if Known(r.command, setup) {
      Grow(log, Entered(r.lastSequence));
    } else {
      assert log + [] == log;
    }
  }

  lemma {:induction false} NotInWindow(r: Robot)
    ensures r.main.Publishing? && !r.main.next.AfterAccepted? && !r.main.next.AfterRunning? ==> !InWindow(r)
  {
  }

  lemma {:induction false} ResumeHolds(r: Robot, log: seq<Happening>, setup: Setup)
    requires Good(r, log) && r.main.Publishing?
    ensures var t := Resume(r, r.main.next, setup);
            t.sent == [] && |t.happened| <= 1 && Good(t.robot, log + t.happened)
  {
    hide Good, LoopHead, Dispatch, Publish, InWindow;
    NotInWindow(r);
    assert log + [] == log;
    match r.main.next
    case AfterAccepted => RunningHolds(r, log);
    case AfterRunning => DispatchHolds(r, log, setup);
    case AfterUnknown => LoopHeadHolds(r, log);
    case AfterMaintenance =>
      ForgettingHolds(r, true, log);
      LoopHeadHolds(ForgetCommand(r).(maintenanceRequested := true), log);
    case _ =>
      ForgettingHolds(r, r.maintenanceRequested, log);
      LoopHeadHolds(ForgetCommand(r), log);
  }

  lemma {:induction false} RunningHolds(r: Robot, log: seq<Happening>)
    requires Good(r, log) && r.main.Publishing? && r.main.next.AfterAccepted?
    ensures Good(Publish(r.(motionActive := true, lastEvent := EVENT_RUNNING), r.command.sequence, EVENT_RUNNING, 0, AfterRunning), log)
  {
  }

  lemma {:induction false} ForgettingHolds(r: Robot, stopping: bool, log: seq<Happening>)
    requires Good(r, log) && !InWindow(r)
    ensures Good(ForgetCommand(r).(maintenanceRequested := stopping), log)
  {
  }

  lemma {:induction false} MainHolds(r: Robot, log: seq<Happening>, setup: Setup)
    requires Good(r, log)
    ensures var t := MainTurn(r, setup);
            t.sent == [] && |t.happened| <= 1 && Good(t.robot, log + t.happened)
  {
    hide Good, LoopHead, Resume;
    if r.main.Idle? {
      LoopHeadHolds(r, log);
    } else if r.main.Publishing? {
      ResumeHolds(r, log, setup);
    }
    assert log + [] == log;
  }

  lemma {:induction false} ReturnHolds(r: Robot, log: seq<Happening>)
    requires Good(r, log)
    ensures var t := MotionReturns(r);
            t.sent == [] && |t.happened| <= 1 && Good(t.robot, log + t.happened)
  {
    if r.main.Moving? {
      Grow(log, Returned(r.lastSequence));
    } else {
      assert log + [] == log;
    }
  }

  lemma {:induction false} TakeFrameHolds(r: Robot, log: seq<Happening>, words: seq<int>)
    requires |words| == 9 && Good(r, log)
    ensures Good(TakeFrame(r, words), log + [Heard(words)])
  {
    hide GoodFrame, Checksum, IncomingCommand, Good;
    if !GoodFrame(words) {
      DisturbanceHolds(r, log, words, FAULT_BAD_FRAME);
    } else {
      var heard := r.(missedHeartbeats := 0);
      if words[1] == KIND_COMMAND {
        CommandHeardHolds(r, log, words);
      } else if words[1] != KIND_HEARTBEAT {
        DisturbanceHolds(heard, log, words, FAULT_UNEXPECTED_KIND) by { HeartbeatCounts(r, log); }
      } else {
        HeartbeatHolds(r, log, words);
      }
    }
  }

  lemma {:induction false} HeartbeatCounts(r: Robot, log: seq<Happening>)
    requires Good(r, log)
    ensures Good(r.(missedHeartbeats := 0), log)
  {
  }

  lemma {:induction false} HeartbeatHolds(r: Robot, log: seq<Happening>, words: seq<int>)
    requires |words| == 9 && Good(r, log) && GoodFrame(words) && words[1] == KIND_HEARTBEAT
    ensures Good(r.(missedHeartbeats := 0), log + [Heard(words)])
  {
    hide GoodFrame;
    Grow(log, Heard(words));
  }

  lemma {:induction false} DisturbanceHolds(r: Robot, log: seq<Happening>, words: seq<int>, fault: int)
    requires |words| == 9 && Good(r, log) && Hostile(words, r.lastSequence)
    ensures Good(r.(latched := true, lastFault := fault), log + [Heard(words)])
  {
    hide Hostile;
    Grow(log, Heard(words));
  }

  lemma {:induction false} CommandHeardHolds(r: Robot, log: seq<Happening>, words: seq<int>)
    requires |words| == 9 && Good(r, log) && GoodFrame(words) && words[1] == KIND_COMMAND
    ensures Good(IncomingCommand(r.(missedHeartbeats := 0), Command(words[3], words[4], words[5], words[6], words[7])), log + [Heard(words)])
  {
    hide GoodFrame;
    Grow(log, Heard(words));
  }

  lemma {:induction false} QuietHappening(r: Robot, log: seq<Happening>, missed: nat)
    requires Good(r, log)
    ensures Good(r.(missedHeartbeats := missed), log + [Silence])
    ensures Good(r.(linkLost := true, connected := false), log + [LinkLost])
  {
    Grow(log, Silence);
    Grow(log, LinkLost);
  }

  lemma {:induction false} SendPendingHolds(r: Robot, log: seq<Happening>)
    requires Good(r, log)
    ensures Good(SendPending(r).0, log) && AllTruthful(SendPending(r).1, log)
  {
  }

  lemma {:induction false} DropLinkHolds(r: Robot, setup: Setup, log: seq<Happening>, h: Happening,
        sent: seq<Message>, earlier: seq<Message>)
    requires Good(r, log + [h]) && AllTruthful(earlier + sent, log + [h])
    ensures var t := DropLink(r, setup, [h], sent);
            t.sent == sent && Good(t.robot, log + t.happened) && AllTruthful(earlier + sent, log + t.happened)
  {
    hide Good, AllTruthful;
    if r.missedHeartbeats >= setup.heartbeatMissLimit {
      QuietHappening(r, log + [h], 0);
      TruthStays(earlier + sent, log + [h], LinkLost);
      assert log + ([h] + [LinkLost]) == log + [h] + [LinkLost];
    }
  }

  lemma {:induction false} FrameReadHolds(r: Robot, log: seq<Happening>, words: seq<int>)
    requires |words| == 9 && Good(r, log)
    ensures var (sender, events) := SendPending(TakeFrame(r, words));
            && Good(sender, log + [Heard(words)])
            && AllTruthful(events + [Telemetry(sender.session, sender.lastSequence)], log + [Heard(words)])
  {
    hide Good, TakeFrame, SendPending, Truthful;
    TakeFrameHolds(r, log, words);
    SendPendingHolds(TakeFrame(r, words), log + [Heard(words)]);
    var sender := SendPending(TakeFrame(r, words)).0;
    TelemetryIsTruthful(sender, log + [Heard(words)]);
  }

  lemma {:induction false} BothTruthful(earlier: seq<Message>, sent: seq<Message>, log: seq<Happening>)
    requires AllTruthful(earlier, log) && AllTruthful(sent, log)
    ensures AllTruthful(earlier + sent, log)
  {
    hide Truthful;
  }

  lemma {:induction false} ReadHolds(w: World, words: seq<int>, setup: Setup)
    requires Holds(w)
    ensures Holds(Step(w, SocketReads(words), setup))
  {
    hide Good, TakeFrame, SendPending, AllTruthful, DropLink;
    var r := w.robot;
    if r.main.Stopped? || !r.connected {
      assert w.log + [] == w.log && w.sent + [] == w.sent;
    } else if |words| == 9 {
      FrameReadHolds(r, w.log, words);
      var (sender, events) := SendPending(TakeFrame(r, words));
      TruthStays(w.sent, w.log, Heard(words));
      BothTruthful(w.sent, events + [Telemetry(sender.session, sender.lastSequence)], w.log + [Heard(words)]);
      DropLinkHolds(sender, setup, w.log, Heard(words), events + [Telemetry(sender.session, sender.lastSequence)], w.sent);
    } else {
      QuietHappening(r, w.log, r.missedHeartbeats + 1);
      TruthStays(w.sent, w.log, Silence);
      assert w.sent + [] == w.sent;
      DropLinkHolds(r.(missedHeartbeats := r.missedHeartbeats + 1), setup, w.log, Silence, [], w.sent);
    }
  }

  lemma {:induction false} TelemetryIsTruthful(r: Robot, log: seq<Happening>)
    ensures Truthful(Telemetry(r.session, r.lastSequence), log)
  {
  }

  lemma {:induction false} ConnectHolds(w: World, ok: bool, setup: Setup)
    requires Holds(w)
    ensures Holds(Step(w, SocketOpens(ok), setup))
  {
    assert w.log + [] == w.log;
  }

  lemma {:induction false} MainStepHolds(w: World, t: Turned)
    requires Holds(w) && t.sent == [] && |t.happened| <= 1 && Good(t.robot, w.log + t.happened)
    ensures Holds(Extend(w, t))
  {
    hide Good, AllTruthful;
    assert w.sent + t.sent == w.sent;
    if t.happened == [] {
      assert w.log + t.happened == w.log;
    } else {
      assert t.happened == [t.happened[0]];
      TruthStays(w.sent, w.log, t.happened[0]);
    }
  }

  lemma {:induction false} StepHolds(w: World, a: Action, setup: Setup)
    requires Holds(w) && Allowed(w, a)
    ensures Holds(Step(w, a, setup))
  {
    match a
    case MainRuns =>
      MainHolds(w.robot, w.log, setup);
      MainStepHolds(w, MainTurn(w.robot, setup));
    case MotionEnds =>
      ReturnHolds(w.robot, w.log);
      MainStepHolds(w, MotionReturns(w.robot));
    case SocketOpens(ok) => ConnectHolds(w, ok, setup);
    case SocketReads(words) => ReadHolds(w, words, setup);
    case Reboot(session, seed) =>
      RestartIsGood(w.robot, w.log, session, seed);
      TruthStays(w.sent, w.log, BootedWith(seed));
      hide Good, AllTruthful;
  }

  lemma {:induction false} RestartIsGood(r: Robot, log: seq<Happening>, session: int, seed: int)
    requires Good(r, log) && forall s | s in AcceptedIn(log) :: s <= seed
    ensures Good(Booted(session, seed), log + [BootedWith(seed)])
  {
    Grow(log, BootedWith(seed));
  }

  lemma {:induction false} RunHolds(w: World, actions: seq<Action>, setup: Setup)
    requires Holds(w) && AllAllowed(w, actions, setup)
    ensures Holds(Run(w, actions, setup))
    decreases |actions|
  {
    if actions != [] {
      StepHolds(w, actions[0], setup);
      RunHolds(Step(w, actions[0], setup), actions[1..], setup);
    }
  }
}
