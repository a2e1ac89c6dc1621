/** What the robot's invariant means, for every run of the supervisor program. */
module RobotTheorems {
  import opened Outcomes
  import opened Frames
  import opened RobotProgram
  import opened RobotSafety
  import opened RobotLinks

  predicate StrictlyIncreasing(s: seq<int>) {
    forall i, j | 0 <= i < j < |s| :: s[i] < s[j]
  }

  predicate AllAtMost(s: seq<int>, bound: int) {
    forall x | x in s :: x <= bound
  }

  lemma {:induction false} AppendLarger(s: seq<int>, bound: int, x: int)
    requires StrictlyIncreasing(s) && AllAtMost(s, bound) && bound < x
    ensures StrictlyIncreasing(s + [x]) && AllAtMost(s + [x], x)
  {
    forall i | 0 <= i < |s|
      ensures s[i] < x
    {
      assert s[i] in s;
    }
  }

  // ---------- at most once ----------

  lemma {:induction false} AcceptedIncrease(log: seq<Happening>)
    requires WellOrdered(log)
    ensures StrictlyIncreasing(AcceptedIn(log)) && (AcceptedIn(log) != [] ==> AllAtMost(AcceptedIn(log), LastTaken(log)))
    decreases |log|
  {
    if log != [] {
      var before := Before(log);
      AcceptedIncrease(before);
      if Taken(Last(log)).Some? {
        AppendLarger(AcceptedIn(before), LastTaken(before), LastTaken(log));
      }
    }
  }

  /** A command waits for the dispatcher only right after it was taken, and nothing entered before it is as late. */
  lemma {:induction false} EnteredIncrease(log: seq<Happening>)
    requires WellOrdered(log)
    ensures StrictlyIncreasing(EnteredIn(log))
    ensures forall x | x in EnteredIn(log) :: x in AcceptedIn(log)
    ensures Waiting(log).Some? ==>
              && Waiting(log).value in AcceptedIn(log)
              && Waiting(log).value == LastTaken(log)
              && forall x | x in EnteredIn(log) :: x < Waiting(log).value
    decreases |log|
  {
    if log != [] {
      var before := Before(log);
      EnteredIncrease(before);
      AcceptedIncrease(before);
      match Last(log)
      case Entered(s) => AppendLarger(EnteredIn(before), s - 1, s);
      case _ =>
    }
  }

  /** Whatever arrives, and across restarts seeded no lower than what was accepted: each sequence enters the dispatcher at most once. */
  lemma {:induction false} DispatchedAtMostOnce(session: int, seed: int, actions: seq<Action>, setup: Setup)
    requires AllAllowed(FirstBoot(session, seed), actions, setup)
    ensures var w := Run(FirstBoot(session, seed), actions, setup);
            && StrictlyIncreasing(AcceptedIn(w.log))
            && StrictlyIncreasing(EnteredIn(w.log))
            && forall s | s in EnteredIn(w.log) :: s in AcceptedIn(w.log)
  {
    StartHolds(session, seed);
    RunHolds(FirstBoot(session, seed), actions, setup);
    var w := Run(FirstBoot(session, seed), actions, setup);
    AcceptedIncrease(w.log);
    EnteredIncrease(w.log);
  }

  function SeedOf(log: seq<Happening>): int {
    if log == [] then 0 else if Last(log).BootedWith? then Last(log).seed else SeedOf(Before(log))
  }

  function AcceptedSinceBoot(log: seq<Happening>): seq<int> {
    if log == [] || Last(log).BootedWith? then [] else
      AcceptedSinceBoot(Before(log)) + (if Taken(Last(log)).Some? then [Taken(Last(log)).value] else [])
  }

  lemma {:induction false} SinceBootIsConsecutive(log: seq<Happening>)
    requires WellOrdered(log)
    ensures var taken := AcceptedSinceBoot(log);
            && LastTaken(log) == SeedOf(log) + |taken|
            && forall i | 0 <= i < |taken| :: taken[i] == SeedOf(log) + 1 + i
    decreases |log|
  {
    if log != [] && !Last(log).BootedWith? {
      SinceBootIsConsecutive(Before(log));
    }
  }

  /** Since its last start the program has taken exactly the sequences after its seed, in order, up to its last one. */
  lemma {:induction false} AcceptedInOrder(session: int, seed: int, actions: seq<Action>, setup: Setup)
    requires AllAllowed(FirstBoot(session, seed), actions, setup)
    ensures var w := Run(FirstBoot(session, seed), actions, setup);
            var taken := AcceptedSinceBoot(w.log);
            && w.robot.lastSequence == SeedOf(w.log) + |taken|
            && forall i | 0 <= i < |taken| :: taken[i] == SeedOf(w.log) + 1 + i
  {
    StartHolds(session, seed);
    RunHolds(FirstBoot(session, seed), actions, setup);
    SinceBootIsConsecutive(Run(FirstBoot(session, seed), actions, setup).log);
  }

  // ---------- what completed means ----------

  /**
   `s` was accepted at `i`, entered the dispatcher at `e` and returned at `k`, undisturbed, and while it ran there were
   never as many silent reads in a row as the limit.
   */
  predicate RanClean(log: seq<Happening>, limit: nat, s: int, i: nat, e: nat, k: nat) {
    && i < e < k < |log|
    && log[i] == Accepted(s) && log[e] == Entered(s) && log[k] == Returned(s)
    && (forall j | i < j < k :: !(log[j].Heard? && Hostile(log[j].words, s)))
    && (forall j | e < j < k :: log[j] != LinkLost)
    && (limit > 0 ==> !SilentFrom(log, limit, e + 1, k))
    && (forall j | i < j < k :: !log[j].Accepted? && !log[j].BootedWith?)
  }

  predicate ControlTaken(log: seq<Happening>, s: int) {
    Cleared(s) in log || MaintenanceEntered(s) in log
  }

  lemma {:induction false} LastAcceptedAt(log: seq<Happening>, s: int) returns (i: nat)
    requires LastAccepted(log) == Some(s)
    ensures i < |log| && log[i] == Accepted(s)
    ensures forall j | i < j < |log| :: !log[j].Accepted?
    ensures !HostileSince(log, s) ==> forall j | i < j < |log| :: !(log[j].Heard? && Hostile(log[j].words, s))
    decreases |log|
  {
    if Last(log).Accepted? {
      i := |log| - 1;
    } else {
      i := LastAcceptedAt(Before(log), s);
    }
  }

  lemma {:induction false} RunningAt(log: seq<Happening>, s: int) returns (e: nat)
    requires Running(log) == Some(s)
    ensures e < |log| && log[e] == Entered(s)
    ensures !LostSince(log) ==> forall j | e < j < |log| :: log[j] != LinkLost
    ensures forall j | e < j < |log| :: !log[j].BootedWith?
    decreases |log|
  {
    if Last(log).Entered? {
      e := |log| - 1;
    } else {
      e := RunningAt(Before(log), s);
    }
  }

  lemma {:induction false} WellOrderedAt(log: seq<Happening>, k: nat)
    requires WellOrdered(log) && k <= |log|
    ensures WellOrdered(log[..k])
    decreases |log|
  {
    if k < |log| {
      WellOrderedAt(Before(log), k);
      assert Before(log)[..k] == log[..k];
    } else {
      assert log[..k] == log;
    }
  }

  /** A waiting command was accepted since the last start. */
  lemma {:induction false} WaitingAt(log: seq<Happening>, s: int) returns (i: nat)
    requires Waiting(log) == Some(s)
    ensures i < |log| && log[i] == Accepted(s)
    ensures forall j | i < j < |log| :: !log[j].Accepted? && !log[j].BootedWith?
    decreases |log|
  {
    if Last(log).Accepted? {
      i := |log| - 1;
    } else {
      i := WaitingAt(Before(log), s);
    }
  }

  lemma {:induction false} RanCleanStays(log: seq<Happening>, limit: nat, s: int, i: nat, e: nat, k: nat)
    requires log != [] && RanClean(Before(log), limit, s, i, e, k)
    ensures RanClean(log, limit, s, i, e, k)
  {
    hide Hostile;
  }

  lemma {:induction false} JustReturned(log: seq<Happening>, limit: nat, s: int)
    requires WellOrdered(log) && log != [] && Last(log) == Returned(s) && CleanSoFar(Before(log), s)
    requires limit > 0 ==> LossesExact(log, limit)
    ensures exists i, e, k :: RanClean(log, limit, s, i, e, k)
  {
    hide LossesExact, Hostile, HostileSince, LostSince, Running, Waiting, LastAccepted, SilentFrom;
    var before := Before(log);
    var i := LastAcceptedAt(before, s);
    var e := RunningAt(before, s);
    WellOrderedAt(before, e + 1);
    assert Last(before[..e + 1]) == Entered(s) && Before(before[..e + 1]) == before[..e];
    var w := WaitingAt(before[..e], s);
    assert before[w] == Accepted(s) && w <= i;
    AcceptedOnce(before, s, w, i);
    hide WellOrdered;
    if limit > 0 {
      NoLossNoSilence(log, limit, e + 1, |log| - 1);
    }
    assert RanClean(log, limit, s, i, e, |log| - 1);
  }

  lemma {:induction false} JustifiedMeans(log: seq<Happening>, limit: nat, s: int)
    requires WellOrdered(log) && Justified(log, s) && (limit > 0 ==> LossesExact(log, limit))
    ensures ControlTaken(log, s) || exists i, e, k :: RanClean(log, limit, s, i, e, k)
    decreases |log|
  {
    hide LossesExact, RanClean;
    var before := Before(log);
    if limit > 0 {
      ShorterExact(log, limit);
    }
    if Justified(before, s) {
      JustifiedMeans(before, limit, s);
      if i, e, k :| RanClean(before, limit, s, i, e, k) {
        RanCleanStays(log, limit, s, i, e, k);
      }
    } else if Last(log) == Returned(s) && CleanSoFar(before, s) {
      JustReturned(log, limit, s);
    }
  }

  lemma {:induction false} ShorterExact(log: seq<Happening>, limit: nat)
    requires log != [] && LossesExact(log, limit)
    ensures LossesExact(Before(log), limit)
  {
    hide SilentReads;
    forall k | 0 <= k < |log| - 1
      ensures log[k] == LinkLost <==> SilentReads(Before(log)[..k]) >= limit
    {
      assert Before(log)[..k] == log[..k];
    }
  }

  /** A sequence is not accepted twice. */
  lemma {:induction false} AcceptedOnce(log: seq<Happening>, s: int, w: nat, i: nat)
    requires WellOrdered(log) && w <= i < |log|
    requires log[w] == Accepted(s) && log[i] == Accepted(s)
    ensures w == i
  {
    if w < i {
      WellOrderedAt(log, i + 1);
      assert Last(log[..i + 1]) == Accepted(s) && Before(log[..i + 1]) == log[..i];
      AcceptedIncrease(log[..i]);
      TakenIsListed(log[..i], w);
    }
  }

  lemma {:induction false} TakenIsListed(log: seq<Happening>, w: nat)
    requires w < |log| && Taken(log[w]).Some?
    ensures Taken(log[w]).value in AcceptedIn(log)
    decreases |log|
  {
    if w < |log| - 1 {
      TakenIsListed(Before(log), w);
    }
  }

  /**
   Every COMPLETED event the robot ever sends is true: the dispatcher returned for exactly that sequence
   with no hostile frame heard since its acceptance and no link loss during the move, or the sequence was
   an in-order clear-latch or maintenance command.
   */
  lemma {:induction false} CompletedIsTrue(session: int, seed: int, actions: seq<Action>, setup: Setup, m: Message)
    requires AllAllowed(FirstBoot(session, seed), actions, setup)
    requires m in Run(FirstBoot(session, seed), actions, setup).sent && m.Event? && m.code == EVENT_COMPLETED
    ensures var log := Run(FirstBoot(session, seed), actions, setup).log;
            ControlTaken(log, m.sequence) || exists i, e, k :: RanClean(log, setup.heartbeatMissLimit, m.sequence, i, e, k)
  {
    StartHolds(session, seed);
    RunHolds(FirstBoot(session, seed), actions, setup);
    var w := Run(FirstBoot(session, seed), actions, setup);
    assert Truthful(m, w.log);
    if setup.heartbeatMissLimit > 0 {
      LinkLossIsExact(session, seed, actions, setup);
    }
    JustifiedMeans(w.log, setup.heartbeatMissLimit, m.sequence);
  }

  /** When the dispatched function returns, the outcome published is COMPLETED exactly when nothing disturbed it. */
  lemma {:induction false} OutcomeIsExact(w: World, setup: Setup)
    requires Holds(w) && w.robot.main.Moving?
    ensures var after := Step(w, MotionEnds, setup).robot;
            var s := w.robot.lastSequence;
            && LastAccepted(w.log) == Some(s) && Running(w.log) == Some(s)
            && after.main == Publishing(s, after.lastEvent, AfterOutcome)
            && (after.lastEvent == EVENT_COMPLETED <==> !HostileSince(w.log, s) && !LostSince(w.log))
            && (after.lastEvent == EVENT_LATCHED <==> after.latched)
            && (after.lastEvent == EVENT_COMPLETED || after.lastEvent == EVENT_LATCHED)
  {
  }

  // ---------- steps ----------

  /** While a command is in flight nothing overwrites its registers. */
  lemma {:induction false} InFlightCommandIsKept(w: World, a: Action, setup: Setup)
    requires w.robot.InFlight() && !a.Reboot?
    ensures KeptOrForgotten(w.robot.command, Step(w, a, setup).robot.command)
  {
    match a
    case MainRuns => MainKeepsCommand(w.robot, setup);
    case MotionEnds =>
    case SocketOpens(ok) =>
    case SocketReads(words) =>
      if |words| == 9 {
        FrameKeepsCommand(w.robot, words);
      }
  }

  predicate KeptOrForgotten(before: Command, after: Command) {
    after == before || after == before.(sequence := 0)
  }

  lemma {:induction false} FrameKeepsCommand(r: Robot, words: seq<int>)
    requires |words| == 9
    ensures r.InFlight() ==> TakeFrame(r, words).command == r.command
    ensures r.latched ==> TakeFrame(r, words).latched
    ensures TakeFrame(r, words).main == r.main && TakeFrame(r, words).motionActive == r.motionActive
    ensures TakeFrame(r, words).lastSequence == r.lastSequence && TakeFrame(r, words).maintenanceRequested == r.maintenanceRequested
  {
    hide GoodFrame;
  }

  lemma {:induction false} MainKeepsCommand(r: Robot, setup: Setup)
    ensures KeptOrForgotten(r.command, MainTurn(r, setup).robot.command)
  {
    hide Known;
    HeadKeepsCommand(r);
    HeadKeepsCommand(ForgetCommand(r));
    HeadKeepsCommand(ForgetCommand(r).(maintenanceRequested := true));
    hide LoopHead;
  }

  lemma {:induction false} HeadKeepsCommand(r: Robot)
    ensures LoopHead(r).robot.command == r.command
  {
  }

  /** A latch, once set, is cleared only by the clear-latch command that comes next in order. */
  lemma {:induction false} LatchStays(w: World, a: Action, setup: Setup)
    requires Holds(w) && !a.Reboot?
    requires w.robot.latched && !Step(w, a, setup).robot.latched
    ensures a == MainRuns && ClearsInOrder(w.robot, MainTurn(w.robot, setup))
  {
    match a
    case MainRuns => MainKeepsLatch(w, setup);
    case MotionEnds =>
    case SocketOpens(ok) =>
    case SocketReads(words) =>
      if |words| == 9 {
        FrameKeepsCommand(w.robot, words);
      }
  }

  predicate ClearsInOrder(r: Robot, t: Turned) {
    && t.happened == [Cleared(r.lastSequence + 1)]
    && r.command.opcode == OP_CLEAR_LATCH && r.command.sequence == r.lastSequence + 1
  }

  lemma {:induction false} MainKeepsLatch(w: World, setup: Setup)
    requires Holds(w)
    ensures w.robot.latched && !MainTurn(w.robot, setup).robot.latched ==> ClearsInOrder(w.robot, MainTurn(w.robot, setup))
  {
    hide Known, WellOrdered, CompletionsHold, AllTruthful;
    HeadKeepsLatch(w.robot);
    HeadKeepsLatch(ForgetCommand(w.robot));
    HeadKeepsLatch(ForgetCommand(w.robot).(maintenanceRequested := true));
    hide LoopHead;
  }

  lemma {:induction false} HeadKeepsLatch(r: Robot)
    ensures r.latched && !LoopHead(r).robot.latched ==> ClearsInOrder(r, LoopHead(r)) && r.command.sequence > 0
  {
  }

  /** The dispatcher's own branches for clear-latch and maintenance are never taken. */
  lemma {:induction false} DispatchedIsNeverControl(w: World, setup: Setup, s: int)
    requires Holds(w) && Entered(s) in MainTurn(w.robot, setup).happened
    ensures w.robot.command.opcode != OP_CLEAR_LATCH && w.robot.command.opcode != OP_ENTER_MAINTENANCE
    ensures w.robot.command.sequence == s && Known(w.robot.command, setup)
    ensures MainTurn(w.robot, setup).robot.main.Moving?
  {
    hide WellOrdered, CompletionsHold, AllTruthful, Known;
  }

  // ---------- a latch does not stop a command already accepted ----------

  /** A hostile frame was heard at `j`, and no command has been accepted since. */
  predicate HostileAt(log: seq<Happening>, s: int, j: nat) {
    && j < |log| && log[j].Heard? && Hostile(log[j].words, s)
    && forall k | j < k < |log| :: !log[k].Accepted?
  }

  lemma {:induction false} HostileSinceAt(log: seq<Happening>, s: int) returns (j: nat)
    requires HostileSince(log, s)
    ensures HostileAt(log, s, j)
    decreases |log|
  {
    hide Hostile;
    if Last(log).Heard? && Hostile(Last(log).words, s) {
      j := |log| - 1;
    } else {
      j := HostileSinceAt(Before(log), s);
    }
  }

  lemma {:induction false} HostileAtIsSince(log: seq<Happening>, s: int, j: nat)
    requires HostileAt(log, s, j)
    ensures HostileSince(log, s)
    decreases |log|
  {
    hide Hostile;
    if j < |log| - 1 {
      HostileAtIsSince(Before(log), s, j);
    }
  }

  lemma {:induction false} HostileSinceMeans(log: seq<Happening>, s: int)
    ensures HostileSince(log, s) <==> exists j :: HostileAt(log, s, j)
  {
    hide HostileSince, HostileAt;
    if HostileSince(log, s) {
      var j := HostileSinceAt(log, s);
    }
    forall j: nat | HostileAt(log, s, j)
      ensures HostileSince(log, s)
    {
      HostileAtIsSince(log, s, j);
    }
  }

  /**
   A motion starts with the latch set exactly when a hostile frame was heard between its command's acceptance and its
   start: the dispatcher does not look at the latch.
   */
  lemma {:induction false} StartsLatchedIff(w: World, setup: Setup, s: int)
    requires Holds(w) && Entered(s) in MainTurn(w.robot, setup).happened
    ensures LastAccepted(w.log) == Some(s)
    ensures Step(w, MainRuns, setup).robot.latched <==> exists j :: HostileAt(w.log, s, j)
  {
    HostileSinceMeans(w.log, s);
    hide WellOrdered, CompletionsHold, AllTruthful, Known, HostileSince, HostileAt, LoopHead, ForgetCommand;
    HeadDoesNotEnter(w.robot);
    HeadDoesNotEnter(ForgetCommand(w.robot));
    HeadDoesNotEnter(ForgetCommand(w.robot).(maintenanceRequested := true));
  }

  lemma {:induction false} HeadDoesNotEnter(r: Robot)
    ensures forall h | h in LoopHead(r).happened :: !h.Entered?
  {
  }

  // ---------- an opcode the dispatcher does not know ----------

  /** Motion is marked active with no motion running, and no command but the last one is held. */
  predicate Wedged(r: Robot) {
    && r.motionActive && !r.maintenanceRequested
    && (r.command.sequence <= 0 || r.command.sequence == r.lastSequence)
    && (r.main.Idle? || (r.main.Publishing? && (r.main.next.AfterUnknown? || r.main.next.AfterDuplicate?)))
  }

  /** Dispatching leaves the robot wedged exactly when the opcode and argument are unknown. */
  lemma {:induction false} UnknownOpcodeWedges(w: World, setup: Setup)
    requires Holds(w) && w.robot.main.Publishing? && w.robot.main.next.AfterRunning?
    ensures Wedged(Dispatch(w.robot, setup).robot) <==> !Known(w.robot.command, setup)
  {
  }

  /** Wedged is for good: short of a restart no command is taken or dispatched, not even a clear-latch. */
  lemma {:induction false} WedgedForGood(w: World, a: Action, setup: Setup)
    requires Wedged(w.robot) && !a.Reboot?
    ensures var after := Step(w, a, setup);
            && Wedged(after.robot)
            && after.robot.lastSequence == w.robot.lastSequence
            && AcceptedIn(after.log) == AcceptedIn(w.log) && EnteredIn(after.log) == EnteredIn(w.log)
  {
    hide MainTurn, Read, Wedged;
    var t: Turned;
    match a {
      case MainRuns =>
        WedgedMain(w.robot, setup);
        t := MainTurn(w.robot, setup);
      case MotionEnds =>
        WedgedElsewhere(w.robot, true);
        t := MotionReturns(w.robot);
      case SocketOpens(ok) =>
        WedgedElsewhere(w.robot, ok);
        t := Connect(w.robot, ok);
      case SocketReads(words) =>
        WedgedRead(w.robot, setup, words);
        t := Read(w.robot, setup, words);
    }
    NothingTaken(w.log, t.happened);
  }

  lemma {:induction false} WedgedMain(r: Robot, setup: Setup)
    requires Wedged(r)
    ensures var t := MainTurn(r, setup);
            Wedged(t.robot) && t.robot.lastSequence == r.lastSequence && t.happened == []
  {
  }

  lemma {:induction false} WedgedElsewhere(r: Robot, ok: bool)
    requires Wedged(r)
    ensures MotionReturns(r) == Quiet(r)
    ensures Wedged(Connect(r, ok).robot) && Connect(r, ok).robot.lastSequence == r.lastSequence && Connect(r, ok).happened == []
  {
  }

  lemma {:induction false} WedgedRead(r: Robot, setup: Setup, words: seq<int>)
    requires Wedged(r)
    ensures var t := Read(r, setup, words);
            && Wedged(t.robot) && t.robot.lastSequence == r.lastSequence
            && forall h | h in t.happened :: Taken(h).None? && !h.Entered?
  {
    if |words| == 9 {
      FrameKeepsCommand(r, words);
      hide TakeFrame;
    }
  }

  lemma {:induction false} NothingTaken(log: seq<Happening>, more: seq<Happening>)
    requires forall h | h in more :: Taken(h).None? && !h.Entered?
    ensures AcceptedIn(log + more) == AcceptedIn(log) && EnteredIn(log + more) == EnteredIn(log)
    decreases |more|
  {
    if more == [] {
      assert log + more == log;
    } else {
      assert Last(more) in more;
      NothingTaken(log, Before(more));
      assert Before(log + more) == log + Before(more);
    }
  }
}
