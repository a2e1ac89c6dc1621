/** Which seeds are high enough: the last sequence of a restart against the sequences already dispatched. */
module RobotSeeds {
  import opened Outcomes
  import opened Frames
  import opened RobotProgram
  import opened RobotSafety
  import opened RobotTheorems
  import opened RobotRuns

  // ---------- high enough ----------

  /** A command has been accepted and may still be dispatched. */
  predicate Undispatched(r: Robot) {
    r.main.Publishing? && (r.main.next.AfterAccepted? || r.main.next.AfterRunning?)
  }

  /** Sequences were dispatched in increasing order, and the next one will be greater. */
  ghost predicate EntriesHold(r: Robot, log: seq<Happening>) {
    && StrictlyIncreasing(EnteredIn(log)) && AllAtMost(EnteredIn(log), r.lastSequence)
    && (Undispatched(r) ==> AllAtMost(EnteredIn(log), r.lastSequence - 1))
  }

  /** A restart is seeded with at least the last sequence dispatched. */
  predicate SeedCovers(w: World, a: Action) {
    a.Reboot? ==> AllAtMost(EnteredIn(w.log), a.seed)
  }

  predicate AllCovered(w: World, actions: seq<Action>, setup: Setup)
    decreases |actions|
  {
    actions == [] || (SeedCovers(w, actions[0]) && AllCovered(Step(w, actions[0], setup), actions[1..], setup))
  }

  lemma {:induction false} NoEntryHolds(r: Robot, next: Robot, log: seq<Happening>, h: Happening)
    requires EntriesHold(r, log) && !h.Entered? && next.lastSequence >= r.lastSequence
    requires Undispatched(next) ==> next.lastSequence > r.lastSequence || Undispatched(r)
    ensures EntriesHold(next, log + [h]) && EntriesHold(next, log)
  {
    Grow(log, h);
    assert EnteredIn(log) + [] == EnteredIn(log);
  }

  lemma {:induction false} HeadEntries(r: Robot, log: seq<Happening>)
    requires EntriesHold(r, log)
    ensures EntriesHold(LoopHead(r).robot, log + LoopHead(r).happened)
  {
    hide EntriesHold;
    var t := LoopHead(r);
    if t.happened == [] {
      assert log + t.happened == log;
      NoEntryHolds(r, t.robot, log, Silence);
    } else {
      assert t.happened == [t.happened[0]];
      NoEntryHolds(r, t.robot, log, t.happened[0]);
    }
  }

  lemma {:induction false} DispatchEntries(r: Robot, log: seq<Happening>, setup: Setup)
    requires EntriesHold(r, log) && Undispatched(r)
    ensures EntriesHold(Dispatch(r, setup).robot, log + Dispatch(r, setup).happened)
  {
    hide Known, EnteredIn;
    var s := r.lastSequence;
    if Known(r.command, setup) {
      EnteredNext(log, s);
      AppendLarger(EnteredIn(log), s - 1, s);
    } else {
      assert log + [] == log;
    }
  }

  lemma {:induction false} ForgettingEntries(r: Robot, stopping: bool, log: seq<Happening>)
    requires EntriesHold(r, log)
    ensures EntriesHold(ForgetCommand(r).(maintenanceRequested := stopping), log)
    ensures EntriesHold(ForgetCommand(r), log)
  {
    hide EnteredIn;
  }

  lemma {:induction false} ResumeEntries(r: Robot, next: Then, log: seq<Happening>, setup: Setup)
    requires EntriesHold(r, log) && r.main.Publishing? && r.main.next == next
    ensures EntriesHold(Resume(r, next, setup).robot, log + Resume(r, next, setup).happened)
  {
    hide EntriesHold, LoopHead, Dispatch, ForgetCommand;
    match next
    case AfterMaintenance =>
      ForgettingEntries(r, true, log);
      HeadEntries(ForgetCommand(r).(maintenanceRequested := true), log);
    case AfterAccepted =>
      assert log + [] == log;
      NoEntryHolds(r, Resume(r, next, setup).robot, log, Silence);
    case AfterRunning => DispatchEntries(r, log, setup);
    case AfterUnknown => HeadEntries(r, log);
    case _ =>
      ForgettingEntries(r, true, log);
      HeadEntries(ForgetCommand(r), log);
  }

  lemma {:induction false} MainEntries(r: Robot, log: seq<Happening>, setup: Setup)
    requires EntriesHold(r, log)
    ensures EntriesHold(MainTurn(r, setup).robot, log + MainTurn(r, setup).happened)
  {
    assert log + [] == log;
    hide EntriesHold, LoopHead, Resume;
    match r.main
    case Idle => HeadEntries(r, log);
    case Publishing(_, _, next) => ResumeEntries(r, next, log, setup);
    case _ =>
  }

  lemma {:induction false} ReadEntries(r: Robot, log: seq<Happening>, setup: Setup, words: seq<int>)
    requires EntriesHold(r, log)
    ensures EntriesHold(Read(r, setup, words).robot, log + Read(r, setup, words).happened)
  {
    ReadKeepsPlace(r, setup, words);
    hide Read, EntriesHold, Undispatched;
    var t := Read(r, setup, words);
    if t.happened == [] {
      assert log + t.happened == log;
    } else {
      var first := t.happened[0];
      SamePlace(r, t.robot, log, first);
      SamePlace(t.robot, t.robot, log + [first], LinkLost);
      assert log + [first] == log + t.happened || log + [first] + [LinkLost] == log + t.happened;
    }
  }

  lemma {:induction false} SamePlace(r: Robot, next: Robot, log: seq<Happening>, h: Happening)
    requires EntriesHold(r, log) && !h.Entered? && next.lastSequence == r.lastSequence && next.main == r.main
    ensures EntriesHold(next, log + [h])
  {
    hide EntriesHold;
    NoEntryHolds(r, next, log, h);
  }

  lemma {:induction false} ReadKeepsPlace(r: Robot, setup: Setup, words: seq<int>)
    ensures var t := Read(r, setup, words);
            && t.robot.lastSequence == r.lastSequence && t.robot.main == r.main
            && (t.happened == [] ==> t.robot == r)
            && (t.happened == [] || |t.happened| == 1 || (|t.happened| == 2 && t.happened[1] == LinkLost))
            && forall h | h in t.happened :: !h.Entered?
  {
    if |words| == 9 {
      FrameKeepsCommand(r, words);
      hide TakeFrame;
    }
  }

  lemma {:induction false} StepEntries(w: World, a: Action, setup: Setup)
    requires EntriesHold(w.robot, w.log) && SeedCovers(w, a)
    ensures EntriesHold(Step(w, a, setup).robot, Step(w, a, setup).log)
  {
    assert w.log + [] == w.log;
    match a
    case MainRuns => MainEntries(w.robot, w.log, setup);
    case MotionEnds =>
      if w.robot.main.Moving? {
        NoEntryHolds(w.robot, MotionReturns(w.robot).robot, w.log, Returned(w.robot.lastSequence));
      }
    case SocketOpens(ok) => NoEntryHolds(w.robot, Connect(w.robot, ok).robot, w.log, Silence);
    case SocketReads(words) => ReadEntries(w.robot, w.log, setup, words);
    case Reboot(session, seed) => NotUsed(w.log, BootedWith(seed));
    hide EntriesHold, MainTurn, Read;
  }

  lemma {:induction false} RunEntries(w: World, actions: seq<Action>, setup: Setup)
    requires EntriesHold(w.robot, w.log) && AllCovered(w, actions, setup)
    ensures EntriesHold(Run(w, actions, setup).robot, Run(w, actions, setup).log)
    decreases |actions|
  {
    hide EntriesHold, Step, SeedCovers;
    if actions != [] {
      StepEntries(w, actions[0], setup);
      RunEntries(Step(w, actions[0], setup), actions[1..], setup);
    }
  }

  lemma {:induction false} FirstEntries(session: int, seed: int)
    ensures EntriesHold(Booted(session, seed), [BootedWith(seed)])
  {
    NotUsed([], BootedWith(seed));
    assert [] + [BootedWith(seed)] == [BootedWith(seed)];
  }

  lemma {:induction false} NoRebootCovered(w: World, actions: seq<Action>, setup: Setup)
    requires NoReboot(actions)
    ensures AllCovered(w, actions, setup)
    decreases |actions|
  {
    if actions != [] {
      assert actions[0] in actions;
      NoRebootCovered(Step(w, actions[0], setup), actions[1..], setup);
    }
  }

  // ---------- too low ----------

  function LoadMill(s: int): Command {
    Command(s, 3, 0, 0, 0)
  }

  function Range(seed: nat, last: nat): seq<int>
    requires seed <= last
  {
    if seed == last then [] else Range(seed, last - 1) + [last]
  }

  /** The commands from just after `seed` up to `last`, each run to completion. */
  function RunUpTo(seed: nat, last: nat): seq<Action>
    requires seed <= last
  {
    if seed == last then [] else RunUpTo(seed, last - 1) + ToCompletion(CommandWords(1, LoadMill(last)), BeatWords(1))
  }

  lemma {:induction false} AllUpToAreEntered(w: World, setup: Setup, seed: nat, last: nat)
    requires seed <= last && setup.heartbeatMissLimit > 0 && Ready(w.robot) && w.robot.lastSequence == seed
    ensures var after := Run(w, RunUpTo(seed, last), setup);
            && Ready(after.robot) && after.robot.lastSequence == last
            && EnteredIn(after.log) == EnteredIn(w.log) + Range(seed, last)
    ensures NoReboot(RunUpTo(seed, last))
    decreases last - seed
  {
    hide EnteredIn, Ready, ToCompletion, CommandWords, BeatWords, Step, GoodFrame;
    if seed < last {
      AllUpToAreEntered(w, setup, seed, last - 1);
      var c := LoadMill(last);
      var most := Run(w, RunUpTo(seed, last - 1), setup);
      CommandCompletes(most, setup, CommandWords(1, c), c, BeatWords(1));
      RunAllMore(w, RunUpTo(seed, last - 1), ToCompletion(CommandWords(1, c), BeatWords(1)), setup);
      assert EnteredIn(w.log) + Range(seed, last - 1) + [last] == EnteredIn(w.log) + Range(seed, last);
    } else {
      assert EnteredIn(w.log) + [] == EnteredIn(w.log);
    }
  }

  /**
   A restart seeded below a sequence already dispatched lets that sequence be dispatched again: the commands after the
   seed, up to it, are run once more.
   */
  lemma {:induction false} LowSeedRepeats(w: World, session: int, seed: nat, s: int, setup: Setup) returns (more: seq<Action>)
    requires s in EnteredIn(w.log) && seed < s && setup.heartbeatMissLimit > 0
    ensures NoReboot(more)
    ensures var entered := EnteredIn(Run(w, [Reboot(session, seed)] + more, setup).log);
            entered == EnteredIn(w.log) + Range(seed, s) && !StrictlyIncreasing(entered)
  {
    hide EnteredIn, Run, RunUpTo, NoReboot, CommandWords, StrictlyIncreasing;
    more := RunUpTo(seed, s);
    var restarted := Step(w, Reboot(session, seed), setup);
    OneStep(w, Reboot(session, seed), setup);
    RunAllMore(w, [Reboot(session, seed)], more, setup);
    NotUsed(w.log, BootedWith(seed));
    AllUpToAreEntered(restarted, setup, seed, s);
    SeenTwice(EnteredIn(w.log), Range(seed, s - 1), s);
    assert EnteredIn(w.log) + Range(seed, s - 1) + [s] == EnteredIn(w.log) + Range(seed, s);
  }

  lemma {:induction false} SeenTwice(before: seq<int>, between: seq<int>, s: int)
    requires s in before
    ensures !StrictlyIncreasing(before + between + [s])
  {
    var all := before + between + [s];
    var i :| 0 <= i < |before| && before[i] == s;
    assert all[i] == s && all[|all| - 1] == s;
  }

  // ---------- exactly ----------

  /** However the program goes on after a restart from `seed`, nothing is dispatched twice or out of order. */
  ghost predicate SafeFrom(w: World, session: int, seed: int, setup: Setup) {
    forall more :: NoReboot(more) ==> StrictlyIncreasing(EnteredIn(Run(w, [Reboot(session, seed)] + more, setup).log))
  }

  /** If every restart is seeded with at least what was dispatched before it, sequences are dispatched in increasing order. */
  lemma {:induction false} EnteredInOrder(session: int, seed: int, actions: seq<Action>, setup: Setup)
    requires AllCovered(FirstBoot(session, seed), actions, setup)
    ensures StrictlyIncreasing(EnteredIn(Run(FirstBoot(session, seed), actions, setup).log))
  {
    FirstEntries(session, seed);
    RunEntries(FirstBoot(session, seed), actions, setup);
  }

  /** A seed is safe exactly when no sequence greater than it has been dispatched. */
  lemma {:induction false} SafeSeedIff(first: int, start: int, actions: seq<Action>, session: int, seed: nat, setup: Setup)
    requires AllCovered(FirstBoot(first, start), actions, setup) && setup.heartbeatMissLimit > 0
    ensures var w := Run(FirstBoot(first, start), actions, setup);
            SafeFrom(w, session, seed, setup) <==> AllAtMost(EnteredIn(w.log), seed)
  {
    var w := Run(FirstBoot(first, start), actions, setup);
    FirstEntries(first, start);
    RunEntries(FirstBoot(first, start), actions, setup);
    hide Run, EnteredIn, StrictlyIncreasing, Step;
    if AllAtMost(EnteredIn(w.log), seed) {
      forall more | NoReboot(more)
        ensures StrictlyIncreasing(EnteredIn(Run(w, [Reboot(session, seed)] + more, setup).log))
      {
        CoveredSeedIsSafe(w, session, seed, more, setup);
      }
    } else {
      var s :| s in EnteredIn(w.log) && s > seed;
      var more := LowSeedRepeats(w, session, seed, s, setup);
    }
  }

  lemma {:induction false} CoveredSeedIsSafe(w: World, session: int, seed: int, more: seq<Action>, setup: Setup)
    requires EntriesHold(w.robot, w.log) && AllAtMost(EnteredIn(w.log), seed) && NoReboot(more)
    ensures StrictlyIncreasing(EnteredIn(Run(w, [Reboot(session, seed)] + more, setup).log))
  {
    var restarted := Step(w, Reboot(session, seed), setup);
    StepEntries(w, Reboot(session, seed), setup);
    NoRebootCovered(restarted, more, setup);
    RunEntries(restarted, more, setup);
    OneStep(w, Reboot(session, seed), setup);
    RunAllMore(w, [Reboot(session, seed)], more, setup);
  }
}
