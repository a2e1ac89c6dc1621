/** When the robot's link is lost: exactly when as many reads as the limit have brought no whole frame. */
module RobotLinks {
  import opened Frames
  import opened RobotProgram
  import opened RobotSafety

  /** Reads without a whole frame since the last good frame, the last loss of the link or the last start. */
  function SilentReads(log: seq<Happening>): nat {
    if log == [] then 0
    else match Last(log)
      case Silence => 1 + SilentReads(Before(log))
      case Heard(words) => if |words| == 9 && GoodFrame(words) then 0 else SilentReads(Before(log))
      case LinkLost => 0
      case BootedWith(_) => 0
      case _ => SilentReads(Before(log))
  }

  /** The link is lost at exactly the places where the silent reads have reached the limit. */
  predicate LossesExact(log: seq<Happening>, limit: nat) {
    forall k | 0 <= k < |log| :: log[k] == LinkLost <==> SilentReads(log[..k]) >= limit
  }

  ghost predicate LinkHolds(r: Robot, log: seq<Happening>, limit: nat) {
    && LossesExact(log, limit) && SilentReads(log) < limit
    && SilentReads(log) == if r.connected then r.missedHeartbeats else 0
  }

  /** What happens off the socket. */
  predicate OffSocket(h: Happening) {
    !h.Silence? && !h.Heard? && !h.LinkLost? && !h.BootedWith?
  }

  lemma {:induction false} LongerExact(log: seq<Happening>, h: Happening, limit: nat)
    requires LossesExact(log, limit) && (h == LinkLost <==> SilentReads(log) >= limit)
    ensures LossesExact(log + [h], limit)
  {
    hide SilentReads;
    var more := log + [h];
    forall k | 0 <= k < |more|
      ensures more[k] == LinkLost <==> SilentReads(more[..k]) >= limit
    {
      if k < |log| {
        assert more[..k] == log[..k];
      } else {
        assert more[..k] == log;
      }
    }
  }

  lemma {:induction false} OffSocketHolds(r: Robot, next: Robot, log: seq<Happening>, happened: seq<Happening>, limit: nat)
    requires LinkHolds(r, log, limit) && |happened| <= 1 && forall h | h in happened :: OffSocket(h)
    requires next.connected == r.connected && next.missedHeartbeats == r.missedHeartbeats
    ensures LinkHolds(next, log + happened, limit)
  {
    hide LossesExact;
    if happened == [] {
      assert log + happened == log;
    } else {
      assert happened == [happened[0]] && happened[0] in happened;
      Grow(log, happened[0]);
      LongerExact(log, happened[0], limit);
    }
  }

  /** One read of an open socket: a good frame starts the count again, a read without a whole frame adds to it. */
  lemma {:induction false} ReadCounts(r: Robot, log: seq<Happening>, setup: Setup, words: seq<int>)
    requires LinkHolds(r, log, setup.heartbeatMissLimit)
    ensures LinkHolds(Read(r, setup, words).robot, log + Read(r, setup, words).happened, setup.heartbeatMissLimit)
  {
    hide LinkHolds, TakeFrame, SendPending;
    if r.main.Stopped? || !r.connected {
      assert log + [] == log;
    } else if |words| == 9 {
      var sender := SendPending(TakeFrame(r, words)).0;
      FrameCounts(r, words);
      SendingCountsNothing(TakeFrame(r, words));
      GoodCounts(r, sender, log, words, setup);
      assert Read(r, setup, words).happened == [Heard(words)];
    } else {
      SilenceCountsOne(r, log, setup);
    }
  }

  lemma {:induction false} GoodCounts(r: Robot, next: Robot, log: seq<Happening>, words: seq<int>, setup: Setup)
    requires LinkHolds(r, log, setup.heartbeatMissLimit) && r.connected && |words| == 9
    requires next.connected && next.missedHeartbeats == if GoodFrame(words) then 0 else r.missedHeartbeats
    ensures next.missedHeartbeats < setup.heartbeatMissLimit
    ensures LinkHolds(next, log + [Heard(words)], setup.heartbeatMissLimit)
  {
    hide LossesExact, GoodFrame;
    Grow(log, Heard(words));
    LongerExact(log, Heard(words), setup.heartbeatMissLimit);
  }

  lemma {:induction false} SilenceCountsOne(r: Robot, log: seq<Happening>, setup: Setup)
    requires LinkHolds(r, log, setup.heartbeatMissLimit) && r.connected
    ensures var t := DropLink(r.(missedHeartbeats := r.missedHeartbeats + 1), setup, [Silence], []);
            LinkHolds(t.robot, log + t.happened, setup.heartbeatMissLimit)
  {
    hide LossesExact;
    var limit := setup.heartbeatMissLimit;
    Grow(log, Silence);
    LongerExact(log, Silence, limit);
    if r.missedHeartbeats + 1 >= limit {
      Grow(log + [Silence], LinkLost);
      LongerExact(log + [Silence], LinkLost, limit);
      assert log + ([Silence] + [LinkLost]) == log + [Silence] + [LinkLost];
    }
  }

  lemma {:induction false} FrameCounts(r: Robot, words: seq<int>)
    requires |words| == 9
    ensures var after := TakeFrame(r, words);
            && after.connected == r.connected && after.main == r.main
            && after.missedHeartbeats == if GoodFrame(words) then 0 else r.missedHeartbeats
  {
    hide GoodFrame;
  }

  lemma {:induction false} SendingCountsNothing(r: Robot)
    ensures SendPending(r).0.connected == r.connected && SendPending(r).0.missedHeartbeats == r.missedHeartbeats
  {
  }

  lemma {:induction false} MainCountsNothing(r: Robot, setup: Setup)
    ensures var t := MainTurn(r, setup);
            && t.robot.connected == r.connected && t.robot.missedHeartbeats == r.missedHeartbeats
            && |t.happened| <= 1 && forall h | h in t.happened :: OffSocket(h)
  {
    hide Known, LoopHead;
    HeadCountsNothing(r);
    HeadCountsNothing(ForgetCommand(r));
    HeadCountsNothing(ForgetCommand(r).(maintenanceRequested := true));
  }

  lemma {:induction false} HeadCountsNothing(r: Robot)
    ensures var t := LoopHead(r);
            && t.robot.connected == r.connected && t.robot.missedHeartbeats == r.missedHeartbeats
            && |t.happened| <= 1 && forall h | h in t.happened :: OffSocket(h)
  {
  }

  lemma {:induction false} StepCounts(w: World, a: Action, setup: Setup)
    requires LinkHolds(w.robot, w.log, setup.heartbeatMissLimit)
    ensures LinkHolds(Step(w, a, setup).robot, Step(w, a, setup).log, setup.heartbeatMissLimit)
  {
    var limit := setup.heartbeatMissLimit;
    assert w.log + [] == w.log;
    match a
    case MainRuns =>
      MainCountsNothing(w.robot, setup);
      hide LinkHolds, MainTurn;
      OffSocketHolds(w.robot, MainTurn(w.robot, setup).robot, w.log, MainTurn(w.robot, setup).happened, limit);
    case MotionEnds =>
      OffSocketHolds(w.robot, MotionReturns(w.robot).robot, w.log, MotionReturns(w.robot).happened, limit);
    case SocketOpens(ok) =>
    case SocketReads(words) =>
      hide LinkHolds, Read;
      ReadCounts(w.robot, w.log, setup, words);
    case Reboot(session, seed) =>
      Grow(w.log, BootedWith(seed));
      LongerExact(w.log, BootedWith(seed), limit);
  }

  lemma {:induction false} FirstCounts(session: int, seed: int, limit: nat)
    requires limit > 0
    ensures LinkHolds(Booted(session, seed), [BootedWith(seed)], limit)
  {
    assert [BootedWith(seed)][..0] == [];
    Grow([], BootedWith(seed));
    assert [] + [BootedWith(seed)] == [BootedWith(seed)];
  }

  lemma {:induction false} RunCounts(w: World, actions: seq<Action>, setup: Setup)
    requires LinkHolds(w.robot, w.log, setup.heartbeatMissLimit)
    ensures LinkHolds(Run(w, actions, setup).robot, Run(w, actions, setup).log, setup.heartbeatMissLimit)
    decreases |actions|
  {
    hide LinkHolds, Step;
    if actions != [] {
      StepCounts(w, actions[0], setup);
      RunCounts(Step(w, actions[0], setup), actions[1..], setup);
    }
  }

  // ---------- the theorem ----------

  /**
   Over any run, whatever arrives and however often the program is restarted: the link is lost at exactly the places where
   the reads without a whole frame, since the last good frame or connection, have come to the limit.
   */
  lemma {:induction false} LinkLossIsExact(session: int, seed: int, actions: seq<Action>, setup: Setup)
    requires setup.heartbeatMissLimit > 0
    ensures var w := Run(FirstBoot(session, seed), actions, setup);
            && LossesExact(w.log, setup.heartbeatMissLimit) && SilentReads(w.log) < setup.heartbeatMissLimit
            && (w.robot.connected ==> w.robot.missedHeartbeats == SilentReads(w.log))
  {
    FirstCounts(session, seed, setup.heartbeatMissLimit);
    RunCounts(FirstBoot(session, seed), actions, setup);
  }

  /** As many reads in a row as the limit, from `a` on and before `k`, bring no whole frame. */
  predicate SilentFrom(log: seq<Happening>, limit: nat, a: nat, k: nat)
    requires k <= |log|
  {
    a + limit <= k && forall j | a <= j < a + limit :: log[j] == Silence
  }

  lemma {:induction false} SilenceCounts(log: seq<Happening>, a: nat, b: nat)
    requires a <= b <= |log| && forall j | a <= j < b :: log[j] == Silence
    ensures SilentReads(log[..b]) >= b - a
    decreases b
  {
    if a < b {
      SilenceCounts(log, a, b - 1);
      assert Before(log[..b]) == log[..b - 1] && Last(log[..b]) == Silence;
    }
  }

  /** Where the link is not lost there are not as many silent reads in a row as the limit. */
  lemma {:induction false} NoLossNoSilence(log: seq<Happening>, limit: nat, a: nat, k: nat)
    requires LossesExact(log, limit) && k < |log|
    requires forall j | a <= j <= k :: log[j] != LinkLost
    ensures !SilentFrom(log, limit, a, k)
  {
    hide SilentReads;
    if SilentFrom(log, limit, a, k) {
      SilenceCounts(log, a, a + limit);
    }
  }
}
