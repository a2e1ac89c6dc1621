/** What holds over every run of the agent: crashes and exceptions at any statement, reconnects, any commands. */
module MillAgentSafety {
  import opened Outcomes
  import opened MillAgent
  import MillStatus

  datatype World = World(agent: Agent, log: seq<Happening>, sent: seq<Report>)

  function Step(w: World, action: Action, enabled: bool): World {
    var t := Act(w.agent, action, enabled);
    World(t.agent, w.log + t.happened, w.sent + t.sent)
  }

  function Run(w: World, actions: seq<Action>, enabled: bool): World
    decreases |actions|
  {
    if actions == [] then w else Run(Step(w, actions[0], enabled), actions[1..], enabled)
  }

  function PowerOn(): World {
    World(PoweredOff(), [], [])
  }

  // ---------- reading the log ----------

  /** The sequence a command's work was begun for. */
  function UseOf(h: Happening): Option<int> {
    match h
    case Began(s, _, _, _) => Some(s)
    case Probed(s) => Some(s)
    case _ => None
  }

  ghost predicate UsesBelow(log: seq<Happening>, bound: int) {
    forall h | h in log && UseOf(h).Some? :: UseOf(h).value < bound
  }

  /** Work is begun for ever greater sequences. */
  ghost predicate UsesIncrease(log: seq<Happening>) {
    forall i, j | 0 <= i < j < |log| && UseOf(log[i]).Some? && UseOf(log[j]).Some? :: UseOf(log[i]).value < UseOf(log[j]).value
  }

  /** Every sequence is handled at most once. */
  predicate NoRepeats(log: seq<Happening>) {
    forall i, j | 0 <= i < j < |log| && log[i].Handled? && log[j].Handled? :: log[i].sequence != log[j].sequence
  }

  predicate WasHandled(log: seq<Happening>, s: int) {
    exists h | h in log :: h.Handled? && h.sequence == s
  }

  /** The last sequence comes again while the last result is another's, and that one completed. */
  predicate Crossed(h: Happening) {
    && h.Handled? && h.sequence == h.known.lastSequence
    && h.known.lastResult.Some? && h.known.lastResult.value.event == Completed
    && h.known.lastResult.value.sequence != h.sequence
  }

  predicate NoneCrossed(log: seq<Happening>) {
    forall h | h in log :: !Crossed(h)
  }

  /** The machine was seen idle with this program thought running, and the proof it requires was there. */
  predicate IdleWithProof(h: Happening, s: int) {
    && h.SawIdle? && h.active.sequence == s
    && (h.active.requireProof ==> MillStatus.Judge(h.file, h.active.program, h.active.signature) == MillStatus.Completed)
  }

  ghost predicate Justified(log: seq<Happening>, s: int) {
    exists h | h in log :: h == Probed(s) || IdleWithProof(h, s)
  }

  // ---------- starts ----------

  /** The command whose work will be begun from this place. */
  function Ahead(p: Place): Option<Command> {
    match p
    case Saving(next, _) => Ahead(next)
    case Sending(_, next, _) => Ahead(next)
    case Choosing(c) => Some(c)
    case Starting(c) => Some(c)
    case _ => None
  }

  function DiskSequence(disk: Option<Saved>): int {
    if disk.Some? then disk.value.lastSequence else 0
  }

  ghost predicate StartsHold(a: Agent, log: seq<Happening>) {
    && UsesIncrease(log)
    && UsesBelow(log, DiskSequence(a.disk) + 1)
    && DiskSequence(a.disk) >= 0
    && (!a.place.Down? ==> a.state.lastSequence >= DiskSequence(a.disk))
    && (Ahead(a.place).Some? ==> AheadHolds(a, log, Ahead(a.place).value))
  }

  /** Work is begun only for the sequence saved last, which is beyond all begun before. */
  ghost predicate AheadHolds(a: Agent, log: seq<Happening>, c: Command) {
    && a.state.lastSequence == c.sequence
    && UsesBelow(log, c.sequence)
    && (!a.place.Saving? ==> DiskSequence(a.disk) == c.sequence)
    && (a.place.Saving? ==> a.place.next == Choosing(c))
    && (a.place.Sending? ==> a.place.next == Starting(c))
  }

  lemma {:induction false} NothingAhead(r: Report, q: Report, s: Section)
    ensures Ahead(Sending(r, Handling, s)).None? && Ahead(Sending(r, Forgetting, s)).None?
    ensures Ahead(Sending(r, Sending(q, Handling, s), s)).None?
  {
    assert Ahead(Handling).None? && Ahead(Forgetting).None?;
    assert Ahead(Sending(q, Handling, s)).None?;
  }

  lemma {:induction false} NoUse(log: seq<Happening>, h: Happening, bound: int)
    requires UseOf(h).None?
    ensures UsesBelow(log, bound) ==> UsesBelow(log + [h], bound)
    ensures UsesIncrease(log) ==> UsesIncrease(log + [h])
  {
  }

  lemma {:induction false} OneUse(log: seq<Happening>, h: Happening, bound: int)
    requires UseOf(h) == Some(bound) && UsesBelow(log, bound) && UsesIncrease(log)
    ensures UsesBelow(log + [h], bound + 1) && UsesIncrease(log + [h])
  {
    var more := log + [h];
    forall i | 0 <= i < |log| && UseOf(log[i]).Some?
      ensures UseOf(log[i]).value < bound
    {
      assert log[i] in log;
    }
  }

  lemma {:induction false} RaiseHolds(a: Agent, log: seq<Happening>, section: Section, timedOut: bool)
    requires StartsHold(a, log) && !a.place.Down?
    ensures StartsHold(Raise(a, section, timedOut), log)
  {
    hide UsesBelow, UsesIncrease;
    if section.Attempt? {
      FaultingHolds(a, log, section.command);
    }
  }

  lemma {:induction false} FaultingHolds(a: Agent, log: seq<Happening>, c: Command)
    requires StartsHold(a.(place := Handling), log)
    ensures StartsHold(Faulting(a, c), log)
  {
    hide UsesBelow, UsesIncrease;
    NothingAhead(Event(c.sequence, Faulted), Event(c.sequence, Faulted), Loop);
  }

  lemma {:induction false} SaveHolds(a: Agent, log: seq<Happening>)
    requires StartsHold(a, log) && a.place.Saving?
    ensures StartsHold(a.(disk := Some(a.state), place := a.place.next), log)
  {
    assert UsesBelow(log, a.state.lastSequence + 1);
    hide UsesBelow, UsesIncrease;
  }

  lemma {:induction false} SaveThenRaise(a: Agent, log: seq<Happening>, section: Section, timedOut: bool)
    requires StartsHold(a, log) && a.place.Saving?
    ensures StartsHold(Raise(a.(disk := Some(a.state)), section, timedOut), log)
  {
    assert UsesBelow(log, a.state.lastSequence + 1);
    hide UsesBelow, UsesIncrease;
    var saved := a.(disk := Some(a.state), place := Handling);
    assert StartsHold(saved, log);
    RaiseHolds(saved, log, section, timedOut);
  }

  lemma {:induction false} ProceedHolds(a: Agent, log: seq<Happening>, enabled: bool)
    requires StartsHold(a, log)
    ensures var t := ProceedFrom(a, enabled);
            |t.happened| <= 1 && StartsHold(t.agent, log + t.happened)
  {
    assert log + [] == log;
    match a.place
    case Saving(_, _) => SaveHolds(a, log);
    case Handling =>
      if a.queue != [] {
        var h := Handled(a.queue[0].sequence, a.state);
        NoUse(log, h, DiskSequence(a.disk) + 1);
        assert UsesBelow(log + [h], DiskSequence(a.disk) + 1);
        HandleCommandHolds(a.(queue := a.queue[1..]), log + [h], a.queue[0], enabled);
      }
    case Choosing(c) => ChooseHolds(a, log, c);
    case _ => hide UsesBelow, UsesIncrease;
  }

  lemma {:induction false} HandleCommandHolds(a: Agent, log: seq<Happening>, c: Command, enabled: bool)
    requires StartsHold(a, log) && a.place.Handling?
    ensures StartsHold(HandleCommand(a, c, enabled), log)
  {
    assert c.sequence > a.state.lastSequence ==> UsesBelow(log, c.sequence);
    hide UsesBelow, UsesIncrease;
    assert Ahead(Choosing(c)) == Some(c);
    NothingAhead(Event(c.sequence, Latched), Event(c.sequence, Latched), Loop);
    NothingAhead(Event(c.sequence, RepeatReply(a, c.sequence)), Event(c.sequence, Latched), Loop);
  }

  lemma {:induction false} ChooseHolds(a: Agent, log: seq<Happening>, c: Command)
    requires StartsHold(a, log) && a.place == Choosing(c)
    ensures var t := Choose(a, c);
            |t.happened| <= 1 && StartsHold(t.agent, log + t.happened)
  {
    if c.operation.Probe? && a.active.None? {
      OneUse(log, Probed(c.sequence), c.sequence);
      NothingAhead(Event(c.sequence, Accepted), Event(c.sequence, Completed), Loop);
    } else {
      NothingAhead(Event(c.sequence, Latched), Event(c.sequence, Latched), Loop);
      NoUse(log, Refused(c.sequence), DiskSequence(a.disk) + 1);
      assert log + [] == log && Ahead(Starting(c)) == Some(c);
    }
    hide UsesBelow, UsesIncrease;
  }

  lemma {:induction false} StartProgramHolds(a: Agent, log: seq<Happening>,
        signature: Option<MillStatus.Signature>, program: Option<string>)
    requires StartsHold(a, log) && a.place.Starting?
    ensures var t := StartProgram(a, a.place.command, signature, program);
            |t.happened| == 1 && StartsHold(t.agent, log + t.happened)
  {
    var c := a.place.command;
    var h := Began(c.sequence, c.requireProof, signature, program);
    var log' := log + [h];
    OneUse(log, h, c.sequence);
    hide UsesBelow, UsesIncrease;
    NothingAhead(Event(c.sequence, Running), Event(c.sequence, Running), Attempt(c));
    assert StartsHold(a.(place := Handling), log');
    FaultingHolds(a, log', c);
  }

  lemma {:induction false} FailHolds(a: Agent, log: seq<Happening>, timedOut: bool, tookEffect: bool)
    requires StartsHold(a, log)
    ensures var t := FailAt(a, timedOut, tookEffect);
            |t.happened| <= 1 && StartsHold(t.agent, log + t.happened)
  {
    FailStartsHold(a, log, timedOut, tookEffect);
    var t := FailAt(a, timedOut, tookEffect);
    hide UsesBelow, UsesIncrease, FailAt;
    if t.happened == [] {
      assert log + t.happened == log;
    } else {
      assert t.happened == [t.happened[0]];
      NoUseHolds(t.agent, log, t.happened[0]);
    }
  }

  lemma {:induction false} NoUseHolds(a: Agent, log: seq<Happening>, h: Happening)
    requires StartsHold(a, log) && UseOf(h).None?
    ensures StartsHold(a, log + [h])
  {
    NoUse(log, h, DiskSequence(a.disk) + 1);
    if Ahead(a.place).Some? {
      NoUse(log, h, Ahead(a.place).value.sequence);
    }
    hide UsesBelow, UsesIncrease;
  }

  lemma {:induction false} FailStartsHold(a: Agent, log: seq<Happening>, timedOut: bool, tookEffect: bool)
    requires StartsHold(a, log)
    ensures var t := FailAt(a, timedOut, tookEffect);
            && StartsHold(t.agent, log) && |t.happened| <= 1
            && forall h | h in t.happened :: UseOf(h).None?
  {
    match a.place
    case Saving(_, section) =>
      if tookEffect {
        SaveThenRaise(a, log, section, timedOut);
      } else {
        RaiseHolds(a, log, section, timedOut);
      }
    case Sending(_, _, section) => RaiseHolds(a, log, section, timedOut);
    case LoopHead => RaiseHolds(a, log, Outside, timedOut);
    case Receiving => RaiseHolds(a, log, Loop, timedOut);
    case Handling => RaiseHolds(a, log, Loop, false);
    case _ =>
  }

  lemma {:induction false} LookHolds(a: Agent, log: seq<Happening>, idle: bool, file: MillStatus.StatusFile)
    requires StartsHold(a, log)
    ensures var t := if a.place.LoopHead? then LookAtMachine(a, idle, file) else Quiet(a);
            |t.happened| <= 1 && StartsHold(t.agent, log + t.happened)
  {
    assert log + [] == log;
    if a.active.Some? && idle {
      var s := a.active.value.sequence;
      NoUse(log, SawIdle(a.active.value, file), DiskSequence(a.disk) + 1);
      hide UsesBelow, UsesIncrease;
      NothingAhead(Event(s, Completed), Event(s, Completed), Outside);
      NothingAhead(Event(s, Latched), Event(s, Latched), Outside);
    }
  }

  lemma {:induction false} StartsStepHolds(w: World, action: Action, enabled: bool)
    requires StartsHold(w.agent, w.log)
    ensures StartsHold(Step(w, action, enabled).agent, Step(w, action, enabled).log)
  {
    var a, log := w.agent, w.log;
    assert log + [] == log;
    match action
    case Proceed => ProceedHolds(a, log, enabled);
    case Fail(timedOut, tookEffect) => FailHolds(a, log, timedOut, tookEffect);
    case Start(signature, program) =>
      if a.place.Starting? {
        StartProgramHolds(a, log, signature, program);
      }
    case Look(idle, file) => LookHolds(a, log, idle, file);
    case _ =>
      hide UsesBelow, UsesIncrease;
      assert Ahead(LoopHead).None? && Ahead(Sending(Hello(a.state.lastSequence, a.state.lastResult), LoopHead, Outside)).None?;
  }

  lemma {:induction false} StartsRunHolds(w: World, actions: seq<Action>, enabled: bool)
    requires StartsHold(w.agent, w.log)
    ensures StartsHold(Run(w, actions, enabled).agent, Run(w, actions, enabled).log)
    decreases |actions|
  {
    if actions != [] {
      StartsStepHolds(w, actions[0], enabled);
      StartsRunHolds(Step(w, actions[0], enabled), actions[1..], enabled);
    }
  }
}
