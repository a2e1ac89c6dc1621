/** What the backend's records hold over whole runs of its connection threads. */
module RobotRecords {
  import opened Outcomes
  import opened Frames
  import opened OrderedDicts
  import opened RobotProgram
  import opened RobotManager

  /** What a connection thread does: its first frame, a later frame, or its end. */
  datatype Delivery =
    | First(socket: nat, values: seq<int>)
    | Later(socket: nat, values: seq<int>)
    | Closed(socket: nat)

  /** The backend, and every event it has recorded since its records were last cleared. */
  datatype Journal = Journal(backend: Backend, recorded: seq<Reported>)

  function Greet(b: Backend, socket: nat, values: seq<int>): Result<Backend, ProtocolError>
    requires |values| >= 2
  {
    if values[1] != KIND_HELLO then Failure(FirstNotHello) else Activate(b, socket, values)
  }

  /** A frame that breaks the protocol closes its socket and changes nothing else. */
  function Settle(b: Backend, socket: nat, r: Result<Backend, ProtocolError>): Backend {
    if r.Success? then r.value else Disconnect(b, socket)
  }

  predicate WellFormed(d: Delivery) {
    d.Closed? || |d.values| >= 2
  }

  predicate Clears(j: Journal, d: Delivery)
    requires WellFormed(d)
  {
    d.First? && Greet(j.backend, d.socket, d.values).Success? && OtherSession(j.backend, d.values[2])
  }

  /** The delivery is an event that is recorded. */
  predicate Records(b: Backend, d: Delivery)
    requires WellFormed(d)
  {
    d.Later? && d.values[1] == KIND_EVENT && HandleFrame(b, d.socket, d.values).Success?
  }

  function Deliver(j: Journal, d: Delivery): Journal
    requires WellFormed(d)
  {
    var b := j.backend;
    match d
    case First(socket, values) =>
      Journal(Settle(b, socket, Greet(b, socket, values)), if Clears(j, d) then [] else j.recorded)
    case Later(socket, values) =>
      Journal(Settle(b, socket, HandleFrame(b, socket, values)),
              if Records(b, d) then j.recorded + [ReportOf(values)] else j.recorded)
    case Closed(socket) => Journal(Disconnect(b, socket), j.recorded)
  }

  function DeliverAll(j: Journal, ds: seq<Delivery>): Journal
    requires forall d | d in ds :: WellFormed(d)
    decreases |ds|
  {
    if ds == [] then j else DeliverAll(Deliver(j, ds[0]), ds[1..])
  }

  function Start(): Journal {
    Journal(Fresh(), [])
  }

  // ---------- the records are the most recent events ----------

  function Sequences(recorded: seq<Reported>): seq<int> {
    seq(|recorded|, i requires 0 <= i < |recorded| => recorded[i].sequence)
  }

  function About(recorded: seq<Reported>, s: int): seq<Reported> {
    if recorded == [] then [] else
      var n := |recorded| - 1;
      About(recorded[..n], s) + (if recorded[n].sequence == s then [recorded[n]] else [])
  }

  predicate EndsWith(all: seq<Reported>, end: seq<Reported>) {
    |end| <= |all| && all[|all| - |end|..] == end
  }

  /** No sequence has been pushed out since the records were last cleared. */
  predicate NonePushedOut(recorded: seq<Reported>) {
    |Recency(Sequences(recorded))| <= MAXIMUM_RETAINED
  }

  ghost predicate Faithful(j: Journal) {
    && Valid(j.backend)
    && j.backend.events.order == Latest(Recency(Sequences(j.recorded)), MAXIMUM_RETAINED)
    && (forall s :: s in j.backend.history.entries ==> HistoryFaithful(j, s))
  }

  ghost predicate HistoryFaithful(j: Journal, s: int)
    requires s in j.backend.history.entries
  {
    var h, all := j.backend.history.entries[s], About(j.recorded, s);
    EndsWith(all, h) && (NonePushedOut(j.recorded) ==> h == LastFew(all))
  }

  lemma {:induction false} SequencesOfLonger(recorded: seq<Reported>, e: Reported)
    ensures var all := Sequences(recorded + [e]);
            |all| == |recorded| + 1 && all[..|recorded|] == Sequences(recorded) && all[|recorded|] == e.sequence
  {
  }

  lemma {:induction false} RecencyOfLonger(recorded: seq<Reported>, e: Reported)
    ensures Recency(Sequences(recorded + [e])) == Without(Recency(Sequences(recorded)), e.sequence) + [e.sequence]
    ensures NonePushedOut(recorded + [e]) ==> NonePushedOut(recorded)
  {
    SequencesOfLonger(recorded, e);
    RecencyMembers(Sequences(recorded));
    WithoutKeepsDistinct(Recency(Sequences(recorded)), e.sequence);
  }

  lemma {:induction false} AboutLonger(recorded: seq<Reported>, e: Reported, s: int)
    ensures About(recorded + [e], s) == About(recorded, s) + (if e.sequence == s then [e] else [])
  {
    assert (recorded + [e])[..|recorded|] == recorded;
  }

  lemma {:induction false} AboutNone(recorded: seq<Reported>, s: int)
    requires s !in Recency(Sequences(recorded))
    ensures About(recorded, s) == []
  {
    if recorded != [] {
      var n := |recorded| - 1;
      assert recorded == recorded[..n] + [recorded[n]];
      RecencyOfLonger(recorded[..n], recorded[n]);
      WithoutMembers(Recency(Sequences(recorded[..n])), recorded[n].sequence);
      AboutNone(recorded[..n], s);
    }
  }

  lemma {:induction false} LongerEnd(all: seq<Reported>, h: seq<Reported>, e: Reported)
    requires EndsWith(all, h)
    ensures EndsWith(all + [e], LastFew(h + [e]))
    ensures h == LastFew(all) ==> LastFew(h + [e]) == LastFew(all + [e])
  {
  }

  lemma {:induction false} RecordIsFaithful(j: Journal, e: Reported, last: int)
    requires Faithful(j) && Refusal(j.backend, e).None?
    ensures Faithful(Journal(Record(j.backend, e, last), j.recorded + [e]))
  {
    var b, all := j.backend, Recency(Sequences(j.recorded));
    var after := Journal(Record(b, e, last), j.recorded + [e]);
    RecordIsValid(b, e, last);
    TouchIsValid(b.events, e.sequence, e);
    PrunedKeepsLatest(b.events.Touch(e.sequence, e), MAXIMUM_RETAINED);
    RecencyOfLonger(j.recorded, e);
    RecencyMembers(Sequences(j.recorded));
    LatestAfterTouch(all, e.sequence, MAXIMUM_RETAINED);
    TouchIsValid(b.history, e.sequence, Lengthened(b.history, e));
    PrunedKeepsLatest(b.history.Touch(e.sequence, Lengthened(b.history, e)), MAXIMUM_RETAINED);
    hide Valid, Recency, Latest, Pruned, Lengthened, LastFew, EndsWith, NonePushedOut;
    forall s | s in after.backend.history.entries
      ensures HistoryFaithful(after, s)
    {
      AboutLonger(j.recorded, e, s);
      if s == e.sequence {
        TouchedHistoryIsFaithful(j, e, last);
      } else {
        assert HistoryFaithful(j, s);
        assert About(after.recorded, s) == About(j.recorded, s);
      }
    }
  }

  lemma {:induction false} TouchedHistoryIsFaithful(j: Journal, e: Reported, last: int)
    requires Faithful(j)
    ensures EndsWith(About(j.recorded + [e], e.sequence), Lengthened(j.backend.history, e))
    ensures NonePushedOut(j.recorded + [e]) ==> Lengthened(j.backend.history, e) == LastFew(About(j.recorded + [e], e.sequence))
  {
    var s := e.sequence;
    RecencyOfLonger(j.recorded, e);
    AboutLonger(j.recorded, e, s);
    hide Recency;
    if s in j.backend.history.entries {
      assert HistoryFaithful(j, s);
      LongerEnd(About(j.recorded, s), j.backend.history.entries[s], e);
    } else if NonePushedOut(j.recorded) {
      AboutNone(j.recorded, s);
    }
  }

  lemma {:induction false} DeliverIsFaithful(j: Journal, d: Delivery)
    requires Faithful(j) && WellFormed(d)
    ensures Faithful(Deliver(j, d))
  {
    hide Valid;
    var b := j.backend;
    match d
    case First(socket, values) => ActivateKeepsValid(b, socket, values);
    case Later(socket, values) =>
      if Records(b, d) {
        RecordIsFaithful(j, ReportOf(values), values[7]);
      } else {
        FrameKeepsValid(b, socket, values);
        ActivateKeepsValid(b, socket, values);
      }
    case Closed(socket) => ActivateKeepsValid(b, socket, []);
  }

  lemma {:induction false} DeliverAllIsFaithful(j: Journal, ds: seq<Delivery>)
    requires Faithful(j) && forall d | d in ds :: WellFormed(d)
    ensures Faithful(DeliverAll(j, ds))
    decreases |ds|
  {
    if ds != [] {
      assert ds[0] in ds;
      DeliverIsFaithful(j, ds[0]);
      DeliverAllIsFaithful(Deliver(j, ds[0]), ds[1..]);
    }
  }

  /**
   In every reachable state: events and histories have the same keys, the at most 512 sequences heard of
   most recently in that order; each history is orderly, ends in the stored event, is the end of what was
   recorded for its sequence, and all of its last sixteen while nothing has been pushed out.
   */
  lemma {:induction false} RecordsAreTheMostRecent(ds: seq<Delivery>)
    requires forall d | d in ds :: WellFormed(d)
    ensures var j := DeliverAll(Start(), ds);
            && j.backend.events.entries.Keys == j.backend.history.entries.Keys
            && j.backend.events.order == Latest(Recency(Sequences(j.recorded)), MAXIMUM_RETAINED)
            && Valid(j.backend)
            && forall s :: s in j.backend.history.entries ==> HistoryFaithful(j, s)
  {
    FreshIsValid();
    DeliverAllIsFaithful(Start(), ds);
    var b := DeliverAll(Start(), ds).backend;
    forall s
      ensures s in b.events.entries <==> s in b.history.entries
    {
      assert s in b.events.entries <==> s in b.events.order;
    }
  }

  // ---------- a terminal event stays ----------

  /** In every state on the way the sequence is recorded and the session the same. */
  ghost predicate RetainedThroughout(j: Journal, ds: seq<Delivery>, s: int)
    requires forall d | d in ds :: WellFormed(d)
    decreases |ds|
  {
    && s in j.backend.events.entries
    && (ds == [] || (!Clears(j, ds[0]) && RetainedThroughout(Deliver(j, ds[0]), ds[1..], s)))
  }

  lemma {:induction false} OneDeliveryKeepsTerminal(j: Journal, d: Delivery, s: int)
    requires WellFormed(d) && !Clears(j, d) && Valid(j.backend)
    requires s in j.backend.events.entries && s in Deliver(j, d).backend.events.entries
    ensures var earlier, later := j.backend.events.entries[s], Deliver(j, d).backend.events.entries[s];
            Follows(earlier.code, later.code) && (later != earlier ==> Records(j.backend, d) && later == ReportOf(d.values))
  {
    var b := j.backend;
    if Records(b, d) {
      var e := ReportOf(d.values);
      TouchIsValid(b.events, e.sequence, e);
      PrunedKeepsLatest(b.events.Touch(e.sequence, e), MAXIMUM_RETAINED);
    }
  }

  /** While a sequence stays recorded within a session, its events only advance, and a terminal event stays what it is. */
  lemma {:induction false} TerminalEventStays(j: Journal, ds: seq<Delivery>, s: int)
    requires Faithful(j) && forall d | d in ds :: WellFormed(d)
    requires RetainedThroughout(j, ds, s)
    ensures s in DeliverAll(j, ds).backend.events.entries
    ensures Follows(j.backend.events.entries[s].code, DeliverAll(j, ds).backend.events.entries[s].code)
    decreases |ds|
  {
    if ds != [] {
      assert ds[0] in ds;
      DeliverIsFaithful(j, ds[0]);
      OneDeliveryKeepsTerminal(j, ds[0], s);
      TerminalEventStays(Deliver(j, ds[0]), ds[1..], s);
    }
  }

  /** Nothing but a first frame that clears the records changes the session once it is known. */
  lemma {:induction false} SessionStays(j: Journal, d: Delivery)
    requires WellFormed(d) && !Clears(j, d) && j.backend.session.Some?
    ensures Deliver(j, d).backend.session == j.backend.session
  {
    hide Record, Refusal;
    if Records(j.backend, d) {
      RecordKeepsSession(j.backend, ReportOf(d.values), d.values[7]);
    }
  }

  lemma {:induction false} RecordKeepsSession(b: Backend, e: Reported, last: int)
    requires b.session.Some? && Refusal(b, e).None?
    ensures Record(b, e, last).session == b.session
  {
  }

  /**
   A wait for a terminal event that has been answered would be answered alike ever after, while the sequence stays
   recorded within the session.
   */
  lemma {:induction false} AnswerStays(j: Journal, ds: seq<Delivery>, s: int, expected: Option<int>)
    requires Faithful(j) && forall d | d in ds :: WellFormed(d)
    requires RetainedThroughout(j, ds, s) && Awaited(j.backend, s, true, expected).Some?
    ensures var earlier, later := Awaited(j.backend, s, true, expected), Awaited(DeliverAll(j, ds).backend, s, true, expected);
            later.Some? && later.value.code == earlier.value.code && later.value.session == earlier.value.session
  {
    var b, after := j.backend, DeliverAll(j, ds).backend;
    AwaitedMeans(b, s, true, expected);
    TerminalEventStays(j, ds, s);
    DeliverAllIsFaithful(j, ds);
    RetainedSessionStays(j, ds, s);
    AwaitedMeans(after, s, false, None);
    hide Valid;
    assert Awaited(after, s, false, None) == Some(after.events.entries[s]);
  }

  lemma {:induction false} RetainedSessionStays(j: Journal, ds: seq<Delivery>, s: int)
    requires forall d | d in ds :: WellFormed(d)
    requires RetainedThroughout(j, ds, s) && j.backend.session.Some?
    ensures DeliverAll(j, ds).backend.session == j.backend.session
    decreases |ds|
  {
    hide Deliver;
    if ds != [] {
      SessionStays(j, ds[0]);
      RetainedSessionStays(Deliver(j, ds[0]), ds[1..], s);
    }
  }

  // ---------- a command is not sent to another session ----------

  predicate NoneGreets(ds: seq<Delivery>, socket: nat) {
    forall d | d in ds :: WellFormed(d) && !(d.First? && d.socket == socket)
  }

  lemma {:induction false} OnlyGreetingConnects(j: Journal, d: Delivery, socket: nat)
    requires WellFormed(d) && !(d.First? && d.socket == socket)
    requires Deliver(j, d).backend.connection == Some(socket)
    ensures j.backend.connection == Some(socket) && !Clears(j, d)
  {
    hide Record, Refusal;
    if Records(j.backend, d) {
      assert Record(j.backend, ReportOf(d.values), d.values[7]).connection == j.backend.connection by {
        RecordKeepsConnection(j.backend, ReportOf(d.values), d.values[7]);
      }
    }
  }

  lemma {:induction false} RecordKeepsConnection(b: Backend, e: Reported, last: int)
    ensures Record(b, e, last).connection == b.connection
  {
  }

  lemma {:induction false} SameSocketSameSession(j: Journal, ds: seq<Delivery>, socket: nat)
    requires NoneGreets(ds, socket) && j.backend.session.Some?
    requires DeliverAll(j, ds).backend.connection == Some(socket)
    ensures j.backend.connection == Some(socket) && DeliverAll(j, ds).backend.session == j.backend.session
    decreases |ds|
  {
    hide Deliver;
    if ds != [] {
      assert ds[0] in ds;
      if Clears(j, ds[0]) || j.backend.connection != Some(socket) {
        StaysAway(j, ds, socket);
      } else {
        SessionStays(j, ds[0]);
        SameSocketSameSession(Deliver(j, ds[0]), ds[1..], socket);
      }
    }
  }

  /** A socket that has lost the connection, or loses it now, does not get it back without a first frame. */
  lemma {:induction false} StaysAway(j: Journal, ds: seq<Delivery>, socket: nat)
    requires NoneGreets(ds, socket)
    requires j.backend.connection != Some(socket) || (ds != [] && Clears(j, ds[0]))
    ensures DeliverAll(j, ds).backend.connection != Some(socket)
    decreases |ds|
  {
    hide Deliver;
    if ds != [] {
      assert ds[0] in ds;
      if Deliver(j, ds[0]).backend.connection == Some(socket) {
        OnlyGreetingConnects(j, ds[0], socket);
      }
      StaysAway(Deliver(j, ds[0]), ds[1..], socket);
    }
  }

  /**
   A command is put on the socket only while the session asked for is still the robot's, whatever the connection
   threads did between the two looks at the connection; a socket is greeted once.
   */
  lemma {:induction false} SentToTheExpectedSession(j: Journal, ds: seq<Delivery>, app: int, c: Command,
        expected: int, fails: bool)
    requires j.backend.connection.Some? && NoneGreets(ds, j.backend.connection.value)
    requires DispatchOf(j.backend, app, c, Some(expected), Transmission(DeliverAll(j, ds).backend.connection, fails)).Attempted?
    ensures DeliverAll(j, ds).backend.session == Some(expected)
  {
    SameSocketSameSession(j, ds, j.backend.connection.value);
  }
}
