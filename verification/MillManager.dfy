/** The backend's end of the mill connection: MillSupervisorManager of app/mill_supervisor.py. */
module MillManager {
  import opened Outcomes
  import opened OrderedDicts

  const MAXIMUM_RETAINED := 512

  datatype Outcome = Outcome(sequence: int, event: string)

  /** Messages as they parse; a HELLO's last result may be empty. */
  datatype Message =
    | Hello(session: int, lastSequence: int, lastResult: Option<Outcome>)
    | Event(sequence: int, name: string)
    | Telemetry
    | Heartbeat
    | Unexpected

  datatype ProtocolError = NoSession | NoSequence | UnexpectedKind | FirstNotHello

  /** Events by sequence, in the order they came. */
  datatype Backend = Backend(
    connection: Option<nat>, generation: nat, session: Option<int>,
    lastSequence: int, lastResult: Option<Outcome>,
    events: OrderedDict<seq<string>>)

  function Fresh(): Backend {
    Backend(None, 0, None, 0, None, Empty())
  }

  predicate Terminal(name: string) {
    name in ["completed", "faulted", "latched"]
  }

  function EventsFor(b: Backend, sequence: int): seq<string> {
    if sequence in b.events.entries then b.events.entries[sequence] else []
  }

  function Add(b: Backend, sequence: int, name: string): Backend {
    b.(events := Pruned(b.events.Touch(sequence, EventsFor(b, sequence) + [name]), MAXIMUM_RETAINED))
  }

  /** The result a greeting carries that is not recorded yet. */
  function News(b: Backend, result: Option<Outcome>): Option<Outcome> {
    if result.Some? && result.value.sequence > 0 && Terminal(result.value.event)
       && result.value.event !in EventsFor(b, result.value.sequence)
    then result
    else None
  }

  function Activate(b: Backend, socket: nat, hello: Message): Result<Backend, ProtocolError>
    requires hello.Hello?
  {
    if hello.session <= 0 then Failure(NoSession) else
      var greeted := b.(connection := Some(socket), generation := b.generation + 1, session := Some(hello.session),
                        lastSequence := hello.lastSequence, lastResult := hello.lastResult);
      var news := News(b, hello.lastResult);
      Success(if news.Some? then Add(greeted, news.value.sequence, news.value.event) else greeted)
  }

  function Handle(b: Backend, m: Message): Result<Backend, ProtocolError> {
    match m
    case Telemetry => Success(b)
    case Heartbeat => Success(b)
    case Event(sequence, name) =>
      if sequence <= 0 then Failure(NoSequence) else
        Success(Add(b, sequence, name).(
                  lastSequence := if b.lastSequence > sequence then b.lastSequence else sequence,
                  lastResult := if Terminal(name) then Some(Outcome(sequence, name)) else b.lastResult))
    case Hello(_, _, _) => Failure(UnexpectedKind)
    case Unexpected => Failure(UnexpectedKind)
  }

  /** The first message of a socket. */
  function Greet(b: Backend, socket: nat, m: Message): Result<Backend, ProtocolError> {
    if m.Hello? then Activate(b, socket, m) else Failure(FirstNotHello)
  }

  /** The socket of a connection thread is closed. */
  function Disconnect(b: Backend, socket: nat): Backend {
    if b.connection == Some(socket) then b.(connection := None) else b
  }

  /** A message that breaks the protocol closes its socket and changes nothing else. */
  function Settle(b: Backend, socket: nat, r: Result<Backend, ProtocolError>): Backend {
    if r.Success? then r.value else Disconnect(b, socket)
  }

  /** Index `i` holds the latest of these names. */
  predicate LatestNamed(events: seq<string>, names: set<string>, i: nat) {
    && i < |events| && events[i] in names
    && forall j | i < j < |events| :: events[j] !in names
  }

  predicate Handled(before: Backend, r: Result<Backend, ProtocolError>, after: Backend, error: Option<ProtocolError>) {
    if r.Success? then error == None && after == r.value else error == Some(r.error) && after == before
  }

  // ---------- what holds in every reachable state ----------

  ghost predicate Valid(b: Backend) {
    && b.events.Valid() && |b.events.order| <= MAXIMUM_RETAINED
    && forall s :: s in b.events.entries ==> s > 0 && b.events.entries[s] != []
  }

  lemma {:induction false} AddIsValid(b: Backend, sequence: int, name: string)
    requires Valid(b) && sequence > 0
    ensures Valid(Add(b, sequence, name))
    ensures EventsFor(Add(b, sequence, name), sequence) == EventsFor(b, sequence) + [name]
    ensures forall s :: s in Add(b, sequence, name).events.entries && s != sequence ==>
                          s in b.events.entries && Add(b, sequence, name).events.entries[s] == b.events.entries[s]
  {
    var list := EventsFor(b, sequence) + [name];
    TouchedIsKept(b.events, sequence, list);
    hide EventsFor, Pruned, Latest;
    assert list != [];
  }

  /** A touched key is kept, and what else is kept is as it was. */
  lemma {:induction false} TouchedIsKept(d: OrderedDict<seq<string>>, sequence: int, list: seq<string>)
    requires d.Valid()
    ensures var after := Pruned(d.Touch(sequence, list), MAXIMUM_RETAINED);
            && after.Valid() && |after.order| <= MAXIMUM_RETAINED
            && sequence in after.entries && after.entries[sequence] == list
            && forall s :: s in after.entries && s != sequence ==> s in d.entries && after.entries[s] == d.entries[s]
  {
    var touched := d.Touch(sequence, list);
    TouchIsValid(d, sequence, list);
    PrunedKeepsLatest(touched, MAXIMUM_RETAINED);
    LatestKeepsLast(touched.order, MAXIMUM_RETAINED);
    assert touched.order[|touched.order| - 1] == sequence;
    hide Pruned, Without;
  }

  lemma {:induction false} LatestKeepsLast(s: seq<int>, limit: nat)
    requires s != [] && limit > 0
    ensures s[|s| - 1] in Latest(s, limit)
  {
    var kept := Latest(s, limit);
    assert kept[|kept| - 1] == s[|s| - 1];
  }

  lemma {:induction false} MessagesKeepValid(b: Backend, socket: nat, m: Message)
    requires Valid(b)
    ensures Handle(b, m).Success? ==> Valid(Handle(b, m).value)
    ensures m.Hello? && Activate(b, socket, m).Success? ==> Valid(Activate(b, socket, m).value)
  {
    if m.Event? && m.sequence > 0 {
      AddIsValid(b, m.sequence, m.name);
    }
    if m.Hello? && News(b, m.lastResult).Some? {
      AddIsValid(b, m.lastResult.value.sequence, m.lastResult.value.event);
    }
  }

  /** Both ways a message can be taken only lengthen the recorded lists. */
  lemma {:induction false} RecordsOnlyGrow(b: Backend, socket: nat, m: Message, s: int)
    requires Valid(b)
    ensures Handle(b, m).Success? && s in Handle(b, m).value.events.entries ==>
              EventsFor(b, s) <= EventsFor(Handle(b, m).value, s)
    ensures m.Hello? && Activate(b, socket, m).Success? && s in Activate(b, socket, m).value.events.entries ==>
              EventsFor(b, s) <= EventsFor(Activate(b, socket, m).value, s)
  {
    if m.Event? && m.sequence > 0 {
      AddIsValid(b, m.sequence, m.name);
    }
    if m.Hello? && News(b, m.lastResult).Some? {
      AddIsValid(b, m.lastResult.value.sequence, m.lastResult.value.event);
    }
  }

  /** A greeting changes the records exactly when it carries a terminal result not yet recorded for its sequence. */
  lemma {:induction false} GreetingAddsOnlyNews(b: Backend, socket: nat, hello: Message)
    requires Valid(b) && hello.Hello? && hello.session > 0
    ensures var after := Activate(b, socket, hello).value;
            && (after.events == b.events <==> News(b, hello.lastResult).None?)
            && (News(b, hello.lastResult).Some? ==>
                  var r := hello.lastResult.value;
                  EventsFor(after, r.sequence) == EventsFor(b, r.sequence) + [r.event])
  {
    if News(b, hello.lastResult).Some? {
      AddIsValid(b, hello.lastResult.value.sequence, hello.lastResult.value.event);
    }
  }

  /** Repeating a greeting, on any socket, leaves the records as one does. */
  lemma {:induction false} GreetingIsIdempotent(b: Backend, socket: nat, again: nat, hello: Message)
    requires Valid(b) && hello.Hello? && hello.session > 0
    ensures var once := Activate(b, socket, hello).value;
            Activate(once, again, hello).Success?
            && Activate(once, again, hello).value == once.(connection := Some(again), generation := once.generation + 1)
  {
    if News(b, hello.lastResult).Some? {
      AddIsValid(b, hello.lastResult.value.sequence, hello.lastResult.value.event);
    }
  }

  // ---------- the manager itself ----------

  class MillSupervisorManager {
    var connection: Option<nat>
    var connectionGeneration: nat
    var millSession: Option<int>
    var lastSequence: int
    var lastResult: Option<Outcome>
    var events: OrderedDict<seq<string>>

    function State(): Backend
      reads this
    {
      Backend(connection, connectionGeneration, millSession, lastSequence, lastResult, events)
    }

    constructor ()
      ensures State() == Fresh() && Valid(State())
    {
      connection, connectionGeneration, millSession := None, 0, None;
      lastSequence, lastResult, events := 0, None, Empty();
    }

    method ActivateConnection(socket: nat, hello: Message) returns (error: Option<ProtocolError>)
      requires Valid(State()) && hello.Hello?
      modifies this
      ensures Handled(old(State()), Activate(old(State()), socket, hello), State(), error)
      ensures Valid(State())
    {
      MessagesKeepValid(State(), socket, hello);
      hide Pruned;
      if hello.session <= 0 {
        return Some(NoSession);
      }
      connection := Some(socket);
      millSession := Some(hello.session);
      lastSequence := hello.lastSequence;
      lastResult := hello.lastResult;
      if lastResult.Some? {
        var result := lastResult.value;
        if result.sequence > 0 && Terminal(result.event) {
          var existing := if result.sequence in events.entries then events.entries[result.sequence] else [];
          if result.event !in existing {
            Store(result.sequence, existing + [result.event]);
          }
        }
      }
      connectionGeneration := connectionGeneration + 1;
      return None;
    }

    method HandleMessage(m: Message) returns (error: Option<ProtocolError>)
      requires Valid(State())
      modifies this
      ensures Handled(old(State()), Handle(old(State()), m), State(), error)
      ensures Valid(State())
    {
      MessagesKeepValid(State(), 0, m);
      hide Pruned;
      match m {
        case Telemetry =>
          return None;
        case Heartbeat =>
          return None;
        case Event(sequence, name) =>
          if sequence <= 0 {
            return Some(NoSequence);
          }
          var list := if sequence in events.entries then events.entries[sequence] else [];
          Store(sequence, list + [name]);
          lastSequence := if lastSequence > sequence then lastSequence else sequence;
          if Terminal(name) {
            lastResult := Some(Outcome(sequence, name));
          }
          return None;
        case Hello(_, _, _) =>
          return Some(UnexpectedKind);
        case Unexpected =>
          return Some(UnexpectedKind);
      }
    }

    /** The connection thread of a socket ends, by itself or after an error. */
    method CloseConnection(socket: nat)
      modifies this
      ensures State() == Disconnect(old(State()), socket)
    {
      if connection == Some(socket) {
        connection := None;
      }
    }

    /** The sequence becomes the youngest, and the oldest are dropped beyond 512. */
    method Store(sequence: int, list: seq<string>)
      requires events.Valid()
      modifies `events
      ensures events == Pruned(old(events).Touch(sequence, list), MAXIMUM_RETAINED)
    {
      TouchIsValid(events, sequence, list);
      events := events.Touch(sequence, list);
      while |events.order| > MAXIMUM_RETAINED
        invariant events.Valid()
        invariant Pruned(events, MAXIMUM_RETAINED) == Pruned(old(events).Touch(sequence, list), MAXIMUM_RETAINED)
        decreases |events.order|
      {
        PopFirstIsValid(events);
        events := events.PopFirst();
      }
    }

    /** One look of `wait_for_event`: the latest recorded event with one of the names, searched from the end. */
    method FindEvent(sequence: int, names: set<string>) returns (found: Option<nat>)
      ensures found.Some? ==> LatestNamed(EventsFor(State(), sequence), names, found.value)
      ensures found.None? ==> forall i | 0 <= i < |EventsFor(State(), sequence)| :: EventsFor(State(), sequence)[i] !in names
    {
      var list := EventsFor(State(), sequence);
      var i := |list|;
      while i > 0
        invariant 0 <= i <= |list|
        invariant forall j | i <= j < |list| :: list[j] !in names
      {
        i := i - 1;
        if list[i] in names {
          return Some(i);
        }
      }
      return None;
    }
  }
}
