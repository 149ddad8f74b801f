/** `EndpointImpl` of `src/proto_impl/endpoint.rs`: the endpoint's pump. It keeps a table from
    connection handle to the sender of that connection's event channel, drains the events its
    connections send it (at most `IO_LOOP_BOUND` per call, oldest first), passes transmits to the
    host through a callback, and creates connections. */
module Endpoint {
  import opened Wrappers
  import opened Ints
  import opened Proto
  import opened Events
  import QuinnResults
  import Addr
  import Connection

  type QuinnErrorKind = QuinnResults.QuinnErrorKind

  /** How many events one `handle_connection_events` call takes at most. */
  const IO_LOOP_BOUND: nat := 160

  /** The fields of an `EndpointImpl`, as one value (`endpoint_poll_notifier` reduced to whether
      it is set). */
  datatype EndpointState = EndpointState(
    engine: ProtoEndpoint,
    connections: map<ConnectionHandle, Sender<ConnectionEvent>>,
    events: seq<(ConnectionHandle, EndpointEvent)>,
    hasPollNotifier: bool,
    id: u8,
    defaultClientConfig: Option<ClientConfig>,
    callbacks: seq<Callback>)

  /** `connections.get_mut(&handle).unwrap().send(event)?`: panics on an unknown handle, fails
      when that connection is gone, and otherwise queues the event for it. */
  function SendTo(conns: map<ConnectionHandle, Sender<ConnectionEvent>>, h: ConnectionHandle, e: ConnectionEvent)
    : (r: Completion<Result<map<ConnectionHandle, Sender<ConnectionEvent>>, QuinnErrorKind>>)
    ensures r.Panicked? <==> h !in conns
    ensures r.Panicked? ==> r.payload == Some(UNWRAP_NONE)
    ensures h in conns && !conns[h].receiverAlive ==> r == Returned(Err(SEND_FAILED))
    ensures h in conns && conns[h].receiverAlive ==> r == Returned(Ok(conns[h := Sender(conns[h].sent + [e], true)]))
  {
    if h !in conns then Panicked(Some(UNWRAP_NONE))
    else match conns[h].Send(e)
      case None => Returned(Err(SEND_FAILED))
      case Some(tx) => Returned(Ok(conns[h := tx]))
  }

  /** The table once a drained connection's entry is removed. */
  function AfterRemoval(conns: map<ConnectionHandle, Sender<ConnectionEvent>>, h: ConnectionHandle, p: ProtoEndpointEvent)
    : map<ConnectionHandle, Sender<ConnectionEvent>>
  {
    if p.drained then conns - {h} else conns
  }

  /** One event of the loop body of `handle_connection_events`: a drained connection's entry is
      removed; the engine's answer, if any, is sent to the connection (which panics if the entry
      was just removed); a transmit goes to the host. `Returned(Ok(()))` means "go on". */
  function HandleEvent(s: EndpointState, h: ConnectionHandle, ev: EndpointEvent)
    : (r: (EndpointState, Completion<Result<(), QuinnErrorKind>>))
    ensures r.0.events == s.events && r.0.id == s.id && r.0.engine.transmits == s.engine.transmits
    ensures r.0.callbacks == s.callbacks + if ev.Transmit? then [OnTransmit(s.id, ev.transmit)] else []
    ensures r.0.engine.handled == s.engine.handled + if ev.Proto? then [(h, ev.event)] else []
    ensures r.0.connections.Keys <= s.connections.Keys
    ensures ev.Transmit? ==> r.0.connections == s.connections
    ensures ev.Proto? && ev.event.drained ==> h !in r.0.connections
  {
    match ev
    case Transmit(t) => (s.(callbacks := s.callbacks + [OnTransmit(s.id, t)]), Returned(Ok(())))
    case Proto(p) =>
      var conns := AfterRemoval(s.connections, h, p);
      var s1 := s.(connections := conns, engine := s.engine.(handled := s.engine.handled + [(h, p)]));
      match p.reply
      case None => (s1, Returned(Ok(())))
      case Some(reply) =>
        match SendTo(conns, h, ConnectionEvent.Proto(reply))
        case Panicked(m) => (s1, Panicked(m))
        case Returned(Err(e)) => (s1, Returned(Err(e)))
        case Returned(Ok(c)) => (s1.(connections := c), Returned(Ok(())))
  }

  /** The outcome of one event: a transmit, or an engine event with no reply, goes on; with a
      reply, the `unwrap` panics iff the handle is gone once a drained entry is removed, a closed
      connection fails the send, and otherwise the reply joins that connection's queue. */
  lemma HandleEventOutcome(s: EndpointState, h: ConnectionHandle, ev: EndpointEvent)
    ensures ev.Transmit? || ev.event.reply.None? ==> HandleEvent(s, h, ev).1 == Returned(Ok(()))
    ensures ev.Proto? && ev.event.reply.None? ==>
      HandleEvent(s, h, ev).0.connections == AfterRemoval(s.connections, h, ev.event)
    ensures ev.Proto? && ev.event.reply.Some? ==>
      var (r0, r1) := HandleEvent(s, h, ev);
      var conns := AfterRemoval(s.connections, h, ev.event);
      (r1.Panicked? <==> h !in conns) &&
      (r1.Panicked? ==> r1.payload == Some(UNWRAP_NONE) && r0.connections == conns) &&
      (h in conns && !conns[h].receiverAlive ==> r1 == Returned(Err(SEND_FAILED)) && r0.connections == conns) &&
      (h in conns && conns[h].receiverAlive ==>
         r1 == Returned(Ok(())) &&
         r0.connections == conns[h := Sender(conns[h].sent + [ConnectionEvent.Proto(ev.event.reply.value)], true)])
  {
  }

  /** `HandleEvent` changes no entry but `h`'s, and removes one only for a drained event. */
  lemma HandleEventTable(s: EndpointState, h: ConnectionHandle, ev: EndpointEvent)
    ensures var r := HandleEvent(s, h, ev);
      (forall g :: g in r.0.connections && g != h ==> r.0.connections[g] == s.connections[g]) &&
      (forall g :: g in s.connections && g !in r.0.connections ==> g == h && ev.Proto? && ev.event.drained)
  {
  }

  /** The state after the loop, its outcome, and how many events it took. */
  datatype Drained = Drained(state: EndpointState, outcome: Completion<Result<bool, QuinnErrorKind>>, consumed: nat)

  /** One iteration on a non-empty queue: the oldest event is taken and handled. */
  function Next(s: EndpointState): (EndpointState, Completion<Result<(), QuinnErrorKind>>)
    requires s.events != []
  {
    HandleEvent(s.(events := s.events[1..]), s.events[0].0, s.events[0].1)
  }

  /** The outcome with which an iteration that did not go on ends the loop. */
  function Stopped(c: Completion<Result<(), QuinnErrorKind>>): Completion<Result<bool, QuinnErrorKind>> {
    match c
    case Panicked(m) => Panicked(m)
    case Returned(Err(e)) => Returned(Err(e))
    case Returned(Ok(_)) => Returned(Ok(false))
  }

  /** `handle_connection_events` with `budget` iterations left. */
  function Drain(s: EndpointState, budget: nat): Drained
    decreases budget
  {
    if budget == 0 then Drained(s, Returned(Ok(true)), 0)
    else if s.events == [] then Drained(s, Returned(Ok(false)), 0)
    else
      var r := Next(s);
      if r.1.Returned? && r.1.value.Ok? then
        var d := Drain(r.0, budget - 1);
        Drained(d.state, d.outcome, d.consumed + 1)
      else Drained(r.0, Stopped(r.1), 1)
  }

  /** One iteration of `Drain` on a non-empty queue. */
  lemma DrainUnfold(s: EndpointState, budget: nat)
    requires budget > 0 && s.events != []
    ensures var r := Next(s);
      (r.1.Returned? && r.1.value.Ok? ==>
         Drain(s, budget).state == Drain(r.0, budget - 1).state && Drain(s, budget).outcome == Drain(r.0, budget - 1).outcome &&
         Drain(s, budget).consumed == Drain(r.0, budget - 1).consumed + 1) &&
      (!(r.1.Returned? && r.1.value.Ok?) ==>
         Drain(s, budget).state == r.0 && Drain(s, budget).outcome == Stopped(r.1) && Drain(s, budget).consumed == 1)
  {
  }

  /** The transmit callbacks a run of events causes, in order. */
  function TransmitCallbacks(id: u8, evs: seq<(ConnectionHandle, EndpointEvent)>): seq<Callback> {
    if evs == [] then []
    else (if evs[0].1.Transmit? then [OnTransmit(id, evs[0].1.transmit)] else []) + TransmitCallbacks(id, evs[1..])
  }

  /** The engine events of a run of events, in order. */
  function ProtoEvents(evs: seq<(ConnectionHandle, EndpointEvent)>): seq<(ConnectionHandle, ProtoEndpointEvent)> {
    if evs == [] then []
    else (if evs[0].1.Proto? then [(evs[0].0, evs[0].1.event)] else []) + ProtoEvents(evs[1..])
  }

  /** The handles named by the engine events of a run of events. */
  function ProtoHandles(evs: seq<(ConnectionHandle, EndpointEvent)>): set<ConnectionHandle> {
    if evs == [] then {}
    else (if evs[0].1.Proto? then {evs[0].0} else {}) + ProtoHandles(evs[1..])
  }

  /** The handles named by the drained engine events of a run of events. */
  function DrainedHandles(evs: seq<(ConnectionHandle, EndpointEvent)>): set<ConnectionHandle> {
    if evs == [] then {}
    else (if evs[0].1.Proto? && evs[0].1.event.drained then {evs[0].0} else {}) + DrainedHandles(evs[1..])
  }

  lemma HeadSplit<T>(evs: seq<T>, k: nat)
    requires 0 < k <= |evs|
    ensures evs[..k] == [evs[0]] + evs[1..][..k - 1]
    ensures evs[k..] == evs[1..][k - 1..]
  {
  }

  /** At most `budget` events are taken, from the front of the queue: the rest stay queued in
      order. The loop reports `Ok(true)` only after taking `budget` events and `Ok(false)` only
      when it found the queue empty; otherwise it stopped at the event it took last. */
  lemma {:induction false} DrainTakesPrefix(s: EndpointState, budget: nat)
    ensures var d := Drain(s, budget);
      d.consumed <= budget && d.consumed <= |s.events| && d.state.events == s.events[d.consumed..]
    ensures Drain(s, budget).outcome == Returned(Ok(true)) ==> Drain(s, budget).consumed == budget
    ensures Drain(s, budget).outcome == Returned(Ok(false)) ==>
      Drain(s, budget).consumed < budget && Drain(s, budget).state.events == []
    ensures Drain(s, budget).outcome.Returned? && Drain(s, budget).outcome.value.Ok? ==>
      (Drain(s, budget).outcome.value.value <==> Drain(s, budget).consumed == budget)
    ensures Drain(s, budget).state.id == s.id
    decreases budget
  {
    if budget > 0 && s.events != [] {
      var (s1, c) := Next(s);
      assert s1.events == s.events[1..] && s1.id == s.id;
      if c.Returned? && c.value.Ok? {
        DrainTakesPrefix(s1, budget - 1);
        HeadSplit(s.events, Drain(s, budget).consumed);
      }
    }
  }

  /** The loop stops early, with an error or a panic, only on an event that carries an engine
      answer for a connection: the last event taken is a `Proto` event with a reply. */
  lemma {:induction false} DrainStopsOnReply(s: EndpointState, budget: nat)
    ensures var d := Drain(s, budget);
      !(d.outcome.Returned? && d.outcome.value.Ok?) ==>
        0 < d.consumed <= |s.events| && s.events[d.consumed - 1].1.Proto? && s.events[d.consumed - 1].1.event.reply.Some?
    decreases budget
  {
    if budget > 0 && s.events != [] {
      var (s1, c) := Next(s);
      HandleEventOutcome(s.(events := s.events[1..]), s.events[0].0, s.events[0].1);
      if c.Returned? && c.value.Ok? {
        DrainStopsOnReply(s1, budget - 1);
        DrainTakesPrefix(s1, budget - 1);
        assert s1.events == s.events[1..];
      }
    }
  }

  lemma FifoStep(id: u8, evs: seq<(ConnectionHandle, EndpointEvent)>, k: nat)
    requires 0 < k <= |evs|
    ensures TransmitCallbacks(id, evs[..k]) ==
      (if evs[0].1.Transmit? then [OnTransmit(id, evs[0].1.transmit)] else []) + TransmitCallbacks(id, evs[1..][..k - 1])
    ensures ProtoEvents(evs[..k]) ==
      (if evs[0].1.Proto? then [(evs[0].0, evs[0].1.event)] else []) + ProtoEvents(evs[1..][..k - 1])
  {
    HeadSplit(evs, k);
    assert evs[..k][0] == evs[0] && evs[..k][1..] == evs[1..][..k - 1];
  }

  lemma ConcatStep<T>(base: seq<T>, head: seq<T>, rest: seq<T>, whole: seq<T>)
    requires whole == head + rest
    ensures (base + head) + rest == base + whole
  {
  }

  /** The loop handles the events it takes in queue order: their transmits reach the host in that
      order. */
  lemma {:induction false} DrainForwardsTransmitsInOrder(s: EndpointState, budget: nat)
    ensures var d := Drain(s, budget);
      d.consumed <= |s.events| &&
      d.state.callbacks == s.callbacks + TransmitCallbacks(s.id, s.events[..d.consumed])
    decreases budget
  {
    DrainTakesPrefix(s, budget);
    if budget > 0 && s.events != [] {
      var (s1, c) := Next(s);
      DrainUnfold(s, budget);
      var d := Drain(s, budget);
      var head := if s.events[0].1.Transmit? then [OnTransmit(s.id, s.events[0].1.transmit)] else [];
      assert s1.callbacks == s.callbacks + head && s1.id == s.id && s1.events == s.events[1..];
      FifoStep(s.id, s.events, d.consumed);
      if c.Returned? && c.value.Ok? {
        var d1 := Drain(s1, budget - 1);
        DrainForwardsTransmitsInOrder(s1, budget - 1);
        ConcatStep(s.callbacks, head, TransmitCallbacks(s.id, s.events[1..][..d1.consumed]),
                   TransmitCallbacks(s.id, s.events[..d.consumed]));
      } else {
        assert s.events[1..][..0] == [];
        assert d.state.callbacks == s.callbacks + head + [];
      }
    }
  }

  /** ... and their engine events reach the engine in that order. */
  lemma {:induction false} DrainHandlesEventsInOrder(s: EndpointState, budget: nat)
    ensures var d := Drain(s, budget);
      d.consumed <= |s.events| &&
      d.state.engine.handled == s.engine.handled + ProtoEvents(s.events[..d.consumed])
    decreases budget
  {
    DrainTakesPrefix(s, budget);
    if budget > 0 && s.events != [] {
      var (s1, c) := Next(s);
      DrainUnfold(s, budget);
      var d := Drain(s, budget);
      var head := if s.events[0].1.Proto? then [(s.events[0].0, s.events[0].1.event)] else [];
      assert s1.engine.handled == s.engine.handled + head && s1.events == s.events[1..];
      FifoStep(s.id, s.events, d.consumed);
      if c.Returned? && c.value.Ok? {
        var d1 := Drain(s1, budget - 1);
        DrainHandlesEventsInOrder(s1, budget - 1);
        ConcatStep(s.engine.handled, head, ProtoEvents(s.events[1..][..d1.consumed]),
                   ProtoEvents(s.events[..d.consumed]));
      } else {
        assert s.events[1..][..0] == [];
        assert d.state.engine.handled == s.engine.handled + head + [];
      }
    }
  }

  lemma TableFifoStep(evs: seq<(ConnectionHandle, EndpointEvent)>, k: nat)
    requires 0 < k <= |evs|
    ensures ProtoHandles(evs[..k]) == (if evs[0].1.Proto? then {evs[0].0} else {}) + ProtoHandles(evs[1..][..k - 1])
    ensures DrainedHandles(evs[..k]) ==
      (if evs[0].1.Proto? && evs[0].1.event.drained then {evs[0].0} else {}) + DrainedHandles(evs[1..][..k - 1])
  {
    HeadSplit(evs, k);
    assert evs[..k][0] == evs[0] && evs[..k][1..] == evs[1..][..k - 1];
    DrainTableStep(evs[..k]);
  }

  /** Table entries only disappear, and only one whose handle a drained engine event named. */
  lemma {:induction false} DrainOnlyRemovesDrained(s: EndpointState, budget: nat)
    ensures var d := Drain(s, budget);
      d.consumed <= |s.events| &&
      d.state.connections.Keys <= s.connections.Keys &&
      (forall h :: h in s.connections && h !in d.state.connections ==> h in DrainedHandles(s.events[..d.consumed]))
    decreases budget
  {
    DrainTakesPrefix(s, budget);
    if budget > 0 && s.events != [] {
      var (s1, c) := Next(s);
      HandleEventTable(s.(events := s.events[1..]), s.events[0].0, s.events[0].1);
      DrainUnfold(s, budget);
      TableFifoStep(s.events, Drain(s, budget).consumed);
      if c.Returned? && c.value.Ok? {
        DrainOnlyRemovesDrained(s1, budget - 1);
      }
    }
  }

  /** An entry no engine event named is left exactly as it was: transmits never touch the
      table. */
  lemma {:induction false} DrainKeepsUnnamed(s: EndpointState, budget: nat)
    ensures var d := Drain(s, budget);
      d.consumed <= |s.events| &&
      (forall h :: h in d.state.connections && h !in ProtoHandles(s.events[..d.consumed]) ==>
         h in s.connections && d.state.connections[h] == s.connections[h])
    decreases budget
  {
    DrainTakesPrefix(s, budget);
    if budget > 0 && s.events != [] {
      var (s1, c) := Next(s);
      HandleEventTable(s.(events := s.events[1..]), s.events[0].0, s.events[0].1);
      DrainUnfold(s, budget);
      TableFifoStep(s.events, Drain(s, budget).consumed);
      if c.Returned? && c.value.Ok? {
        DrainKeepsUnnamed(s1, budget - 1);
      }
    }
  }

  /** The entry of a connection whose drained event was taken is gone afterwards. */
  lemma {:induction false} DrainRemovesDrained(s: EndpointState, budget: nat)
    ensures var d := Drain(s, budget);
      d.consumed <= |s.events| &&
      (forall h :: h in DrainedHandles(s.events[..d.consumed]) ==> h !in d.state.connections)
    decreases budget
  {
    DrainTakesPrefix(s, budget);
    if budget > 0 && s.events != [] {
      var (s1, c) := Next(s);
      HandleEventTable(s.(events := s.events[1..]), s.events[0].0, s.events[0].1);
      DrainUnfold(s, budget);
      TableFifoStep(s.events, Drain(s, budget).consumed);
      if c.Returned? && c.value.Ok? {
        DrainRemovesDrained(s1, budget - 1);
        DrainOnlyRemovesDrained(s1, budget - 1);
      }
    }
  }

  lemma DrainTableStep(evs: seq<(ConnectionHandle, EndpointEvent)>)
    requires evs != []
    ensures ProtoHandles(evs) == (if evs[0].1.Proto? then {evs[0].0} else {}) + ProtoHandles(evs[1..])
    ensures DrainedHandles(evs) ==
      (if evs[0].1.Proto? && evs[0].1.event.drained then {evs[0].0} else {}) + DrainedHandles(evs[1..])
  {
  }

  /** The pending engine transmits passed to the host, in order, as `poll`'s first loop does. */
  function OnTransmits(id: u8, ts: seq<Transmit>): seq<Callback> {
    if ts == [] then [] else [OnTransmit(id, ts[0])] + OnTransmits(id, ts[1..])
  }

  /** The `i`-th callback carries the `i`-th transmit. */
  lemma {:induction false} OnTransmitsAt(id: u8, ts: seq<Transmit>)
    ensures |OnTransmits(id, ts)| == |ts|
    ensures forall i :: 0 <= i < |ts| ==> OnTransmits(id, ts)[i] == OnTransmit(id, ts[i])
    decreases |ts|
  {
    if ts != [] {
      OnTransmitsAt(id, ts[1..]);
    }
  }

  /** `poll`'s first loop, all at once: the engine's transmits handed to the host. */
  function Flush(s: EndpointState): EndpointState {
    EndpointState(s.engine.(transmits := []), s.connections, s.events, s.hasPollNotifier, s.id,
                  s.defaultClientConfig, s.callbacks + OnTransmits(s.id, s.engine.transmits))
  }

  /** `poll` passes every pending engine transmit to the host before any transmit a connection
      queued, then drains the queue as `handle_connection_events` does. */
  lemma PollFlushesFirst(s: EndpointState)
    ensures var d := Drain(Flush(s), IO_LOOP_BOUND);
      d.consumed <= |s.events| &&
      d.state.callbacks == s.callbacks + OnTransmits(s.id, s.engine.transmits) + TransmitCallbacks(s.id, s.events[..d.consumed]) &&
      d.state.engine.transmits == []
  {
    DrainForwardsTransmitsInOrder(Flush(s), IO_LOOP_BOUND);
    DrainKeepsTransmits(Flush(s), IO_LOOP_BOUND);
  }

  lemma {:induction false} DrainKeepsTransmits(s: EndpointState, budget: nat)
    ensures Drain(s, budget).state.engine.transmits == s.engine.transmits
    decreases budget
  {
    if budget > 0 && s.events != [] {
      var (s1, c) := Next(s);
      if c.Returned? && c.value.Ok? {
        DrainKeepsTransmits(s1, budget - 1);
      }
    }
  }

  /** The state a connection starts in when the endpoint creates it. */
  function NewConnection(conn: ProtoConnection, h: ConnectionHandle, now: Instant): Connection.ConnectionState {
    Connection.ConnectionState(conn, false, false, None, now, [], Sender([], true), 0, h, [])
  }

  lemma FlushStep(s: EndpointState)
    requires s.engine.transmits != []
    ensures Flush(s) == Flush(s.(engine := s.engine.(transmits := s.engine.transmits[1..]),
                                 callbacks := s.callbacks + [OnTransmit(s.id, s.engine.transmits[0])]))
  {
    var ts := s.engine.transmits;
    var s' := s.(engine := s.engine.(transmits := ts[1..]), callbacks := s.callbacks + [OnTransmit(s.id, ts[0])]);
    assert OnTransmits(s.id, ts) == [OnTransmit(s.id, ts[0])] + OnTransmits(s.id, ts[1..]);
    calc {
      Flush(s').callbacks;
      (s.callbacks + [OnTransmit(s.id, ts[0])]) + OnTransmits(s.id, ts[1..]);
      s.callbacks + ([OnTransmit(s.id, ts[0])] + OnTransmits(s.id, ts[1..]));
      Flush(s).callbacks;
    }
    assert Flush(s').engine == Flush(s).engine;
  }

  class EndpointImpl {
    var engine: ProtoEndpoint
    var connections: map<ConnectionHandle, Sender<ConnectionEvent>>
    var events: seq<(ConnectionHandle, EndpointEvent)>
    var hasPollNotifier: bool
    var id: u8
    var defaultClientConfig: Option<ClientConfig>
    var callbacks: seq<Callback>

    function Snapshot(): EndpointState
      reads this
    {
      EndpointState(engine, connections, events, hasPollNotifier, id, defaultClientConfig, callbacks)
    }

    /** `EndpointImpl::new`; `counter` is what the load of the global endpoint counter gives. */
    constructor (endpoint: ProtoEndpoint, counter: u8)
      ensures Snapshot() == EndpointState(endpoint, map[], [], false, WrappingAddU8(counter, 1), None, [])
    {
      engine := endpoint;
      connections := map[];
      events := [];
      hasPollNotifier := false;
      id := WrappingAddU8(counter, 1);
      defaultClientConfig := None;
      callbacks := [];
    }

    /** The receiving side of a connection's `endpoint_events_tx.send`: the event joins the end
        of the queue `handle_connection_events` drains. */
    method Receive(ev: (ConnectionHandle, EndpointEvent))
      modifies this
      ensures Snapshot() == old(Snapshot()).(events := old(events) + [ev])
    {
      events := events + [ev];
    }

    method SetPollNotifier()
      modifies this
      ensures Snapshot() == old(Snapshot()).(hasPollNotifier := true)
    {
      hasPollNotifier := true;
    }

    /** `notify_transmit`. */
    method NotifyTransmit(t: Transmit)
      modifies this
      ensures Snapshot() == old(Snapshot()).(callbacks := old(callbacks) + [OnTransmit(id, t)])
    {
      callbacks := callbacks + [OnTransmit(id, t)];
    }

    method Poll() returns (c: Completion<Result<bool, QuinnErrorKind>>)
      modifies this
      ensures Snapshot() == Drain(Flush(old(Snapshot())), IO_LOOP_BOUND).state
      ensures c == Drain(Flush(old(Snapshot())), IO_LOOP_BOUND).outcome
    {
      while engine.transmits != []
        invariant Flush(Snapshot()) == Flush(old(Snapshot()))
        decreases |engine.transmits|
      {
        var t := engine.transmits[0];
        FlushStep(Snapshot());
        engine := engine.(transmits := engine.transmits[1..]);
        NotifyTransmit(t);
      }
      assert callbacks + OnTransmits(id, []) == callbacks;
      assert Snapshot() == Flush(Snapshot());
      c := HandleConnectionEvents();
    }

    method HandleConnectionEvents() returns (c: Completion<Result<bool, QuinnErrorKind>>)
      modifies this
      ensures Snapshot() == Drain(old(Snapshot()), IO_LOOP_BOUND).state
      ensures c == Drain(old(Snapshot()), IO_LOOP_BOUND).outcome
    {
      ghost var d := Drain(Snapshot(), IO_LOOP_BOUND);
      var i := 0;
      while i < IO_LOOP_BOUND
        invariant 0 <= i <= IO_LOOP_BOUND
        invariant Drain(Snapshot(), IO_LOOP_BOUND - i).state == d.state
        invariant Drain(Snapshot(), IO_LOOP_BOUND - i).outcome == d.outcome
      {
        if events == [] {
          return Returned(Ok(false));
        }
        DrainUnfold(Snapshot(), IO_LOOP_BOUND - i);
        var r := TakeEvent();
        match r {
          case Panicked(m) => return Panicked(m);
          case Returned(Err(e)) => return Returned(Err(e));
          case Returned(Ok(_)) =>
        }
        i := i + 1;
      }
      return Returned(Ok(true));
    }

    /** The loop body of `handle_connection_events` on a non-empty queue: the oldest event is
        taken; a drained connection's entry is removed; the engine's answer is sent to the
        connection; a transmit goes to the host. */
    method TakeEvent() returns (c: Completion<Result<(), QuinnErrorKind>>)
      requires events != []
      modifies this
      ensures (Snapshot(), c) == Next(old(Snapshot()))
    {
      var (h, ev) := events[0];
      events := events[1..];
      match ev {
        case Transmit(t) =>
          NotifyTransmit(t);
        case Proto(p) =>
          if p.drained {
            connections := connections - {h};
          }
          engine := engine.(handled := engine.handled + [(h, p)]);
          if p.reply.Some? {
            if h !in connections {
              return Panicked(Some(UNWRAP_NONE));
            }
            var sent := connections[h].Send(ConnectionEvent.Proto(p.reply.value));
            if sent.None? {
              return Returned(Err(SEND_FAILED));
            }
            connections := connections[h := sent.value];
          }
      }
      return Returned(Ok(()));
    }

    /** `add_connection`: a fresh channel's sender is put in the table under `handle` (replacing
      any earlier one), then the connection is built; that panics when no poll notifier is set. */
    method AddConnection(handle: ConnectionHandle, connection: ProtoConnection, now: Instant)
      returns (c: Completion<Connection.ConnectionInner>)
      modifies this
      ensures Snapshot() == old(Snapshot()).(connections := old(connections)[handle := Sender([], true)])
      ensures c.Panicked? <==> !hasPollNotifier
      ensures c.Panicked? ==> c.payload == Some(UNWRAP_NONE)
      ensures c.Returned? ==> fresh(c.value) && c.value.Snapshot() == NewConnection(connection, handle, now)
    {
      connections := connections[handle := Sender([], true)];
      if !hasPollNotifier {
        return Panicked(Some(UNWRAP_NONE));
      }
      var inner := new Connection.ConnectionInner(connection, handle, [], Sender([], true), now);
      return Returned(inner);
    }

    /** `forward_event_to_connection`. */
    method ForwardEventToConnection(handle: ConnectionHandle, event: ProtoConnectionEvent)
      returns (c: Completion<Result<(), QuinnErrorKind>>)
      modifies this
      ensures var r := SendTo(old(connections), handle, ConnectionEvent.Proto(event));
        (r.Panicked? ==> c == Panicked(r.payload) && Snapshot() == old(Snapshot())) &&
        (r.Returned? && r.value.Err? ==> c == Returned(Err(r.value.error)) && Snapshot() == old(Snapshot())) &&
        (r.Returned? && r.value.Ok? ==> c == Returned(Ok(())) && Snapshot() == old(Snapshot()).(connections := r.value.value))
    {
      match SendTo(connections, handle, ConnectionEvent.Proto(event)) {
        case Panicked(m) => c := Panicked(m);
        case Returned(Err(e)) => c := Returned(Err(e));
        case Returned(Ok(table)) =>
          connections := table;
          c := Returned(Ok(()));
      }
    }

    method SetDefaultClientConfig(config: ClientConfig)
      modifies this
      ensures Snapshot() == old(Snapshot()).(defaultClientConfig := Some(config))
    {
      defaultClientConfig := Some(config);
    }

    /** `connect_with`: the engine (`engineConnect`) opens the connection or refuses it; an opened
      one is added as `add_connection` does. */
    method ConnectWith(config: ClientConfig, addr: Addr.SocketAddr, serverName: string,
                       engineConnect: (ClientConfig, Addr.SocketAddr, string) -> Result<(ConnectionHandle, ProtoConnection), ConnectError>,
                       now: Instant)
      returns (c: Completion<Result<Connection.ConnectionInner, ConnectError>>)
      modifies this
      ensures engineConnect(config, addr, serverName).Err? ==>
        c == Returned(Err(engineConnect(config, addr, serverName).error)) && Snapshot() == old(Snapshot())
      ensures engineConnect(config, addr, serverName).Ok? ==>
        var (h, conn) := engineConnect(config, addr, serverName).value;
        Snapshot() == old(Snapshot()).(connections := old(connections)[h := Sender([], true)]) &&
        (c.Panicked? <==> !hasPollNotifier) &&
        (c.Returned? ==> c.value.Ok? && fresh(c.value.value) && c.value.value.Snapshot() == NewConnection(conn, h, now))
    {
      match engineConnect(config, addr, serverName) {
        case Err(e) =>
          c := Returned(Err(e));
        case Ok((h, conn)) =>
          var added := AddConnection(h, conn, now);
          match added {
            case Panicked(m) => c := Panicked(m);
            case Returned(inner) => c := Returned(Ok(inner));
          }
      }
    }

    /** `connect`: fails with `NoDefaultClientConfig`, changing nothing, until a default
      configuration is set; then it is `connect_with` that configuration. */
    method Connect(addr: Addr.SocketAddr, serverName: string,
                   engineConnect: (ClientConfig, Addr.SocketAddr, string) -> Result<(ConnectionHandle, ProtoConnection), ConnectError>,
                   now: Instant)
      returns (c: Completion<Result<Connection.ConnectionInner, ConnectError>>)
      modifies this
      ensures old(defaultClientConfig).None? ==>
        c == Returned(Err(NoDefaultClientConfig)) && Snapshot() == old(Snapshot())
      ensures old(defaultClientConfig).Some? && engineConnect(old(defaultClientConfig).value, addr, serverName).Err? ==>
        c == Returned(Err(engineConnect(old(defaultClientConfig).value, addr, serverName).error)) && Snapshot() == old(Snapshot())
      ensures old(defaultClientConfig).Some? && engineConnect(old(defaultClientConfig).value, addr, serverName).Ok? ==>
        var (h, conn) := engineConnect(old(defaultClientConfig).value, addr, serverName).value;
        Snapshot() == old(Snapshot()).(connections := old(connections)[h := Sender([], true)]) &&
        (c.Panicked? <==> !hasPollNotifier) &&
        (c.Returned? ==> c.value.Ok? && fresh(c.value.value) && c.value.value.Snapshot() == NewConnection(conn, h, now))
    {
      if defaultClientConfig.None? {
        return Returned(Err(NoDefaultClientConfig));
      }
      c := ConnectWith(defaultClientConfig.value, addr, serverName, engineConnect, now);
    }
  }
}
