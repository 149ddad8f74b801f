/** `ConnectionInner` of `src/proto_impl/connection.rs`: one connection's pump. Each `poll` takes
    at most one event from the endpoint, pushes the engine's transmits to the endpoint, checks the
    timer, forwards at most one engine event to the endpoint and reports the engine's application
    events through callbacks. */
module Connection {
  import opened Wrappers
  import opened Ints
  import opened Proto
  import opened Events
  import QuinnResults

  /** The error type the connection's operations return. */
  type QuinnErrorKind = QuinnResults.QuinnErrorKind

  /** The fields of a `ConnectionInner`, as one value. */
  datatype ConnectionState = ConnectionState(
    engine: ProtoConnection,
    connected: bool,
    handleEventCalled: bool,
    timerDeadline: Option<Instant>,
    lastPoll: Instant,
    connectionEvents: seq<ConnectionEvent>,
    endpointEvents: Sender<(ConnectionHandle, EndpointEvent)>,
    notifications: nat,
    handle: ConnectionHandle,
    callbacks: seq<Callback>)

  /** `connection_id`: the handle truncated to 32 bits, as `as u32` does. */
  function ConnectionId(h: ConnectionHandle): (id: u32)
    ensures h < U32_LIMIT ==> id == h
    ensures (h - id) % U32_LIMIT == 0
  {
    AsU32(h)
  }

  /** An expired timer: `now > deadline`. */
  predicate Fires(timeout: Option<Instant>, now: Instant) {
    timeout.Some? && now > timeout.value
  }

  /** `handle_timer`: with no timeout the deadline is cleared; an expired one is handled once and
      cleared; a pending one is stored. Only an expired deadline returns true. */
  function TimerStep(s: ConnectionState, now: Instant): (r: (ConnectionState, bool))
    ensures r.1 <==> Fires(s.engine.timeout, now)
    ensures r.0.timerDeadline == if s.engine.timeout.Some? && !r.1 then s.engine.timeout else None
    ensures r.0.engine.inputs == s.engine.inputs + if r.1 then [HandleTimeout(now)] else []
    ensures r.0 == s.(timerDeadline := r.0.timerDeadline, engine := s.engine.(inputs := r.0.engine.inputs))
  {
    match s.engine.timeout
    case None => (s.(timerDeadline := None), false)
    case Some(deadline) =>
      if now > deadline then
        (s.(engine := s.engine.(inputs := s.engine.inputs + [HandleTimeout(now)]), timerDeadline := None), true)
      else (s.(timerDeadline := Some(deadline)), false)
  }

  /** The endpoint events carrying `ts`, in order. */
  function TransmitEvents(h: ConnectionHandle, ts: seq<Transmit>): seq<(ConnectionHandle, EndpointEvent)> {
    if ts == [] then [] else [(h, EndpointEvent.Transmit(ts[0]))] + TransmitEvents(h, ts[1..])
  }

  /** The `i`-th event carries the `i`-th transmit. */
  lemma {:induction false} TransmitEventsAt(h: ConnectionHandle, ts: seq<Transmit>)
    ensures |TransmitEvents(h, ts)| == |ts|
    ensures forall i :: 0 <= i < |ts| ==> TransmitEvents(h, ts)[i] == (h, EndpointEvent.Transmit(ts[i]))
    decreases |ts|
  {
    if ts != [] {
      TransmitEventsAt(h, ts[1..]);
    }
  }

  /** `handle_transmits`: every transmit the engine yields is sent to the endpoint, each followed
      by a poll notification; a failed send ends it with an error, the transmit lost. */
  function TransmitsStep(s: ConnectionState): (r: (ConnectionState, Result<bool, QuinnErrorKind>))
    ensures r.0 == s.(engine := s.engine.(transmits := r.0.engine.transmits),
                      endpointEvents := r.0.endpointEvents, notifications := r.0.notifications)
    ensures |r.0.endpointEvents.sent| <= |s.endpointEvents.sent| + |s.engine.transmits|
    decreases |s.engine.transmits|
  {
    if s.engine.transmits == [] then (s, Ok(false))
    else
      var t := s.engine.transmits[0];
      var s1 := s.(engine := s.engine.(transmits := s.engine.transmits[1..]));
      match s1.endpointEvents.Send((s.handle, EndpointEvent.Transmit(t)))
      case None => (s1, Err(SEND_FAILED))
      case Some(tx) => TransmitsStep(s1.(endpointEvents := tx, notifications := s1.notifications + 1))
  }

  /** One iteration of `handle_transmits` towards a listening endpoint. */
  lemma TransmitsUnfold(s: ConnectionState)
    requires s.endpointEvents.receiverAlive && s.engine.transmits != []
    ensures TransmitsStep(s) ==
      TransmitsStep(s.(engine := s.engine.(transmits := s.engine.transmits[1..]),
                       endpointEvents := Sender(s.endpointEvents.sent + [(s.handle, EndpointEvent.Transmit(s.engine.transmits[0]))], true),
                       notifications := s.notifications + 1))
  {
  }

  /** With the endpoint listening, every pending transmit is forwarded in order, each with one
      notification, and the result is `Ok(false)`; nothing else changes. */
  lemma {:induction false} TransmitsForwardAll(s: ConnectionState)
    requires s.endpointEvents.receiverAlive
    ensures TransmitsStep(s).1 == Ok(false)
    ensures TransmitsStep(s).0 ==
      s.(engine := s.engine.(transmits := []),
         endpointEvents := Sender(s.endpointEvents.sent + TransmitEvents(s.handle, s.engine.transmits), true),
         notifications := s.notifications + |s.engine.transmits|)
    decreases |s.engine.transmits|
  {
    var ts := s.engine.transmits;
    if ts != [] {
      var x := (s.handle, EndpointEvent.Transmit(ts[0]));
      var s2 := s.(engine := s.engine.(transmits := ts[1..]),
                   endpointEvents := Sender(s.endpointEvents.sent + [x], true),
                   notifications := s.notifications + 1);
      TransmitsUnfold(s);
      TransmitsForwardAll(s2);
      calc {
        s2.endpointEvents.sent + TransmitEvents(s.handle, ts[1..]);
        (s.endpointEvents.sent + [x]) + TransmitEvents(s.handle, ts[1..]);
        s.endpointEvents.sent + ([x] + TransmitEvents(s.handle, ts[1..]));
        s.endpointEvents.sent + TransmitEvents(s.handle, ts);
      }
      assert s2.engine.(transmits := []) == s.engine.(transmits := []);
    }
  }

  /** `handle_transmits` never asks to be polled again; with the endpoint gone, the first pending
      transmit is taken and the call fails without sending anything. */
  lemma TransmitsNeverTrue(s: ConnectionState)
    ensures TransmitsStep(s).1 != Ok(true)
    ensures s.engine.transmits == [] ==> TransmitsStep(s) == (s, Ok(false))
    ensures !s.endpointEvents.receiverAlive && s.engine.transmits != [] ==>
      TransmitsStep(s) == (s.(engine := s.engine.(transmits := s.engine.transmits[1..])), Err(SEND_FAILED))
  {
    if s.endpointEvents.receiverAlive {
      TransmitsForwardAll(s);
    }
  }

  /** `handle_endpoint_events`: at most one engine event is sent to the endpoint. */
  function EndpointEventsStep(s: ConnectionState): (r: (ConnectionState, Result<(), QuinnErrorKind>))
    ensures r.0 == s.(engine := r.0.engine, endpointEvents := r.0.endpointEvents, notifications := r.0.notifications)
    ensures |r.0.endpointEvents.sent| <= |s.endpointEvents.sent| + 1
    ensures s.engine.endpointEvents == [] ==> r == (s, Ok(()))
    ensures s.engine.endpointEvents != [] ==>
      r.0.engine == s.engine.(endpointEvents := s.engine.endpointEvents[1..]) &&
      (r.1.Ok? <==> s.endpointEvents.receiverAlive) &&
      (r.1.Ok? ==>
         r.0.endpointEvents.sent == s.endpointEvents.sent + [(s.handle, EndpointEvent.Proto(s.engine.endpointEvents[0]))])
  {
    if s.engine.endpointEvents == [] then (s, Ok(()))
    else
      var e := s.engine.endpointEvents[0];
      var s1 := s.(engine := s.engine.(endpointEvents := s.engine.endpointEvents[1..]));
      match s1.endpointEvents.Send((s.handle, EndpointEvent.Proto(e)))
      case None => (s1, Err(SEND_FAILED))
      case Some(tx) => (s1.(endpointEvents := tx, notifications := s1.notifications + 1), Ok(()))
  }

  /** `handle_connection_events`: at most one event from the endpoint is taken; an engine event
      is handed to the engine and recorded in `handle_event_called`, a ping pings, a close is
      dropped. An empty channel is an error. */
  function ConnectionEventsStep(s: ConnectionState): (r: (ConnectionState, Result<(), QuinnErrorKind>))
    ensures s.connectionEvents == [] <==> r.1.Err?
    ensures s.connectionEvents == [] ==> r.0 == s
    ensures s.connectionEvents != [] ==> r.0.connectionEvents == s.connectionEvents[1..]
    ensures r.0.handleEventCalled <==>
      s.handleEventCalled || (s.connectionEvents != [] && s.connectionEvents[0].Proto?)
    ensures r.0 == s.(connectionEvents := r.0.connectionEvents, handleEventCalled := r.0.handleEventCalled,
                      engine := s.engine.(inputs := r.0.engine.inputs))
  {
    if s.connectionEvents == [] then (s, Err(RECV_EMPTY))
    else
      var s1 := s.(connectionEvents := s.connectionEvents[1..]);
      match s.connectionEvents[0]
      case Close(_, _) => (s1, Ok(()))
      case Proto(p) =>
        (s1.(handleEventCalled := true, engine := s.engine.(inputs := s.engine.inputs + [HandleEvent(p)])), Ok(()))
      case Ping => (s1.(engine := s.engine.(inputs := s.engine.inputs + [ConnectionInput.Ping])), Ok(()))
  }

  /** The callbacks one application event causes. */
  function AppCallbacks(id: u32, e: AppEvent): seq<Callback> {
    match e
    case HandshakeDataReady => []
    case Connected => [OnConnected(id)]
    case ConnectionLost(_) => [OnConnectionLost(id)]
    case StreamWritable(stream) => [OnStreamWritable(id, stream)]
    case StreamOpened(dir) => [OnStreamOpened(id, dir)]
    case DatagramReceived => [OnDatagramReceived(id)]
    case StreamReadable(stream) => [OnStreamReadable(id, stream)]
    case StreamAvailable(dir) => [OnStreamAvailable(id, dir)]
    case StreamFinished(stream) => [OnStreamFinished(id, stream)]
    case StreamStopped(stream, _) => [OnStreamStopped(id, stream)]
  }

  /** The callbacks a sequence of application events causes, in order. */
  function AllAppCallbacks(id: u32, es: seq<AppEvent>): seq<Callback> {
    if es == [] then [] else AppCallbacks(id, es[0]) + AllAppCallbacks(id, es[1..])
  }

  /** Handling one application event. */
  function AppEventStep(s: ConnectionState, e: AppEvent): ConnectionState {
    s.(connected := s.connected || e.Connected?,
       callbacks := s.callbacks + AppCallbacks(ConnectionId(s.handle), e))
  }

  /** `handle_app_events`: every application event the engine yields, in order. */
  function AppStep(s: ConnectionState): (r: ConnectionState)
    ensures r.handle == s.handle && r.connectionEvents == s.connectionEvents && r.endpointEvents == s.endpointEvents
    ensures r.handleEventCalled == s.handleEventCalled && r.engine.endpointEvents == s.engine.endpointEvents
    decreases |s.engine.appEvents|
  {
    if s.engine.appEvents == [] then s
    else
      var e := s.engine.appEvents[0];
      AppStep(AppEventStep(s.(engine := s.engine.(appEvents := s.engine.appEvents[1..])), e))
  }

  /** `handle_app_events` drains the engine's application events: `connected` becomes true exactly
      when it was or a `Connected` event came, every event's callback is made in order, and nothing
      else changes. In particular no event clears `connected`. */
  lemma {:induction false} AppStepEffect(s: ConnectionState)
    ensures AppStep(s).connected <==> s.connected || AppEvent.Connected in s.engine.appEvents
    ensures AppStep(s) ==
      s.(engine := s.engine.(appEvents := []),
         connected := AppStep(s).connected,
         callbacks := s.callbacks + AllAppCallbacks(ConnectionId(s.handle), s.engine.appEvents))
    decreases |s.engine.appEvents|
  {
    if s.engine.appEvents != [] {
      var es := s.engine.appEvents;
      var s1 := AppEventStep(s.(engine := s.engine.(appEvents := es[1..])), es[0]);
      AppStepEffect(s1);
      assert es == [es[0]] + es[1..];
      assert AppEvent.Connected in es <==> es[0].Connected? || AppEvent.Connected in es[1..];
    }
  }

  /** `poll`: connection event, transmits, timer, endpoint event, application events, then a
      pollable mark if the transmits or the timer asked for one. A failed transmit send returns
      the error at once. */
  function PollStep(s: ConnectionState, now: Instant): (ConnectionState, Result<(), QuinnErrorKind>) {
    var s1 := ConnectionEventsStep(s).0;
    var (s2, transmitted) := TransmitsStep(s1);
    match transmitted
    case Err(e) => (s2, Err(e))
    case Ok(again) =>
      var (s3, fired) := TimerStep(s2, now);
      var s4 := AppStep(EndpointEventsStep(s3).0);
      if again || fired then (s4.(callbacks := s4.callbacks + [OnConnectionPollable(ConnectionId(s.handle))]), Ok(()))
      else (s4, Ok(()))
  }

  /** The intermediate states of one `poll`, named. */
  datatype PollTrace = PollTrace(
    afterEvent: ConnectionState, afterTransmits: ConnectionState, transmitted: Result<bool, QuinnErrorKind>,
    afterTimer: ConnectionState, fired: bool, afterEndpoint: ConnectionState, afterApp: ConnectionState)

  function TraceOf(s: ConnectionState, now: Instant): (t: PollTrace)
    ensures t.afterEvent == ConnectionEventsStep(s).0
    ensures (t.afterTransmits, t.transmitted) == TransmitsStep(t.afterEvent)
    ensures (t.afterTimer, t.fired) == TimerStep(t.afterTransmits, now)
    ensures t.afterEndpoint == EndpointEventsStep(t.afterTimer).0
    ensures t.afterApp == AppStep(t.afterEndpoint)
    ensures t.transmitted.Err? ==> PollStep(s, now) == (t.afterTransmits, Err(t.transmitted.error))
    ensures t.transmitted.Ok? ==>
      PollStep(s, now) ==
        (if t.transmitted.value || t.fired
         then t.afterApp.(callbacks := t.afterApp.callbacks + [OnConnectionPollable(ConnectionId(s.handle))])
         else t.afterApp, Ok(()))
  {
    var s1 := ConnectionEventsStep(s).0;
    var (s2, tr) := TransmitsStep(s1);
    var (s3, fired) := TimerStep(s2, now);
    var s4 := EndpointEventsStep(s3).0;
    PollTrace(s1, s2, tr, s3, fired, s4, AppStep(s4))
  }

  /** What the steps before the application events leave alone. */
  lemma TraceFrames(s: ConnectionState, now: Instant)
    ensures var t := TraceOf(s, now);
      t.afterTransmits.engine.timeout == s.engine.timeout &&
      t.afterEndpoint.callbacks == s.callbacks && t.afterEndpoint.connected == s.connected &&
      t.afterEndpoint.engine.appEvents == s.engine.appEvents && t.afterEndpoint.handle == s.handle &&
      t.afterTransmits.callbacks == s.callbacks && t.afterTransmits.connected == s.connected &&
      t.afterTransmits.engine.appEvents == s.engine.appEvents
  {
    var t := TraceOf(s, now);
    assert t.afterEvent.callbacks == s.callbacks && t.afterEvent.connected == s.connected;
    assert t.afterEvent.engine.appEvents == s.engine.appEvents && t.afterEvent.engine.timeout == s.engine.timeout;
    assert t.afterTimer.callbacks == t.afterTransmits.callbacks && t.afterTimer.connected == t.afterTransmits.connected;
    assert t.afterTimer.engine.appEvents == t.afterTransmits.engine.appEvents;
  }

  /** One `poll` takes at most one event from the endpoint. */
  lemma PollTakesAtMostOneEvent(s: ConnectionState, now: Instant)
    ensures PollStep(s, now).0.connectionEvents == if s.connectionEvents == [] then [] else s.connectionEvents[1..]
  {
    var t := TraceOf(s, now);
    assert t.afterTimer.connectionEvents == t.afterEvent.connectionEvents;
  }

  /** One `poll` forwards at most one engine event to the endpoint, besides the transmits. */
  lemma PollForwardsAtMostOneEvent(s: ConnectionState, now: Instant)
    ensures |PollStep(s, now).0.endpointEvents.sent| <= |s.endpointEvents.sent| + |s.engine.transmits| + 1
    ensures var r := PollStep(s, now).0;
      r.engine.endpointEvents == s.engine.endpointEvents ||
      (s.engine.endpointEvents != [] && r.engine.endpointEvents == s.engine.endpointEvents[1..])
  {
    var t := TraceOf(s, now);
    assert t.afterEvent.engine.transmits == s.engine.transmits;
    assert t.afterEvent.endpointEvents == s.endpointEvents;
    assert t.afterEvent.engine.endpointEvents == s.engine.endpointEvents;
    assert t.afterTimer.endpointEvents == t.afterTransmits.endpointEvents;
    assert t.afterTimer.engine.endpointEvents == t.afterTransmits.engine.endpointEvents;
  }

  /** A `Proto` event from the endpoint sets `handle_event_called`; nothing resets it. */
  lemma PollHandleEventCalled(s: ConnectionState, now: Instant)
    ensures PollStep(s, now).0.handleEventCalled <==>
      s.handleEventCalled || (s.connectionEvents != [] && s.connectionEvents[0].Proto?)
  {
    var t := TraceOf(s, now);
    assert t.afterTimer.handleEventCalled == t.afterTransmits.handleEventCalled;
  }

  /** On success, `poll` reports the application events and then marks the connection pollable
      exactly when the timer expired (the transmits never ask for it). */
  lemma PollReports(s: ConnectionState, now: Instant)
    requires PollStep(s, now).1.Ok?
    ensures PollStep(s, now).0.callbacks ==
      s.callbacks + AllAppCallbacks(ConnectionId(s.handle), s.engine.appEvents) +
      (if Fires(s.engine.timeout, now) then [OnConnectionPollable(ConnectionId(s.handle))] else [])
  {
    var t := TraceOf(s, now);
    TraceFrames(s, now);
    assert t.transmitted.Ok?;
    TransmitsNeverTrue(t.afterEvent);
    assert t.transmitted == TransmitsStep(t.afterEvent).1;
    assert !t.transmitted.value;
    var e := t.afterEndpoint;
    AppStepEffect(e);
    assert t.afterApp.callbacks == s.callbacks + AllAppCallbacks(ConnectionId(s.handle), s.engine.appEvents);
  }

  /** `connected` is set during a successful `poll` exactly when a `Connected` event came. */
  lemma PollConnects(s: ConnectionState, now: Instant)
    requires PollStep(s, now).1.Ok?
    ensures PollStep(s, now).0.connected <==> s.connected || AppEvent.Connected in s.engine.appEvents
  {
    var t := TraceOf(s, now);
    TraceFrames(s, now);
    AppStepEffect(t.afterEndpoint);
  }

  /** A failed transmit send skips the timer, the application events and the pollable mark. */
  lemma PollStopsOnSendFailure(s: ConnectionState, now: Instant)
    requires PollStep(s, now).1.Err?
    ensures PollStep(s, now).1.error == SEND_FAILED
    ensures PollStep(s, now).0.callbacks == s.callbacks && PollStep(s, now).0.connected == s.connected
    ensures PollStep(s, now).0.engine.appEvents == s.engine.appEvents
    ensures !s.endpointEvents.receiverAlive
  {
    var t := TraceOf(s, now);
    if t.afterEvent.endpointEvents.receiverAlive {
      TransmitsForwardAll(t.afterEvent);
    }
    TransmitsNeverTrue(t.afterEvent);
    TransmitsErr(t.afterEvent);
  }

  /** The only error `handle_transmits` reports is a failed send. */
  lemma {:induction false} TransmitsErr(s: ConnectionState)
    ensures TransmitsStep(s).1.Err? ==> TransmitsStep(s).1.error == SEND_FAILED
    decreases |s.engine.transmits|
  {
    if s.engine.transmits != [] {
      var t := s.engine.transmits[0];
      var s1 := s.(engine := s.engine.(transmits := s.engine.transmits[1..]));
      match s1.endpointEvents.Send((s.handle, EndpointEvent.Transmit(t)))
      case None =>
      case Some(tx) => TransmitsErr(s1.(endpointEvents := tx, notifications := s1.notifications + 1));
    }
  }

  /** No `poll` clears `connected`. */
  lemma PollKeepsConnected(s: ConnectionState, now: Instant)
    requires s.connected
    ensures PollStep(s, now).0.connected
  {
    var t := TraceOf(s, now);
    assert t.afterTimer.connected == t.afterTransmits.connected;
    AppStepEffect(t.afterEndpoint);
  }

  class ConnectionInner {
    var engine: ProtoConnection
    var connected: bool
    var handleEventCalled: bool
    var timerDeadline: Option<Instant>
    var lastPoll: Instant
    var connectionEvents: seq<ConnectionEvent>
    var endpointEvents: Sender<(ConnectionHandle, EndpointEvent)>
    var notifications: nat
    var connectionHandle: ConnectionHandle
    var callbacks: seq<Callback>

    function Snapshot(): ConnectionState
      reads this
    {
      ConnectionState(engine, connected, handleEventCalled, timerDeadline, lastPoll, connectionEvents,
                      endpointEvents, notifications, connectionHandle, callbacks)
    }

    /** `ConnectionInner::new`: not connected, no engine event handled yet, no deadline. */
    constructor (connection: ProtoConnection, handle: ConnectionHandle, recv: seq<ConnectionEvent>,
                 endpointEventsTx: Sender<(ConnectionHandle, EndpointEvent)>, now: Instant)
      ensures Snapshot() == ConnectionState(connection, false, false, None, now, recv, endpointEventsTx, 0, handle, [])
    {
      engine := connection;
      connected := false;
      handleEventCalled := false;
      timerDeadline := None;
      lastPoll := now;
      connectionEvents := recv;
      endpointEvents := endpointEventsTx;
      notifications := 0;
      connectionHandle := handle;
      callbacks := [];
    }

    /** `mark_pollable`. */
    method MarkPollable()
      modifies this
      ensures Snapshot() == old(Snapshot()).(callbacks := old(callbacks) + [OnConnectionPollable(ConnectionId(connectionHandle))])
    {
      callbacks := callbacks + [OnConnectionPollable(ConnectionId(connectionHandle))];
    }

    method HandleTimer(now: Instant) returns (fired: bool)
      modifies this
      ensures (Snapshot(), fired) == TimerStep(old(Snapshot()), now)
    {
      match engine.timeout {
        case None =>
          timerDeadline := None;
          return false;
        case Some(deadline) =>
          timerDeadline := Some(deadline);
      }
      if now > timerDeadline.value {
        engine := engine.(inputs := engine.inputs + [HandleTimeout(now)]);
        timerDeadline := None;
        return true;
      }
      return false;
    }

    method HandleTransmits() returns (r: Result<bool, QuinnErrorKind>)
      modifies this
      ensures (Snapshot(), r) == TransmitsStep(old(Snapshot()))
    {
      while engine.transmits != []
        invariant TransmitsStep(Snapshot()) == TransmitsStep(old(Snapshot()))
        decreases |engine.transmits|
      {
        var t := engine.transmits[0];
        engine := engine.(transmits := engine.transmits[1..]);
        var sent := endpointEvents.Send((connectionHandle, EndpointEvent.Transmit(t)));
        if sent.None? {
          return Err(SEND_FAILED);
        }
        endpointEvents := sent.value;
        notifications := notifications + 1;
      }
      return Ok(false);
    }

    method HandleEndpointEvents() returns (r: Result<(), QuinnErrorKind>)
      modifies this
      ensures (Snapshot(), r) == EndpointEventsStep(old(Snapshot()))
    {
      if engine.endpointEvents != [] {
        var e := engine.endpointEvents[0];
        engine := engine.(endpointEvents := engine.endpointEvents[1..]);
        var sent := endpointEvents.Send((connectionHandle, EndpointEvent.Proto(e)));
        if sent.None? {
          return Err(SEND_FAILED);
        }
        endpointEvents := sent.value;
        notifications := notifications + 1;
      }
      return Ok(());
    }

    method HandleConnectionEvents() returns (r: Result<(), QuinnErrorKind>)
      modifies this
      ensures (Snapshot(), r) == ConnectionEventsStep(old(Snapshot()))
    {
      if connectionEvents == [] {
        return Err(RECV_EMPTY);
      }
      var event := connectionEvents[0];
      connectionEvents := connectionEvents[1..];
      match event {
        case Close(_, _) =>
        case Proto(p) =>
          handleEventCalled := true;
          engine := engine.(inputs := engine.inputs + [HandleEvent(p)]);
        case Ping =>
          engine := engine.(inputs := engine.inputs + [ConnectionInput.Ping]);
      }
      return Ok(());
    }

    method HandleAppEvents()
      modifies this
      ensures Snapshot() == AppStep(old(Snapshot()))
    {
      while engine.appEvents != []
        invariant AppStep(Snapshot()) == AppStep(old(Snapshot()))
        decreases |engine.appEvents|
      {
        var event := engine.appEvents[0];
        engine := engine.(appEvents := engine.appEvents[1..]);
        connected := connected || event.Connected?;
        callbacks := callbacks + AppCallbacks(ConnectionId(connectionHandle), event);
      }
    }

    method Poll(now: Instant) returns (r: Result<(), QuinnErrorKind>)
      modifies this
      ensures (Snapshot(), r) == PollStep(old(Snapshot()), now)
    {
      var _ := HandleConnectionEvents();
      var transmitted := HandleTransmits();
      if transmitted.Err? {
        return Err(transmitted.error);
      }
      var fired := HandleTimer(now);
      var pollAgain := transmitted.value || fired;
      var _ := HandleEndpointEvents();
      HandleAppEvents();
      if pollAgain {
        MarkPollable();
      }
      return Ok(());
    }
  }
}
