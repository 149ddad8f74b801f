/** Stand-ins for the `quinn_proto` values the wrapper passes around. The engine itself is not
    modelled: an engine object is a record of what it will hand out next (queued transmits, events,
    a timeout) and a log of what the wrapper fed it. */
module Proto {
  import opened Wrappers
  import opened Ints
  import Addr

  datatype Dir = Bi | Uni

  /** Variable-length integers hold values below 2^62 (RFC 9000, section 16). */
  const VARINT_LIMIT: int := 0x4000_0000_0000_0000

  type VarIntValue = x: int | 0 <= x < VARINT_LIMIT

  /** `VarInt`. */
  datatype VarInt = VarInt(value: VarIntValue)

  /** `StreamId`; the engine only hands out identifiers that fit a `VarInt`. */
  datatype StreamId = StreamId(value: VarIntValue)

  /** `VarIntBoundsExceeded`, and the text its `Display` gives. */
  datatype VarIntBoundsExceeded = VarIntBoundsExceeded
  const VARINT_BOUNDS_TEXT: string := "value too large for varint encoding"

  /** `Instant`, as a tick count. */
  type Instant = nat

  /** `ConnectionHandle(usize)`. */
  type ConnectionHandle = usize

  /** `Transmit`: an outgoing datagram. */
  datatype Transmit = Transmit(destination: Addr.SocketAddr, contents: seq<u8>)

  /** `proto::ConnectionEvent`, opaque to the wrapper. */
  datatype ProtoConnectionEvent = ProtoConnectionEvent(tag: nat)

  /** `proto::EndpointEvent`, opaque to the wrapper except for `is_drained`. The engine's answer
      to it (what `Endpoint::handle_event` returns) travels with the event. */
  datatype ProtoEndpointEvent = ProtoEndpointEvent(drained: bool, reply: Option<ProtoConnectionEvent>)

  /** `ClientConfig`, opaque. */
  datatype ClientConfig = ClientConfig(tag: nat)

  /** `ConnectError`: the wrapper produces `NoDefaultClientConfig` itself; the others come from the
      engine. */
  datatype ConnectError = NoDefaultClientConfig | EngineRejected(reason: string)

  /** `ReadError`: `Blocked`, or another error carried by its text. */
  datatype ReadError = Blocked | Failed(text: string)

  /** `quinn_proto::Event`, the application events `Connection::poll` yields. */
  datatype AppEvent =
    | HandshakeDataReady
    | Connected
    | ConnectionLost(reason: string)
    | StreamWritable(id: StreamId)
    | StreamOpened(dir: Dir)
    | DatagramReceived
    | StreamReadable(id: StreamId)
    | StreamAvailable(dir: Dir)
    | StreamFinished(id: StreamId)
    | StreamStopped(id: StreamId, errorCode: VarInt)

  /** What the wrapper hands a connection engine. */
  datatype ConnectionInput = HandleEvent(event: ProtoConnectionEvent) | HandleTimeout(now: Instant) | Ping

  /** `proto::Connection`: the transmits, timeout, endpoint events and application events it will
      hand out, and the inputs it was given. */
  datatype ProtoConnection = ProtoConnection(
    transmits: seq<Transmit>,
    timeout: Option<Instant>,
    endpointEvents: seq<ProtoEndpointEvent>,
    appEvents: seq<AppEvent>,
    inputs: seq<ConnectionInput>)

  /** `proto::Endpoint`: the transmits it will hand out, and the events it was given. */
  datatype ProtoEndpoint = ProtoEndpoint(
    transmits: seq<Transmit>,
    handled: seq<(ConnectionHandle, ProtoEndpointEvent)>)
}
