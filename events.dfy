/** The events the endpoint and its connections exchange over channels, the channel senders, and
    the callbacks into the host application, recorded in order of invocation. */
module Events {
  import opened Wrappers
  import opened Ints
  import opened Proto
  import QuinnResults
  import ProtoResult

  /** `endpoint::EndpointEvent`: what a connection sends its endpoint. */
  datatype EndpointEvent = Proto(event: ProtoEndpointEvent) | Transmit(transmit: Transmit)

  /** `connection::ConnectionEvent`: what an endpoint sends a connection. */
  datatype ConnectionEvent =
    | Close(errorCode: VarInt, reason: seq<u8>)
    | Proto(event: ProtoConnectionEvent)
    | Ping

  /** The sending side of an `mpsc` channel: what was sent, and whether the receiver still
      exists. */
  datatype Sender<T> = Sender(sent: seq<T>, receiverAlive: bool) {
    /** `Sender::send`: fails exactly when the receiver is gone. */
    function Send(v: T): (r: Option<Sender<T>>)
      ensures r.Some? <==> receiverAlive
      ensures r.Some? ==> r.value == Sender(sent + [v], true)
    {
      if receiverAlive then Some(Sender(sent + [v], true)) else None
    }
  }

  /** A failed `send` turned into an error by `?`. */
  const SEND_FAILED: QuinnResults.QuinnErrorKind := QuinnResults.QuinnErrorKind.IoError(ProtoResult.SEND_ERROR_TEXT)

  /** `try_recv` on an empty channel turned into an error by `?`. */
  const RECV_EMPTY: QuinnResults.QuinnErrorKind := QuinnResults.QuinnErrorKind.IoError("receiving on an empty channel")

  /** The callbacks of `bindings::callbacks` the pumps invoke. */
  datatype Callback =
    | OnTransmit(endpointId: u8, transmit: Transmit)
    | OnConnectionPollable(connection: u32)
    | OnConnected(connection: u32)
    | OnConnectionLost(connection: u32)
    | OnStreamWritable(connection: u32, stream: StreamId)
    | OnStreamOpened(connection: u32, dir: Dir)
    | OnDatagramReceived(connection: u32)
    | OnStreamReadable(connection: u32, stream: StreamId)
    | OnStreamAvailable(connection: u32, dir: Dir)
    | OnStreamFinished(connection: u32, stream: StreamId)
    | OnStreamStopped(connection: u32, stream: StreamId)
}
