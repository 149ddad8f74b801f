# quinn-ffi wrapper core, modelled in Dafny

quinn-ffi exposes the `quinn_proto` QUIC engine through a C ABI. This project models the wrapper
around that engine:

- **Address codec** (`addr.dfy`): the FFI-safe `IpAddr` holds a port and four IPv4 octets. It
  converts to and from Rust's `SocketAddr`. Converting an IPv6 address panics.
- **Result layers and their thread-local "last result" cell** (`quinn_result.dfy`, `ffi_result.dfy`,
  `result.dfy`). Each layer has a closed result kind that is returned across the boundary. Each
  has a cell that `catch` empties, `context` fills and `with_last_result`/`from_last_result` read.
  Its `From<Result<..>>` maps an error taxonomy onto result kinds.
  - The cell is the one mutable field `last` of a `LastResultCell` class, one per layer, for a
    single thread.
  - A panic is an explicit outcome, `Completion.Panicked(payload)`. A panic that escapes `catch`
    is a `Panicked` result of `catch` itself.
- **Argument-checking wrappers** (`macros.dfy`, `safe_api.dfy`): the two `ffi!` macros check the
  arguments for null in declaration order. The first null one makes the call return
  `ArgumentNull` with a context naming it. Otherwise the body runs under `catch`. `safe_api.dfy`
  also models the mutex handles' `mut_access`/`ref_access`.
- **Bindings** (`bindings.dfy`):
  - `last_error`, which copies the stored message into a caller buffer, with a "buffer too small"
    protocol. It is modelled as a method over caller-owned arrays.
  - Direction and stream-id decoding, with the 2^62 bound that section 16 of RFC 9000 puts on
    variable-length integers.
  - The bodies of `read_stream`, `write_stream`, `accept_stream` and `open_stream`, which map the
    engine's answers onto errors and write out-parameters.
- **Event pumps** (`endpoint.dfy`, `connection.dfy`, with `events.dfy` and `proto.dfy`):
  - `EndpointImpl` keeps a table from connection handle to channel sender. It drains at most 160
    queued events per call, oldest first, removes the entry of a drained connection, and gates
    `connect` on a default client configuration.
  - `ConnectionInner` is a small state machine over a timer deadline and the `connected` and
    `handle_event_called` flags. It forwards transmits and engine events to its endpoint and
    reports application events through callbacks.
  - Both are classes whose fields the methods update. Each method's `ensures` ties the new state to
    a pure step function of the old state (`Snapshot() == Step(old(Snapshot()))`). The lemmas
    state the pumps' properties about those step functions.
  - The QUIC engine is not part of the model. It appears only as recorded inputs
    (`ProtoConnection.inputs`, `ProtoEndpoint.handled`) and pre-loaded answers (transmits,
    timeouts, events). Channels are `seq` queues, and host callbacks are appended to a `callbacks`
    sequence in call order.

Support modules:
- `wrappers.dfy`: Option, Result, Completion and Run.
- `ints.dfy`: Rust's unsigned widths, `as u32` and `wrapping_add`.
- `text.dfy`: UTF-8 bytes of a `String`, and the `{}` rendering of integers with its parser as
  partner.

The two result layers name their error types differently. The `QuinnResult` layer uses
`QuinnErrorKind`, which none of the modelled files defines. The `FFIResult` layer uses
`FFIErrorKind` from `src/proto_impl/result.rs`. Each layer is modelled against the enum it
references. `QuinnErrorKind` is given the variants its uses name (`QuinErrorKind(kind)` and
`QuinnError { code, reason }`) plus an `IoError` for errors converted from other types, and its
text follows the `Display` format of `FFIErrorKind`.

## Model

| member | source | states |
|---|---|---|
| Ints.AsU32 | src/proto_impl/connection.rs:194-196 | `as u32` keeps values below 2^32 and otherwise differs from its input by a multiple of 2^32 |
| Ints.WrappingAddU8 | src/proto_impl/endpoint.rs:95 | `wrapping_add` is the true sum below 256 and the sum minus 256 otherwise |
| Text.Utf8HasNul | src/ffi/quinn_result.rs:200-206 | a string's UTF-8 bytes contain a zero byte exactly when the string contains NUL, so `CString::new` fails exactly on NUL-bearing text |
| Text.Utf8Append | src/ffi/bindings.rs:191 | the bytes of a concatenation are the concatenation of the bytes |
| Text.Utf8Ascii | src/ffi/bindings.rs:191-195 | an ASCII message has one byte per character, so the length reported to the caller equals its character count |
| Text.Decimal | src/proto_impl/result.rs:61 | `{}` of an integer is a non-empty digit string without a leading zero |
| Text.DecimalRoundTrip | src/proto_impl/result.rs:61 | parsing the rendered digits gives back the integer |
| Text.DecimalOfParse | src/proto_impl/result.rs:61 | every digit string without a leading zero is the rendering of its value (the rendering is onto canonical digit strings) |
| Addr.Ipv4Addr.Octets | src/proto_impl/addr.rs:25 | the four octets in order a, b, c, d |
| Addr.FromSocketAddr | src/proto_impl/addr.rs:21-34 | returns exactly for V4 addresses, keeping port and octets; a V6 address panics with "not supported" |
| Addr.IntoSocketAddr | src/proto_impl/addr.rs:36-48 | always a V4 address with the stored port and the octets in index order |
| Addr.FromKeepsPort | src/proto_impl/addr.rs:29-32 | converting a V4 address keeps the port |
| Addr.FromKeepsOctets | src/proto_impl/addr.rs:24-31 | converting a V4 address keeps each of the four octets at its index |
| Addr.V6Rejected | src/proto_impl/addr.rs:26 | a V6 address never yields an `IpAddr` |
| Addr.SocketAddrRoundTrip | src/proto_impl/addr.rs:21-48 | `into(from(a)) == a` for every V4 socket address |
| Addr.IpAddrRoundTrip | src/proto_impl/addr.rs:21-48 | `from(into(x)) == x` for every `IpAddr` |
| Addr.IntoInjective | src/proto_impl/addr.rs:38-47 | two `IpAddr`s denoting the same socket address are equal |
| QuinnResults.QuinnResult.Display | src/ffi/quinn_result.rs:146-157 | the fixed sentence of every kind is NUL-free, so `catch` can always record it |
| QuinnResults.IsErrIffNotOk | src/ffi/quinn_result.rs:58-60 | `is_err` holds iff the kind is not `Ok`, iff the text is not "Successful" |
| QuinnResults.NewQuinnError | src/ffi/quinn_result.rs:200-206 | `QuinnError::new` returns the code and the string's bytes iff those bytes hold no zero; otherwise it panics |
| QuinnResults.Converted | src/ffi/quinn_result.rs:159-175 | `Ok` maps to `Ok`; a bare kind maps to itself with the cell untouched; any other error maps to `Error` with a code-0 context holding its text, or panics when that text holds a NUL |
| QuinnResults.Stored | src/ffi/quinn_result.rs:70-84 | the closure gets an error iff the cell holds a `LastResult` with one, and then that error |
| QuinnResults.PanicText | src/ffi/quinn_result.rs:115-116 | the recorded panic message wraps the payload in the fixed 22 characters of the format |
| QuinnResults.SettledKeepsKind | src/ffi/quinn_result.rs:95-112 | without a panic, `catch` returns a result of the closure's kind |
| QuinnResults.SettledRecordsOnlyOverContext | src/ffi/quinn_result.rs:96-106 | after an erroneous closure the cell holds the result's own text iff the closure had stored a context; otherwise it stays empty; a successful closure leaves it unchanged |
| QuinnResults.SettledPanicIsError | src/ffi/quinn_result.rs:113-128 | a panicking closure makes `catch` return `Error`, unless recording the panic panics in turn, which happens iff a context was set and the payload is missing or holds a NUL |
| QuinnResults.LastResultCell.constructor | src/ffi/quinn_result.rs:18-20 | a thread starts with an empty cell |
| QuinnResults.LastResultCell.Context | src/ffi/quinn_result.rs:61-68 | returns the receiver unchanged and stores the given error |
| QuinnResults.LastResultCell.WithLastResult | src/ffi/quinn_result.rs:70-84 | the closure gets `Some(err)` iff the cell holds an error, otherwise `None` |
| QuinnResults.LastResultCell.Clear | src/ffi/quinn_result.rs:90-92 | the cell is emptied |
| QuinnResults.LastResultCell.Settle | src/ffi/quinn_result.rs:94-128 | the cell and the result after the closure are as `Settled` describes |
| QuinnResults.LastResultCell.Catch | src/ffi/quinn_result.rs:86-133 | the closure runs on an empty cell, whatever was stored before, and the outcome is `Settled` of its run |
| QuinnResults.LastResultCell.FromResult | src/ffi/quinn_result.rs:159-175 | the cell and the result are as `Converted` describes for the cell found |
| QuinnResults.LastResultCell.FromStr | src/ffi/quinn_result.rs:177-181 | a NUL-free string gives `Error` with the string's bytes as context; a NUL panics and leaves the cell alone |
| Macros.FirstNull | src/macros.rs:16-20 | the index of the first null argument, or none iff no argument is null |
| Macros.IdentifierNulFree | src/macros.rs:18 | an argument's name holds no NUL, so the null-argument context never panics |
| Macros.Call | src/macros.rs:15-23 | with a null argument: `ArgumentNull` and a code-0 context naming the first null argument; otherwise the body on the cell it finds |
| Macros.Invoke | src/macros.rs:13-26 | the generated function is `catch` of the checked call |
| Macros.NullArgumentReported | src/macros.rs:16-25 | with any null argument the call returns `ArgumentNull`; `catch` then replaces the name in the context by the result's own text |
| Macros.NullArgumentSkipsBody | src/macros.rs:18-22 | with a null argument, swapping the body changes nothing: it is never evaluated |
| Macros.FirstNullIsFirst | src/macros.rs:16-19 | the argument reported is the first null one in declaration order |
| Macros.NoNullRunsBody | src/macros.rs:22-25 | with no null argument the generated function is exactly `catch` of the body |
| FfiKinds.KindNameInjective | src/proto_impl/result.rs:65-67 | distinct kinds have distinct `{:?}` names |
| FfiResult.IsErrIffNotOk | src/ffi/ffi_result.rs:63-65 | `is_err` holds iff the kind is not `Ok`, iff the text is not "Successful" |
| FfiResult.Stored | src/ffi/ffi_result.rs:79-95 | the closure gets an error iff the cell holds a `LastResult` with one |
| FfiResult.PanicText | src/ffi/ffi_result.rs:106-107 | the recorded panic message wraps the payload in the fixed 22 characters of the format |
| FfiResult.SettledPassesResult | src/ffi/ffi_result.rs:104 | without a panic, `catch` returns the closure's result and cell unchanged |
| FfiResult.SettledPanicIsError | src/ffi/ffi_result.rs:105-119 | a panic yields `Error`; the cell is overwritten with the panic text only when it already held something; the panic escapes iff the cell held something and the payload is not text |
| FfiResult.Converted | src/ffi/ffi_result.rs:150-166 | `Ok` maps to `Ok`; a bare kind maps to itself with the cell untouched; any other error maps to `Error` with that error as context; it never panics |
| FfiResult.ForeignErrorReported | src/proto_impl/result.rs:26-34 | an error converted by `impl_io_error!` is reported as `Error` with its text as an `IoError` context |
| FfiResult.LastResultCell.constructor | src/ffi/ffi_result.rs:18-20 | a thread starts with an empty cell |
| FfiResult.LastResultCell.Context | src/ffi/ffi_result.rs:68-76 | returns the receiver unchanged and replaces the cell with the given error |
| FfiResult.LastResultCell.FromLastResult | src/ffi/ffi_result.rs:79-95 | the closure gets `Some(err)` iff the cell holds an error, otherwise `None` |
| FfiResult.LastResultCell.Clear | src/ffi/ffi_result.rs:100-102 | the cell is emptied |
| FfiResult.LastResultCell.Settle | src/ffi/ffi_result.rs:103-120 | the cell and the result after the closure are as `Settled` describes |
| FfiResult.LastResultCell.Catch | src/ffi/ffi_result.rs:98-122 | the closure runs on an empty cell and the outcome is `Settled` of its run |
| FfiResult.LastResultCell.FromResult | src/ffi/ffi_result.rs:150-166 | the cell and the result are as `Converted` describes |
| FfiResult.LastResultCell.FromStr | src/ffi/ffi_result.rs:168-172 | `Error`, with an `IoError` context carrying the string |
| ProtoResult.IoErrorOf | src/proto_impl/result.rs:50-52 | the `IoError` variant whose message is the given string, displayed after "Io Error Occurred: " |
| ProtoResult.QuinnErrorDisplayNamesBoth | src/proto_impl/result.rs:60-62 | the text of a `QuinnError` starts with the prefix, then digits that parse back to the code, and ends with the reason |
| ProtoResult.QuinnErrorDisplayKeepsCode | src/proto_impl/result.rs:60-62 | two `QuinnError`s with the same text have the same code and reason |
| ProtoResult.FixedAndKindDisplays | src/proto_impl/result.rs:63-67 | `FFIError` has one fixed text; a bare kind displays its name after the prefix, so distinct kinds display differently |
| ProtoResult.FromForeign | src/proto_impl/result.rs:26-34 | every `impl_io_error!` conversion yields an `IoError` carrying the error's text, never a bare kind |
| ProtoResult.FromSendError | src/proto_impl/result.rs:83-87 | a `SendError` converts to an `IoError` with the channel's fixed text, never a bare kind |
| SafeApi.Call | src/ffi/safe_api.rs:157-165 | with a null argument: `ArgumentNull` and an `IoError` context naming the first null argument; otherwise the body on the cell it finds |
| SafeApi.Invoke | src/ffi/safe_api.rs:153-168 | the generated function is `FFIResult::catch` of the checked call |
| SafeApi.NullArgumentReported | src/ffi/safe_api.rs:158-167 | the call returns `ArgumentNull` and the cell names the first null argument |
| SafeApi.NullArgumentSkipsBody | src/ffi/safe_api.rs:160-164 | with a null argument the body is never evaluated |
| SafeApi.NoNullRunsBody | src/ffi/safe_api.rs:164-167 | with no null argument the result is `catch` of the body; a body that does not panic has its result and cell passed through |
| SafeApi.Access | src/ffi/safe_api.rs:92-101 | a poisoned mutex panics before the callback runs; otherwise the outcome is the callback's, and a panic inside it poisons the mutex |
| SafeApi.AccessPassesThrough | src/ffi/safe_api.rs:43-50 | on a healthy mutex, access returns exactly the callback's result and leaves exactly the callback's value |
| SafeApi.Handle.constructor | src/ffi/safe_api.rs:103-105 | a new handle holds the instance behind a mutex that is not poisoned |
| SafeApi.Handle.MutAccess | src/ffi/safe_api.rs:119-128 | value, poison flag and outcome are as `Access` describes for the callback |
| SafeApi.Handle.RefAccess | src/ffi/safe_api.rs:84-90 | as `Access` with a callback that cannot change the value; the value is unchanged |
| Events.Sender.Send | src/proto_impl/connection.rs:113-114 | a send succeeds exactly when the receiver exists, and then appends the value to the queue |
| Connection.ConnectionId | src/proto_impl/connection.rs:194-196 | the handle truncated to 32 bits |
| Connection.TimerStep | src/proto_impl/connection.rs:89-109 | returns true iff the engine's deadline has passed; an expired deadline is handled once and cleared, a pending one stored, a missing one cleared; nothing else changes |
| Connection.TransmitEventsAt | src/proto_impl/connection.rs:112-118 | the i-th event sent carries the i-th transmit |
| Connection.TransmitsStep | src/proto_impl/connection.rs:111-121 | the transmit loop changes only the engine's transmit queue, the endpoint channel and the notification count (every other field, including the timer deadline, the last poll and the engine inputs, stays as it was), and sends at most one event per pending transmit |
| Connection.TransmitsUnfold | src/proto_impl/connection.rs:112-118 | one iteration sends the oldest transmit and one notification |
| Connection.TransmitsForwardAll | src/proto_impl/connection.rs:111-121 | towards a listening endpoint every pending transmit is sent in order, each with one notification, and the result is `Ok(false)`; nothing else changes |
| Connection.TransmitsNeverTrue | src/proto_impl/connection.rs:111-121 | the transmit loop never returns `Ok(true)`; with no pending transmit it returns `Ok(false)` and changes nothing; with the endpoint gone the first transmit is lost and the call fails |
| Connection.TransmitsErr | src/proto_impl/connection.rs:113-114 | the only error of the transmit loop is a failed send |
| Connection.EndpointEventsStep | src/proto_impl/connection.rs:123-130 | at most one engine event is taken; it is sent to the endpoint iff the endpoint listens; nothing else changes |
| Connection.ConnectionEventsStep | src/proto_impl/connection.rs:131-148 | at most one event is taken from the endpoint, and an empty channel is an error; `handle_event_called` becomes true iff it was or the event is `Proto`; only the engine's inputs change besides |
| Connection.AppStep | src/proto_impl/connection.rs:150-192 | handling application events changes neither the channels, the handle nor `handle_event_called` |
| Connection.AppStepEffect | src/proto_impl/connection.rs:150-191 | all application events are drained; `connected` holds iff it did or a `Connected` event came; every event's callback is made in order; nothing else changes |
| Connection.TraceOf | src/proto_impl/connection.rs:66-79 | `poll` runs the connection event, transmits, timer, endpoint event and application steps in that order; a failed transmit returns at once |
| Connection.TraceFrames | src/proto_impl/connection.rs:66-72 | the steps before the application events leave callbacks, `connected`, application events and the timeout alone |
| Connection.PollTakesAtMostOneEvent | src/proto_impl/connection.rs:131-132 | one `poll` takes at most one queued connection event |
| Connection.PollForwardsAtMostOneEvent | src/proto_impl/connection.rs:123-128 | one `poll` forwards at most one engine event besides the transmits |
| Connection.PollHandleEventCalled | src/proto_impl/connection.rs:138-140 | after `poll`, `handle_event_called` holds iff it did or a `Proto` event was taken |
| Connection.PollReports | src/proto_impl/connection.rs:68-76 | a successful `poll` reports the application events in order, then marks the connection pollable exactly when the timer expired, since transmits never ask for it |
| Connection.PollConnects | src/proto_impl/connection.rs:157-159 | after a successful `poll`, `connected` holds iff it did or a `Connected` event came |
| Connection.PollStopsOnSendFailure | src/proto_impl/connection.rs:68 | a failed poll is a failed transmit send towards a gone endpoint; it skips the timer, the application events and the pollable mark |
| Connection.PollKeepsConnected | src/proto_impl/connection.rs:150-191 | no `poll` clears `connected` |
| Connection.ConnectionInner.constructor | src/proto_impl/connection.rs:44-62 | a new connection is not connected, has handled no engine event and has no deadline |
| Connection.ConnectionInner.MarkPollable | src/proto_impl/connection.rs:85-87 | one pollable callback with the connection id; nothing else changes |
| Connection.ConnectionInner.HandleTimer | src/proto_impl/connection.rs:89-109 | the state and result are as `TimerStep` describes |
| Connection.ConnectionInner.HandleTransmits | src/proto_impl/connection.rs:111-121 | the state and result are as `TransmitsStep` describes |
| Connection.ConnectionInner.HandleEndpointEvents | src/proto_impl/connection.rs:123-130 | the state and result are as `EndpointEventsStep` describes |
| Connection.ConnectionInner.HandleConnectionEvents | src/proto_impl/connection.rs:131-148 | the state and result are as `ConnectionEventsStep` describes |
| Connection.ConnectionInner.HandleAppEvents | src/proto_impl/connection.rs:150-192 | the state is as `AppStep` describes |
| Connection.ConnectionInner.Poll | src/proto_impl/connection.rs:66-79 | the state and result are as `PollStep` describes |
| Endpoint.SendTo | src/proto_impl/endpoint.rs:148-151 | an unknown handle panics on `unwrap`; a gone connection is an error; otherwise only that connection's queue grows by the event |
| Endpoint.HandleEvent | src/proto_impl/endpoint.rs:159-181 | a transmit goes to the host and leaves the table alone; an engine event reaches the engine; a drained handle's entry is gone afterwards; entries are only removed; its outcome is stated by `Endpoint.HandleEventOutcome` |
| Endpoint.HandleEventOutcome | src/proto_impl/endpoint.rs:159-181 | a transmit, or an engine event with no reply, goes on (`Ok(())`). With a reply: the step panics on `unwrap` iff the handle is not in the table after the drained removal; a closed connection gives `SEND_FAILED`; otherwise the reply is appended to that connection's queue and the step goes on |
| Endpoint.HandleEventTable | src/proto_impl/endpoint.rs:162-176 | one event changes no entry but its own handle's, and removes one only for a drained event |
| Endpoint.DrainUnfold | src/proto_impl/endpoint.rs:157-190 | one more iteration goes on after an event handled without error and stops the loop otherwise |
| Endpoint.DrainStopsOnReply | src/proto_impl/endpoint.rs:157-190 | the loop ends early with an error or a panic only on an engine event that carries a reply, and that event is the last one taken |
| Endpoint.DrainTakesPrefix | src/proto_impl/endpoint.rs:157-190 | at most 160 events are taken, from the front, the rest staying queued in order; the result is `Ok(true)` iff the bound was reached, and `Ok(false)` only on an empty queue |
| Endpoint.DrainForwardsTransmitsInOrder | src/proto_impl/endpoint.rs:178-180 | the transmits among the events taken reach the host in queue order |
| Endpoint.DrainHandlesEventsInOrder | src/proto_impl/endpoint.rs:169 | the engine events among the events taken reach the engine in queue order |
| Endpoint.DrainOnlyRemovesDrained | src/proto_impl/endpoint.rs:162-163 | table entries only disappear, and only those a taken drained event named |
| Endpoint.DrainKeepsUnnamed | src/proto_impl/endpoint.rs:162-175 | an entry no taken engine event named is left exactly as it was |
| Endpoint.DrainRemovesDrained | src/proto_impl/endpoint.rs:162-163 | every connection whose drained event was taken has no entry afterwards |
| Endpoint.DrainKeepsTransmits | src/proto_impl/endpoint.rs:157-190 | the drain loop does not touch the engine's own transmits |
| Endpoint.OnTransmitsAt | src/proto_impl/endpoint.rs:113-115 | the i-th transmit callback carries the i-th engine transmit |
| Endpoint.FlushStep | src/proto_impl/endpoint.rs:113-115 | one iteration of the transmit loop hands the oldest transmit to the host |
| Endpoint.PollFlushesFirst | src/proto_impl/endpoint.rs:112-120 | `poll` hands every pending engine transmit to the host before any transmit a connection queued, then drains as `handle_connection_events` does |
| Endpoint.EndpointImpl.constructor | src/proto_impl/endpoint.rs:92-106 | an empty table and queue, no notifier, no default configuration, and the id one more than the counter, wrapping at 256 |
| Endpoint.EndpointImpl.Receive | src/proto_impl/connection.rs:112-127 | an event a connection sends on its endpoint channel is appended to the endpoint's queue; nothing else changes |
| Endpoint.EndpointImpl.SetPollNotifier | src/proto_impl/endpoint.rs:108-110 | the notifier is set; nothing else changes |
| Endpoint.EndpointImpl.NotifyTransmit | src/proto_impl/endpoint.rs:122-124 | one transmit callback with the endpoint id; nothing else changes |
| Endpoint.EndpointImpl.Poll | src/proto_impl/endpoint.rs:112-120 | the state and result are those of draining the queue after all engine transmits were handed to the host |
| Endpoint.EndpointImpl.HandleConnectionEvents | src/proto_impl/endpoint.rs:156-191 | the state and result are as `Drain` with a budget of 160 describes |
| Endpoint.EndpointImpl.TakeEvent | src/proto_impl/endpoint.rs:158-181 | the oldest event is removed and handled as `HandleEvent` describes |
| Endpoint.EndpointImpl.AddConnection | src/proto_impl/endpoint.rs:126-141 | a fresh sender is put in the table under the handle; the connection starts in its initial state, and building it panics iff no poll notifier is set |
| Endpoint.EndpointImpl.ForwardEventToConnection | src/proto_impl/endpoint.rs:143-154 | the event goes to that connection's queue as `SendTo` describes; on failure nothing changes |
| Endpoint.EndpointImpl.SetDefaultClientConfig | src/proto_impl/endpoint.rs:194-196 | the default configuration is set; nothing else changes |
| Endpoint.EndpointImpl.ConnectWith | src/proto_impl/endpoint.rs:224-233 | an engine refusal is returned with nothing changed; an opened connection is added as `add_connection` does |
| Endpoint.EndpointImpl.Connect | src/proto_impl/endpoint.rs:206-217 | without a default configuration it fails with `NoDefaultClientConfig` and changes nothing; with one it is `connect_with` that configuration |
| Bindings.DirFromU8 | src/ffi/bindings.rs:328-334 | 0 is `Bi`, every other byte `Uni` |
| Bindings.StreamIdFromU64 | src/ffi/bindings.rs:340-342 | succeeds iff the value is below 2^62, keeping the value |
| Bindings.StreamIdToU64 | src/ffi/bindings.rs:336-338 | the value is below 2^62 |
| Bindings.StreamIdRoundTrip | src/ffi/bindings.rs:336-342 | the two conversions are inverse on the values below 2^62 |
| Bindings.LastErrorOutcome | src/ffi/bindings.rs:190-207 | with no error: `Ok` and nothing written; with one: its length always written; `BufferToSmall` and no bytes when the buffer is shorter, else `Ok` and exactly its bytes |
| Bindings.RetryWithReportedLength | src/ffi/bindings.rs:195-200 | after `BufferToSmall`, a retry with the reported length gets the whole message |
| Bindings.LastErrorBody | src/ffi/bindings.rs:189-208 | the buffer's prefix and the length out-parameter are written as `LastErrorOutcome` describes; the rest of the buffer is unchanged |
| Bindings.LastErrorExported | src/ffi/bindings.rs:187-209 | as written, under `ffi!`: with valid arguments `Ok`, nothing written and an empty cell, whatever was stored |
| Bindings.LastErrorNeverReports | src/ffi/bindings.rs:187-209 | the exported `last_error` with valid arguments ends as `Ok` with an empty cell, because its closure always sees an empty cell |
| Bindings.StoredErrorIsLost | src/ffi/bindings.rs:187-209 | an error stored by the previous call is not delivered: `Ok`, and neither buffer changes |
| Bindings.LastErrorCorrected | src/ffi/bindings.rs:189-208 | reads the stored error without clearing it first; null arguments report `ArgumentNull` and write nothing |
| Bindings.CorrectedReportsStored | src/ffi/bindings.rs:190-207 | the corrected routine delivers a stored error's length always, and its bytes with `Ok` iff the buffer is large enough |
| Bindings.ReadErrorKind | src/ffi/bindings.rs:289-297 | `Blocked` becomes the bare `BufferBlocked` kind; any other read error becomes an error carrying its text |
| Bindings.ReadErrorReported | src/ffi/bindings.rs:289-297 | through `into()`, `Blocked` yields `BufferBlocked` with the cell untouched, and any other read error yields `Error` with its text as context |
| Bindings.ReadStream | src/ffi/bindings.rs:270-307 | bound and read errors are returned; a chunk is copied as far as it fits and the copied length written; an engine that wants to transmit makes the connection pollable unless the stream could not be read |
| Bindings.WriteStream | src/ffi/bindings.rs:309-326 | on success the count is written out and the connection marked pollable; on an error nothing changes |
| Bindings.AcceptStream | src/ffi/bindings.rs:215-235 | with nothing to accept, a code-0 error and the out-parameter unwritten; otherwise the id written and the connection marked pollable |
| Bindings.OpenStream | src/ffi/bindings.rs:256-266 | with the direction exhausted, a code-0 error and the out-parameter unwritten; otherwise the opened id written |
| Bindings.NothingAvailableReported | src/ffi/bindings.rs:229-234 | through the closure's `into()`, a code-0 error with a NUL-free message becomes `Error`, with the error's text as context |
| Bindings.NothingAvailableExported | src/ffi/bindings.rs:215-266 | at the exported boundary (the `ffi!` wrapper with every argument present), the same error returns `Error`, but `catch` has replaced the context with "Some error occurred", so the caller never gets the message |
| Bindings.NothingAvailableMessages | src/ffi/bindings.rs:229-264 | the two texts name code 0 and then the message |

## Left out

- I/O, clocks and threads: `Instant::now()` is a parameter `now`. `handle_timer` reads the clock twice, once for the comparison and once for `handle_timeout`. The model uses one `now` for both, so it assumes both reads give the same instant. `EndpointPoller` and its polling thread are not modelled (concurrency). Nor are the locks of the handles: `Handle` keeps only the poison flag that a panic under the lock sets.
- Channels are `seq` queues owned by the side that holds the sender. A connection's endpoint sender and the endpoint's receiver are not linked, because the model has no shared references. The endpoint's drain reads its own `events` queue. Within the class, only `Receive` fills that queue. The connection pump's sends are not routed to it, so a connection's events reach the endpoint only if a caller passes each one to `Receive`.
- The QUIC engine is not part of this model: its answers are pre-loaded (transmits, timeouts, events, `should_transmit`, the result of `connect`, `accept` and `open`) and its reactions are recorded as inputs.
- Text: `String` is `seq<char>` and its bytes are an explicit UTF-8 encoding. `CString::new` failing is modelled as a panic whose message is a fixed text, without the position of the NUL.
- RefCell borrow panics are not modelled, because no modelled path borrows the cell twice.
- The `static mut` callback registry and its `set_on_*` setters are foreign function pointers. Callbacks are recorded as values in call order, and transmits are not converted to `IpAddr` on the way out.
- Raw handles and the `Out`/`Ref` parameter types are memory plumbing. Out-parameters are caller arrays of length one, and `IsNull` is a boolean per argument.
- The unchecked `ffi!` of `src/ffi/unsafe_api.rs` is the identity on its body.
- The exported `read_stream`, `write_stream`, `accept_stream` and `open_stream` are modelled as their closures' bodies. Not modelled: the `ffi!` wrapping, the `mut_access` lock around them and the final `into()`. The wrapping is modelled once, generically, in `Macros` and `SafeApi`, and the `into()` by `QuinnResults.Converted`. `Bindings.NothingAvailableExported` composes the two for the nothing-available error of `accept_stream` and `open_stream`, on a lock that is not poisoned.
- `create_server_endpoint`, `create_client_endpoint`, `connect_client`, `poll_endpoint`, `handle_datagram` and `poll_connection` are plumbing around the engine and the handle types. They are not modelled.
- `QuinnErrorKind` is an assumption, since no modelled file defines it. So are its conversions from `SendError` and `TryRecvError`: `SEND_FAILED` and `RECV_EMPTY` are `IoError`s carrying the standard library's texts.
- The pumps return `QuinnErrorKind`, as `connection.rs` and `endpoint.rs` import it.
- Endpoint.EndpointImpl.constructor: the id is computed from the counter value passed in. The global counter is never stored back, so every endpoint gets the same id. This is not asserted as intended behaviour.
- Endpoint.HandleEvent: the `unwrap` of a handle that was just removed is modelled as a `Panicked` outcome (stated by `Endpoint.HandleEventOutcome`), not a precondition, because the source reaches it on a drained event that has a reply.
- Bindings.StreamIdToU64: a `StreamId` is assumed to hold a value below 2^62, as a `VarInt` does. The engine's encoding of initiator and direction into the id is not modelled.
- SafeApi.Handle: the handle holds its value directly. Aliasing of the `Arc` shared with the poller thread is not modelled.
- `println!` and `tracing` output is not modelled.
- Bindings.NothingAvailableReported requires a NUL-free message. That the two literal messages are NUL-free is not proved, because proving it over the string literals costs the solver too much. `Bindings.NothingAvailableMessages` states their full texts instead.

## Findings

| source | as written | input that shows it | evidently intended | confidence | as-written member | corrected member |
|---|---|---|---|---|---|---|
| src/ffi/bindings.rs:187-209 | `last_error` is generated by `ffi!`, whose `catch` empties the last-result cell before the body calls `with_last_result`, so the body always sees no error | a call that fails with `From<&str>`, then `last_error` with non-null arguments and a 64-byte buffer: the result is `Ok`, and no length or bytes are written | `last_error` reads the error the previous call stored, so the caller can fetch it, or retry with the reported length | not executed | Bindings.StoredErrorIsLost | Bindings.CorrectedReportsStored |
