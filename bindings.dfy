/** Helpers and exported bodies of `src/ffi/bindings.rs`: direction and stream-id decoding, the
    `last_error` copy-out routine with its "buffer too small" protocol, and the stream calls that
    write caller-owned out-parameters. Out-parameters are caller arrays (`Out<size_t>`/`Out<u64>`
    are arrays of length one); what the engine answers is passed in. */
module Bindings {
  import opened Wrappers
  import opened Ints
  import opened Text
  import opened QuinnResults
  import opened Proto
  import Macros
  import Connection
  import Events

  /** `dir_from_u8`. */
  function DirFromU8(d: u8): (r: Dir)
    ensures r == Dir.Bi <==> d == 0
    ensures r == Dir.Uni <==> d != 0
  {
    if d == 0 then Dir.Bi else Dir.Uni
  }

  /** `_stream_id`: `VarInt::from_u64` refuses values from 2^62 on. */
  function StreamIdFromU64(v: u64): (r: Result<StreamId, VarIntBoundsExceeded>)
    ensures r.Ok? <==> v < VARINT_LIMIT
    ensures r.Ok? ==> r.value.value == v
  {
    if v < VARINT_LIMIT then Result.Ok(StreamId(v)) else Err(VarIntBoundsExceeded)
  }

  /** `_stream_id_to_u64`. */
  function StreamIdToU64(id: StreamId): (v: u64)
    ensures v < VARINT_LIMIT
  {
    id.value
  }

  /** The two conversions are inverse on the identifiers a `VarInt` can hold. */
  lemma StreamIdRoundTrip(v: u64, id: StreamId)
    ensures v < VARINT_LIMIT ==> StreamIdToU64(StreamIdFromU64(v).value) == v
    ensures StreamIdFromU64(StreamIdToU64(id)) == Result.Ok(id)
  {
  }

  /** What `last_error`'s closure does with the message it is given: the kind it returns, the bytes
      it copies into the buffer, and the length it writes (`None` for "not written"). */
  datatype LastErrorOutput = LastErrorOutput(result: QuinnResult, message: Option<seq<u8>>, length: Option<nat>)

  function LastErrorOutcome(m: Option<QuinnError>, bufLen: nat): (o: LastErrorOutput)
    ensures m.None? ==> o == LastErrorOutput(QuinnResult(Kind.Ok), None, None)
    ensures m.Some? ==> o.length == Some(|m.value.reason|)
    ensures m.Some? && bufLen < |m.value.reason| ==> o.result.kind == Kind.BufferToSmall && o.message.None?
    ensures m.Some? && |m.value.reason| <= bufLen ==> o.result.kind == Kind.Ok && o.message == Some(m.value.reason)
  {
    match m
    case None => LastErrorOutput(QuinnResult(Kind.Ok), None, None)
    case Some(e) =>
      if bufLen < |e.reason| then LastErrorOutput(QuinnResult(Kind.BufferToSmall), None, Some(|e.reason|))
      else LastErrorOutput(QuinnResult(Kind.Ok), Some(e.reason), Some(|e.reason|))
  }

  /** The protocol the routine offers: after `BufferToSmall`, a second call with a buffer of the
      reported length receives the whole message. */
  lemma RetryWithReportedLength(e: QuinnError, bufLen: nat)
    requires LastErrorOutcome(Some(e), bufLen).result.kind == Kind.BufferToSmall
    ensures var n := LastErrorOutcome(Some(e), bufLen).length.value;
      bufLen < n && LastErrorOutcome(Some(e), n) == LastErrorOutput(QuinnResult(Kind.Ok), Some(e.reason), Some(n))
  {
  }

  /** The closure of `last_error`: writes the message length, then, if the buffer is large enough,
      the message bytes into the buffer's prefix. */
  method LastErrorBody(m: Option<QuinnError>, buf: array<u8>, bufLen: usize, actualLen: array<usize>)
    returns (r: QuinnResult)
    requires bufLen <= buf.Length && actualLen.Length == 1
    requires m.Some? ==> |m.value.reason| < U64_LIMIT
    modifies buf, actualLen
    ensures var o := LastErrorOutcome(m, bufLen);
      r == o.result &&
      (o.length.Some? ==> actualLen[0] == o.length.value) &&
      (o.length.None? ==> actualLen[0] == old(actualLen[0])) &&
      (o.message.Some? ==> buf[..|o.message.value|] == o.message.value && buf[|o.message.value|..] == old(buf[|o.message.value|..])) &&
      (o.message.None? ==> buf[..] == old(buf[..]))
  {
    if m.None? {
      return QuinnResult(Kind.Ok);
    }
    var bytes := m.value.reason;
    actualLen[0] := |bytes|;
    if bufLen < |bytes| {
      return QuinnResult(Kind.BufferToSmall);
    }
    var i := 0;
    while i < |bytes|
      invariant 0 <= i <= |bytes|
      invariant buf[..i] == bytes[..i]
      invariant buf[i..] == old(buf[i..])
      invariant actualLen[0] == |bytes|
    {
      buf[i] := bytes[i];
      i := i + 1;
    }
    return QuinnResult(Kind.Ok);
  }

  /** The arguments of `last_error`, null or not. */
  function LastErrorArgs(bufNull: bool, lenNull: bool): seq<Macros.Argument> {
    [Macros.Argument("message_buf", bufNull), Macros.Argument("message_buf_len", false),
     Macros.Argument("actual_message_len", lenNull)]
  }

  /** `last_error`'s body as a closure on the cell, for the `ffi!` model. */
  function LastErrorRun(bufLen: nat): Cell -> Run<Cell, QuinnResult> {
    cell => Run(cell, Returned(LastErrorOutcome(Stored(cell), bufLen).result))
  }

  /** The exported `last_error`, written as `ffi!` generates it: `catch` empties the cell before
      the closure reads it, so with valid arguments the call returns `Ok`, writes nothing and
      leaves the cell empty, whatever error was stored before. */
  method LastErrorExported(cell: LastResultCell, bufNull: bool, lenNull: bool,
                           buf: array<u8>, bufLen: usize, actualLen: array<usize>)
    returns (c: Completion<QuinnResult>)
    requires bufLen <= buf.Length && actualLen.Length == 1
    modifies cell, buf, actualLen
    ensures Run(cell.last, c) == Settled(Macros.Call(LastErrorArgs(bufNull, lenNull), LastErrorRun(bufLen), None))
    ensures !bufNull && !lenNull ==>
      c == Returned(QuinnResult(Kind.Ok)) && cell.last == None &&
      buf[..] == old(buf[..]) && actualLen[..] == old(actualLen[..])
  {
    cell.Clear();
    var args := LastErrorArgs(bufNull, lenNull);
    var r: QuinnResult;
    match Macros.FirstNull(args) {
      case Some(_) =>
        var run := Macros.Call(args, LastErrorRun(bufLen), cell.last);
        cell.last := run.cell;
        r := run.completion.value;
      case None =>
        r := LastErrorBody(cell.WithLastResult(m => m), buf, bufLen, actualLen);
    }
    c := cell.Settle(Returned(r));
  }

  /** Whatever was stored, the exported `last_error` with valid arguments reports nothing. */
  lemma LastErrorNeverReports(bufLen: nat)
    ensures Settled(Macros.Call(LastErrorArgs(false, false), LastErrorRun(bufLen), None)) ==
      Run(None, Returned(QuinnResult(Kind.Ok)))
    ensures LastErrorOutcome(Stored(None), bufLen) == LastErrorOutput(QuinnResult(Kind.Ok), None, None)
  {
    Macros.FirstNullIsFirst(LastErrorArgs(false, true), 2);
    assert Macros.FirstNull(LastErrorArgs(false, false)).None?;
  }

  /** A caller whose previous call stored an error (here through `From<&str>`) and then asks for
      it, with a buffer large enough, is told `Ok` and receives no bytes. */
  method StoredErrorIsLost(cell: LastResultCell, message: string, buf: array<u8>, actualLen: array<usize>)
    returns (c: Completion<QuinnResult>)
    requires buf.Length == 64 && actualLen.Length == 1
    modifies cell, buf, actualLen
    ensures c == Returned(QuinnResult(Kind.Ok))
    ensures buf[..] == old(buf[..]) && actualLen[..] == old(actualLen[..])
  {
    var _ := cell.FromStr(message);
    c := LastErrorExported(cell, false, false, buf, 64, actualLen);
  }

  /** `last_error` as evidently intended: it reads the cell that the previous call left, without
      clearing it first, and leaves it as it is, so the caller can retry with a larger buffer. A
      null argument is reported without touching the stored error. */
  method LastErrorCorrected(cell: LastResultCell, bufNull: bool, lenNull: bool,
                            buf: array<u8>, bufLen: usize, actualLen: array<usize>)
    returns (r: QuinnResult)
    requires bufLen <= buf.Length && actualLen.Length == 1
    requires Stored(cell.last).Some? ==> |Stored(cell.last).value.reason| < U64_LIMIT
    modifies buf, actualLen
    ensures bufNull || lenNull ==> r.kind == Kind.ArgumentNull && buf[..] == old(buf[..]) && actualLen[..] == old(actualLen[..])
    ensures !bufNull && !lenNull ==>
      var o := LastErrorOutcome(Stored(cell.last), bufLen);
      r == o.result &&
      (o.length.Some? ==> actualLen[0] == o.length.value) &&
      (o.message.Some? ==> buf[..|o.message.value|] == o.message.value)
  {
    if bufNull || lenNull {
      return QuinnResult(Kind.ArgumentNull);
    }
    r := LastErrorBody(cell.WithLastResult(m => m), buf, bufLen, actualLen);
  }

  /** With the corrected routine, the error a failing call stored is delivered whole: its length
      always, and its bytes when the buffer is large enough. */
  lemma CorrectedReportsStored(e: QuinnError, bufLen: nat)
    ensures var o := LastErrorOutcome(Stored(Some(LastResult(Some(e)))), bufLen);
      o.length == Some(|e.reason|) &&
      (|e.reason| <= bufLen <==> o.message == Some(e.reason)) &&
      (|e.reason| <= bufLen <==> o.result.kind == Kind.Ok)
  {
  }

  /** `_read_stream`'s mapping of a read error: `Blocked` is the bare `BufferBlocked` kind, any
      other error is converted by its text. */
  function ReadErrorKind(e: ReadError): (k: QuinnErrorKind)
    ensures k == QuinErrorKind(Kind.BufferBlocked) <==> e.Blocked?
    ensures !e.Blocked? ==> k == IoError(e.text)
  {
    if e.Blocked? then QuinErrorKind(Kind.BufferBlocked) else IoError(e.text)
  }

  /** Reported through `into()`: `Blocked` becomes a `BufferBlocked` result with the cell untouched,
      any other read error a general `Error` whose context is the error's text. */
  lemma ReadErrorReported(e: ReadError, cell: Cell)
    requires '\0' !in Describe(ReadErrorKind(e))
    ensures e.Blocked? ==> Converted<()>(Err(ReadErrorKind(e)), cell) == Run(cell, Returned(QuinnResult(Kind.BufferBlocked)))
    ensures !e.Blocked? ==> Converted<()>(Err(ReadErrorKind(e)), cell).completion == Returned(QuinnResult(Kind.Error))
    ensures !e.Blocked? ==>
      Stored(Converted<()>(Err(ReadErrorKind(e)), cell).cell) == Some(QuinnError.QuinnError(0, Utf8(Describe(IoError(e.text)))))
  {
  }

  /** What the engine's receive stream yields: `read(true)` fails, or `next` gives a chunk, nothing
      more, or a read error. */
  datatype ChunkRead = Unreadable(text: string) | Chunk(bytes: seq<u8>) | NoMore | ReadFailed(error: ReadError)

  /** The error `_stream_id(...)?` yields for an identifier out of range. */
  const BOUNDS_ERROR: QuinnErrorKind := IoError(VARINT_BOUNDS_TEXT)

  function Min(a: nat, b: nat): nat {
    if a < b then a else b
  }

  /** `_read_stream`: the chunk is copied into the buffer (`write` on a slice copies as much as
      fits) and the copied length written out; an engine that wants to transmit makes the
      connection pollable unless the stream could not be opened. */
  method ReadStream(conn: Connection.ConnectionInner, streamId: u64, buf: array<u8>, bufLen: usize,
                    actualLen: array<usize>, read: ChunkRead, shouldTransmit: bool)
    returns (r: Result<(), QuinnErrorKind>)
    requires bufLen <= buf.Length && actualLen.Length == 1
    modifies conn, buf, actualLen
    ensures streamId >= VARINT_LIMIT ==> r == Err(BOUNDS_ERROR)
    ensures streamId < VARINT_LIMIT && read.Unreadable? ==> r == Err(IoError(read.text))
    ensures streamId < VARINT_LIMIT && read.ReadFailed? ==> r == Err(ReadErrorKind(read.error))
    ensures streamId < VARINT_LIMIT && (read.Chunk? || read.NoMore?) ==> r == Result.Ok(())
    ensures streamId < VARINT_LIMIT && read.Chunk? ==>
      var n := Min(bufLen, |read.bytes|);
      actualLen[0] == n && buf[..n] == read.bytes[..n] && buf[n..] == old(buf[n..])
    ensures !(streamId < VARINT_LIMIT && read.Chunk?) ==> buf[..] == old(buf[..]) && actualLen[..] == old(actualLen[..])
    ensures conn.Snapshot() ==
      if streamId < VARINT_LIMIT && !read.Unreadable? && shouldTransmit
      then old(conn.Snapshot()).(callbacks := old(conn.callbacks) + [Events.OnConnectionPollable(Connection.ConnectionId(conn.connectionHandle))])
      else old(conn.Snapshot())
  {
    if StreamIdFromU64(streamId).Err? {
      return Err(BOUNDS_ERROR);
    }
    match read {
      case Unreadable(text) =>
        return Err(IoError(text));
      case Chunk(bytes) =>
        var n := Min(bufLen, |bytes|);
        var i := 0;
        while i < n
          invariant 0 <= i <= n
          invariant buf[..i] == bytes[..i]
          invariant buf[i..] == old(buf[i..])
          invariant conn.Snapshot() == old(conn.Snapshot())
        {
          buf[i] := bytes[i];
          i := i + 1;
        }
        actualLen[0] := n;
      case NoMore =>
      case ReadFailed(e) =>
        if shouldTransmit {
          conn.MarkPollable();
        }
        return Err(ReadErrorKind(e));
    }
    if shouldTransmit {
      conn.MarkPollable();
    }
    return Result.Ok(());
  }

  /** `_write_stream`: the engine's answer (`write`) is the count of bytes it took, or its error's
      text; the count goes to the out-parameter and the connection is made pollable. */
  method WriteStream(conn: Connection.ConnectionInner, streamId: u64, write: Result<usize, string>,
                     writtenBytes: array<usize>)
    returns (r: Result<(), QuinnErrorKind>)
    requires writtenBytes.Length == 1
    modifies conn, writtenBytes
    ensures streamId >= VARINT_LIMIT ==> r == Err(BOUNDS_ERROR)
    ensures streamId < VARINT_LIMIT && write.Err? ==> r == Err(IoError(write.error))
    ensures streamId < VARINT_LIMIT && write.Ok? <==> r.Ok?
    ensures r.Ok? ==> writtenBytes[0] == write.value
    ensures r.Ok? ==>
      conn.Snapshot() == old(conn.Snapshot()).(callbacks := old(conn.callbacks) + [Events.OnConnectionPollable(Connection.ConnectionId(conn.connectionHandle))])
    ensures r.Err? ==> writtenBytes[..] == old(writtenBytes[..]) && conn.Snapshot() == old(conn.Snapshot())
  {
    if StreamIdFromU64(streamId).Err? {
      return Err(BOUNDS_ERROR);
    }
    if write.Err? {
      return Err(IoError(write.error));
    }
    writtenBytes[0] := write.value;
    conn.MarkPollable();
    return Result.Ok(());
  }

  const NO_STREAM_TO_ACCEPT: string := "No stream to accept!"
  const STREAMS_EXHAUSTED: string := "Streams in the given direction are currently exhausted"

  /** `accept_stream`'s closure: `accept` is what the engine's `streams().accept(dir)` yields. */
  method AcceptStream(conn: Connection.ConnectionInner, direction: u8, accept: Dir -> Option<StreamId>,
                      streamIdOut: array<u64>)
    returns (r: Result<(), QuinnErrorKind>)
    requires streamIdOut.Length == 1
    modifies conn, streamIdOut
    ensures accept(DirFromU8(direction)).None? ==>
      r == Err(QuinnErrorKind.QuinnError(0, NO_STREAM_TO_ACCEPT)) &&
      streamIdOut[..] == old(streamIdOut[..]) && conn.Snapshot() == old(conn.Snapshot())
    ensures accept(DirFromU8(direction)).Some? ==>
      r == Result.Ok(()) && streamIdOut[0] == accept(DirFromU8(direction)).value.value &&
      conn.Snapshot() == old(conn.Snapshot()).(callbacks := old(conn.callbacks) + [Events.OnConnectionPollable(Connection.ConnectionId(conn.connectionHandle))])
  {
    var dir := DirFromU8(direction);
    match accept(dir) {
      case Some(id) =>
        conn.MarkPollable();
        streamIdOut[0] := id.value;
        r := Result.Ok(());
      case None =>
        r := Err(QuinnErrorKind.QuinnError(0, NO_STREAM_TO_ACCEPT));
    }
  }

  /** `open_stream`'s closure: `open` is what the engine's `streams().open(dir)` yields. */
  method OpenStream(conn: Connection.ConnectionInner, direction: u8, open: Dir -> Option<StreamId>,
                    openedStreamId: array<u64>)
    returns (r: Result<(), QuinnErrorKind>)
    requires openedStreamId.Length == 1
    modifies openedStreamId
    ensures open(DirFromU8(direction)).None? ==>
      r == Err(QuinnErrorKind.QuinnError(0, STREAMS_EXHAUSTED)) && openedStreamId[..] == old(openedStreamId[..])
    ensures open(DirFromU8(direction)).Some? ==>
      r == Result.Ok(()) && openedStreamId[0] == StreamIdToU64(open(DirFromU8(direction)).value)
  {
    match open(DirFromU8(direction)) {
      case Some(id) =>
        openedStreamId[0] := StreamIdToU64(id);
        r := Result.Ok(());
      case None =>
        r := Err(QuinnErrorKind.QuinnError(0, STREAMS_EXHAUSTED));
    }
  }

  /** A code-0 error with a NUL-free message, as `accept_stream` and `open_stream` return when
      nothing is available, through the closure's `into()`: the result is `Error` and the context
      holds the error's text. */
  lemma NothingAvailableReported(reason: string, cell: Cell)
    requires '\0' !in reason
    ensures Converted<()>(Err(QuinnErrorKind.QuinnError(0, reason)), cell) ==
      Run(Some(LastResult(Some(QuinnError.QuinnError(0, Utf8(Describe(QuinnErrorKind.QuinnError(0, reason))))))),
          Returned(QuinnResult(Kind.Error)))
  {
    var digits := Decimal(0);
    assert forall i :: 0 <= i < |digits| ==> digits[i] != '\0';
    var prefix := "QuinnError Error; code: ";
    var separator := " reason: ";
    assert Describe(QuinnErrorKind.QuinnError(0, reason)) == prefix + digits + separator + reason;
    assert '\0' !in prefix && '\0' !in separator;
  }

  /** What a C caller of the exported `accept_stream` or `open_stream` gets when nothing is
      available: `into()` stores the error's text, but the `ffi!` wrapper's `catch` then
      overwrites that context with the result's own sentence, so the message is not delivered. */
  lemma NothingAvailableExported(args: seq<Macros.Argument>, reason: string)
    requires forall j :: 0 <= j < |args| ==> !args[j].isNull
    requires '\0' !in reason
    ensures Settled(Macros.Call(args, s => Converted<()>(Err(QuinnErrorKind.QuinnError(0, reason)), s), None)) ==
      Run(Some(LastResult(Some(QuinnError.QuinnError(0, Utf8("Some error occurred"))))),
          Returned(QuinnResult(Kind.Error)))
  {
    NothingAvailableReported(reason, None);
    Macros.NoNullRunsBody(args, s => Converted<()>(Err(QuinnErrorKind.QuinnError(0, reason)), s));
  }

  /** The text of the accept error names the code, 0, then the message. */
  lemma NothingAvailableMessages()
    ensures Describe(QuinnErrorKind.QuinnError(0, NO_STREAM_TO_ACCEPT)) == "QuinnError Error; code: 0 reason: " + NO_STREAM_TO_ACCEPT
    ensures Describe(QuinnErrorKind.QuinnError(0, STREAMS_EXHAUSTED)) == "QuinnError Error; code: 0 reason: " + STREAMS_EXHAUSTED
  {
    assert Decimal(0) == "0";
  }
}
