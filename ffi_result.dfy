/** The result kind of `src/ffi/ffi_result.rs`, in a module of its own because the error enum of
    `proto_impl/result.rs` refers to it while the rest of `ffi_result.rs` refers to that enum. */
module FfiKinds {

  datatype FFIResultKind = Ok | Error | BufferToSmall | BufferBlocked | ArgumentNull

  /** The name `{:?}` gives a kind. */
  function KindName(k: FFIResultKind): string {
    match k
    case Ok => "Ok"
    case Error => "Error"
    case BufferToSmall => "BufferToSmall"
    case BufferBlocked => "BufferBlocked"
    case ArgumentNull => "ArgumentNull"
  }

  lemma KindNameInjective(k1: FFIResultKind, k2: FFIResultKind)
    requires KindName(k1) == KindName(k2)
    ensures k1 == k2
  {
  }
}

/** The `FFIResult` layer of `src/ffi/ffi_result.rs`: the result kind returned across the FFI
    boundary by the safe API, and its thread-local "last result" cell, which holds an
    `FFIErrorKind`. The cell is one mutable field of `LastResultCell` (one thread). */
module FfiResult {
  import opened Wrappers
  import opened FfiKinds
  import opened ProtoResult

  datatype FFIResult = FFIResult(kind: FFIResultKind) {

    predicate IsErr() {
      kind != FFIResultKind.Ok
    }

    /** `Display for FFIResult`. */
    function Display(): string {
      match kind
      case Ok => "Successful"
      case Error => "Some error occurred"
      case BufferToSmall => "The supplied buffer was to small."
      case BufferBlocked => "There is no data in the buffer to be read."
      case ArgumentNull => "An argument was null."
    }
  }

  /** `is_err` holds exactly when the kind is not `Ok`. */
  lemma IsErrIffNotOk(r: FFIResult)
    ensures !r.IsErr() <==> r == FFIResult(FFIResultKind.Ok)
    ensures r.IsErr() <==> r.Display() != "Successful"
  {
  }

  datatype LastResult = LastResult(err: Option<FFIErrorKind>)

  /** The thread-local `RefCell<Option<LastResult>>`. */
  type Cell = Option<LastResult>

  /** What `from_last_result` passes to its closure. */
  function Stored(cell: Cell): (m: Option<FFIErrorKind>)
    ensures m.Some? <==> cell.Some? && cell.value.err.Some?
    ensures cell.Some? ==> m == cell.value.err
  {
    match cell
    case None => None
    case Some(last) => last.err
  }

  function PanicText(payload: string): (s: string)
    ensures |s| == |payload| + 22
  {
    "internal panic with '" + payload + "'"
  }

  /** What `catch` does after its closure has run (see the `QuinnResult` layer): a result is passed
      through untouched; a panic becomes `Error`, and its message replaces the cell's content only
      when the cell holds something. */
  function Settled(run: Run<Cell, FFIResult>): Run<Cell, FFIResult> {
    match run.completion
    case Returned(_) => run
    case Panicked(payload) =>
      if run.cell.None? then Run(None, Returned(FFIResult(FFIResultKind.Error)))
      else
        match payload
        case None => Run(run.cell, Panicked(Some(UNWRAP_NONE)))
        case Some(p) => Run(Some(LastResult(Some(IoErrorOf(PanicText(p))))), Returned(FFIResult(FFIResultKind.Error)))
  }

  /** Without a panic, `catch` returns the closure's result unchanged and leaves the cell as the
      closure left it. */
  lemma SettledPassesResult(run: Run<Cell, FFIResult>)
    requires run.completion.Returned?
    ensures Settled(run) == run
  {
  }

  /** A panicking closure yields `Error`; the cell is overwritten only if it already held
      something, and the panic escapes only when its payload is not text. */
  lemma SettledPanicIsError(run: Run<Cell, FFIResult>)
    requires run.completion.Panicked?
    ensures Settled(run).completion.Returned? <==> run.cell.None? || run.completion.payload.Some?
    ensures Settled(run).completion.Returned? ==> Settled(run).completion.value.kind == FFIResultKind.Error
    ensures run.cell.None? ==> Settled(run).cell == None
    ensures run.cell.Some? && run.completion.payload.Some? ==>
      Stored(Settled(run).cell) == Some(IoError(PanicText(run.completion.payload.value)))
  {
  }

  /** The conversion `From<Result<T, FFIErrorKind>>` performs, on the cell it finds: success is
      `Ok`; a bare kind is returned as that kind, the cell untouched; any other error is `Error`
      with that error as context. It never panics. */
  function Converted<T>(result: Result<T, FFIErrorKind>, cell: Cell): (r: Run<Cell, FFIResult>)
    ensures r.completion.Returned?
    ensures result.Ok? ==> r == Run(cell, Returned(FFIResult(FFIResultKind.Ok)))
    ensures result.Err? && result.error.FFIResultKind? ==> r == Run(cell, Returned(FFIResult(result.error.kind)))
    ensures result.Err? && !result.error.FFIResultKind? ==>
      r == Run(Some(LastResult(Some(result.error))), Returned(FFIResult(FFIResultKind.Error)))
  {
    match result
    case Ok(_) => Run(cell, Returned(FFIResult(FFIResultKind.Ok)))
    case Err(e) =>
      if e.FFIResultKind? then Run(cell, Returned(FFIResult(e.kind)))
      else Run(Some(LastResult(Some(e))), Returned(FFIResult(FFIResultKind.Error)))
  }

  /** An error converted from another error type is reported as `Error` with its text as an
      `IoError` context. */
  lemma ForeignErrorReported(e: ForeignError, cell: Cell)
    ensures Converted<()>(Err(FromForeign(e)), cell) ==
      Run(Some(LastResult(Some(IoError(e.text)))), Returned(FFIResult(FFIResultKind.Error)))
  {
  }

  class LastResultCell {
    var last: Cell

    constructor ()
      ensures last == None
    {
      last := None;
    }

    /** `FFIResult::context`: replaces the cell's content by `e`, hands back the receiver. */
    method Context(self_: FFIResult, e: FFIErrorKind) returns (r: FFIResult)
      modifies this
      ensures r == self_
      ensures last == Some(LastResult(Some(e)))
    {
      last := Some(LastResult(Some(e)));
      r := self_;
    }

    /** `from_last_result`: the closure receives the stored error, if any. */
    function FromLastResult<R>(f: Option<FFIErrorKind> -> R): (r: R)
      reads this
      ensures last.Some? && last.value.err.Some? ==> r == f(Some(last.value.err.value))
      ensures !(last.Some? && last.value.err.Some?) ==> r == f(None)
    {
      f(Stored(last))
    }

    /** The first half of `catch`. */
    method Clear()
      modifies this
      ensures last == None
    {
      last := None;
    }

    /** The second half of `catch`. */
    method Settle(completion: Completion<FFIResult>) returns (c: Completion<FFIResult>)
      modifies this
      ensures Run(last, c) == Settled(Run(old(last), completion))
    {
      c := completion;
      if completion.Panicked? {
        c := Returned(FFIResult(FFIResultKind.Error));
        if last.Some? {
          if completion.payload.None? {
            c := Panicked(Some(UNWRAP_NONE));
          } else {
            last := Some(LastResult(Some(IoErrorOf(PanicText(completion.payload.value)))));
          }
        }
      }
    }

    /** `FFIResult::catch`. */
    method Catch(body: Cell -> Run<Cell, FFIResult>) returns (c: Completion<FFIResult>)
      modifies this
      ensures Run(last, c) == Settled(body(None))
    {
      Clear();
      var run := body(last);
      last := run.cell;
      c := Settle(run.completion);
    }

    /** `From<Result<T, FFIErrorKind>> for FFIResult`. */
    method FromResult<T>(result: Result<T, FFIErrorKind>) returns (r: FFIResult)
      modifies this
      ensures Run(last, Returned(r)) == Converted(result, old(last))
    {
      match result
      case Ok(_) =>
        r := FFIResult(FFIResultKind.Ok);
      case Err(e) =>
        if e.FFIResultKind? {
          r := FFIResult(e.kind);
        } else {
          r := Context(FFIResult(FFIResultKind.Error), e);
        }
    }

    /** `From<&str> for FFIResult`. */
    method FromStr(s: string) returns (r: FFIResult)
      modifies this
      ensures r.kind == FFIResultKind.Error
      ensures last == Some(LastResult(Some(IoError(s))))
    {
      r := Context(FFIResult(FFIResultKind.Error), IoErrorOf(s));
    }
  }
}
