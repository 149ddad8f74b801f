/** The `QuinnResult` layer of `src/ffi/quinn_result.rs`: a closed result kind returned across the
    FFI boundary, and a thread-local "last result" cell that holds the error behind the most recent
    failure. The cell is one mutable field of `LastResultCell` (one thread). */
module QuinnResults {
  import opened Wrappers
  import opened Ints
  import opened Text

  datatype Kind = Ok | Error | BufferToSmall | BufferBlocked | ArgumentNull

  /** The name `{:?}` gives a kind. */
  function KindName(k: Kind): string {
    match k
    case Ok => "Ok"
    case Error => "Error"
    case BufferToSmall => "BufferToSmall"
    case BufferBlocked => "BufferBlocked"
    case ArgumentNull => "ArgumentNull"
  }

  /** The `#[repr(C)]` result every exported function returns. */
  datatype QuinnResult = QuinnResult(kind: Kind) {

    predicate IsErr() {
      kind != Kind.Ok
    }

    /** `Display for QuinnResult`: one fixed sentence per kind. */
    function Display(): (s: string)
      ensures '\0' !in s
    {
      match kind
      case Ok => "Successful"
      case Error => "Some error occurred"
      case BufferToSmall => "The supplied buffer was to small."
      case BufferBlocked => "There is no data in the buffer to be read."
      case ArgumentNull => "An argument was null."
    }
  }

  /** `is_err` holds exactly when the kind is not `Ok`: `QuinnResult::ok()` is the one success. */
  lemma IsErrIffNotOk(r: QuinnResult)
    ensures !r.IsErr() <==> r == QuinnResult(Kind.Ok)
    ensures r.IsErr() <==> r.Display() != "Successful"
  {
  }

  /** The error record behind a failure: a code and a C string. `reason` holds the string's bytes,
      without the terminating NUL. */
  datatype QuinnError = QuinnError(code: u64, reason: seq<u8>)

  /** `QuinnError::new`, whose `CString::new(reason).unwrap()` panics on a NUL byte. */
  function NewQuinnError(code: u64, reason: string): (r: Completion<QuinnError>)
    ensures r.Returned? <==> 0 !in Utf8(reason)
    ensures r.Returned? ==> r.value.code == code && r.value.reason == Utf8(reason)
  {
    Utf8HasNul(reason);
    if '\0' in reason then Panicked(Some(UnwrapErr("NulError"))) else Returned(QuinnError.QuinnError(code, Utf8(reason)))
  }

  /** The error type this layer converts from. No modelled file defines it; it has the variants
      that its uses name, and one for errors converted from other types (carrying their text). */
  datatype QuinnErrorKind =
    | QuinErrorKind(kind: Kind)
    | QuinnError(code: u32, reason: string)
    | IoError(message: string)

  /** `e.to_string()`, in the format of the `Display` of the error enum in `proto_impl/result.rs`. */
  function Describe(e: QuinnErrorKind): string {
    match e
    case QuinErrorKind(k) => "Quinn error kind Occurred: " + KindName(k)
    case QuinnError(code, reason) => "QuinnError Error; code: " + Decimal(code) + " reason: " + reason
    case IoError(message) => "Io Error Occurred: " + message
  }

  /** The conversion `From<Result<T, QuinnErrorKind>>` performs, on the cell it finds: success is
      `Ok`; a bare kind is returned as that kind, the cell untouched; any other error is `Error`
      with a code-0 context holding the error's text (whose `CString::new` panics on a NUL). */
  function Converted<T>(result: Result<T, QuinnErrorKind>, cell: Cell): (r: Run<Cell, QuinnResult>)
    ensures result.Ok? ==> r == Run(cell, Returned(QuinnResult(Kind.Ok)))
    ensures result.Err? && result.error.QuinErrorKind? ==> r == Run(cell, Returned(QuinnResult(result.error.kind)))
    ensures result.Err? && !result.error.QuinErrorKind? && '\0' !in Describe(result.error) ==>
      r == Run(Some(LastResult(Some(QuinnError.QuinnError(0, Utf8(Describe(result.error)))))),
               Returned(QuinnResult(Kind.Error)))
    ensures result.Err? && !result.error.QuinErrorKind? && '\0' in Describe(result.error) ==>
      r.completion.Panicked? && r.cell == cell
  {
    match result
    case Ok(_) => Run(cell, Returned(QuinnResult(Kind.Ok)))
    case Err(e) =>
      if e.QuinErrorKind? then Run(cell, Returned(QuinnResult(e.kind)))
      else
        Utf8HasNul(Describe(e));
        match NewQuinnError(0, Describe(e))
        case Panicked(p) => Run(cell, Panicked(p))
        case Returned(error) => Run(Some(LastResult(Some(error))), Returned(QuinnResult(Kind.Error)))
  }

  /** `LastResult`: what the thread-local cell holds once something has been stored. */
  datatype LastResult = LastResult(err: Option<QuinnError>)

  /** The thread-local `RefCell<Option<LastResult>>`. */
  type Cell = Option<LastResult>

  /** What `with_last_result` passes to its closure. */
  function Stored(cell: Cell): (m: Option<QuinnError>)
    ensures m.Some? <==> cell.Some? && cell.value.err.Some?
    ensures cell.Some? ==> m == cell.value.err
  {
    match cell
    case None => None
    case Some(last) => last.err
  }

  /** The message `catch` records for a panic. */
  function PanicText(payload: string): (s: string)
    ensures |s| == |payload| + 22
  {
    "internal panic with '" + payload + "'"
  }

  /** What `catch` does after its closure has run: `run` is the state the closure left the cell in
      (the closure started from an empty cell) and how it ended. The result is the final state of
      the cell and what `catch` itself returns; a `Panicked` result is a panic that escapes `catch`. */
  function Settled(run: Run<Cell, QuinnResult>): Run<Cell, QuinnResult> {
    match run.completion
    case Returned(result) =>
      if result.IsErr() then
        var error := NewQuinnError(0, result.Display()).value;
        Run(if run.cell.Some? then Some(LastResult(Some(error))) else None, Returned(result))
      else
        Run(run.cell, Returned(QuinnResult(Kind.Ok)))
    case Panicked(payload) =>
      if run.cell.None? then Run(None, Returned(QuinnResult(Kind.Error)))
      else
        match payload
        case None => Run(run.cell, Panicked(Some(UNWRAP_NONE)))
        case Some(p) =>
          match NewQuinnError(0, PanicText(p))
          case Returned(e) => Run(Some(LastResult(Some(e))), Returned(QuinnResult(Kind.Error)))
          case Panicked(q) => Run(run.cell, Panicked(q))
  }

  /** Without a panic, `catch` returns a result of the closure's kind. */
  lemma SettledKeepsKind(run: Run<Cell, QuinnResult>)
    requires run.completion.Returned?
    ensures Settled(run).completion.Returned?
    ensures Settled(run).completion.value.kind == run.completion.value.kind
  {
  }

  /** After an erroneous closure, the cell holds the result's own text if and only if the closure
      had stored something; otherwise it stays empty. A successful closure leaves the cell alone. */
  lemma SettledRecordsOnlyOverContext(run: Run<Cell, QuinnResult>)
    requires run.completion.Returned?
    ensures run.completion.value.IsErr() && run.cell.Some? ==>
      Stored(Settled(run).cell) == Some(QuinnError.QuinnError(0, Utf8(run.completion.value.Display())))
    ensures run.completion.value.IsErr() && run.cell.None? ==> Settled(run).cell == None
    ensures !run.completion.value.IsErr() ==> Settled(run).cell == run.cell
  {
  }

  /** A panicking closure makes `catch` return `Error`, unless recording the panic panics in turn;
      that can only happen when the closure had stored something. */
  lemma SettledPanicIsError(run: Run<Cell, QuinnResult>)
    requires run.completion.Panicked?
    ensures run.cell.None? ==> Settled(run) == Run(None, Returned(QuinnResult(Kind.Error)))
    ensures Settled(run).completion.Returned? ==> Settled(run).completion.value.kind == Kind.Error
    ensures Settled(run).completion.Panicked? <==>
      run.cell.Some? && (run.completion.payload.None? || '\0' in run.completion.payload.value)
  {
    if run.cell.Some? && run.completion.payload.Some? {
      var p := run.completion.payload.value;
      Utf8HasNul(PanicText(p));
      NulInConcat("internal panic with '", p);
      NulInConcat("internal panic with '" + p, "'");
    }
  }

  /** A NUL is in a concatenation exactly when it is in one of the parts. */
  lemma NulInConcat(a: string, b: string)
    ensures '\0' in a + b <==> '\0' in a || '\0' in b
  {
    if '\0' in a + b {
      var i :| 0 <= i < |a + b| && (a + b)[i] == '\0';
      if i < |a| { assert a[i] == '\0'; } else { assert b[i - |a|] == '\0'; }
    }
    if '\0' in b {
      var i :| 0 <= i < |b| && b[i] == '\0';
      assert (a + b)[|a| + i] == '\0';
    }
  }

  /** The thread-local cell of this layer. */
  class LastResultCell {
    var last: Cell

    /** `RefCell::new(None)`: a thread starts with nothing stored. */
    constructor ()
      ensures last == None
    {
      last := None;
    }

    /** `QuinnResult::context`: stores `e` and hands back the receiver unchanged. */
    method Context(self_: QuinnResult, e: QuinnError) returns (r: QuinnResult)
      modifies this
      ensures r == self_
      ensures last == Some(LastResult(Some(e)))
    {
      last := Some(LastResult(Some(e)));
      r := self_;
    }

    /** `with_last_result`: the closure receives the stored error, if any. */
    function WithLastResult<R>(f: Option<QuinnError> -> R): (r: R)
      reads this
      ensures last.Some? && last.value.err.Some? ==> r == f(Some(last.value.err.value))
      ensures !(last.Some? && last.value.err.Some?) ==> r == f(None)
    {
      f(Stored(last))
    }

    /** The first half of `catch`: the cell is emptied before the closure runs. */
    method Clear()
      modifies this
      ensures last == None
    {
      last := None;
    }

    /** The second half of `catch`, given how the closure ended. */
    method Settle(completion: Completion<QuinnResult>) returns (c: Completion<QuinnResult>)
      modifies this
      ensures Run(last, c) == Settled(Run(old(last), completion))
    {
      match completion
      case Returned(result) =>
        if result.IsErr() {
          var error := NewQuinnError(0, result.Display());
          if last.Some? {
            last := Some(LastResult(Some(error.value)));
          }
          c := Returned(result);
        } else {
          c := Returned(QuinnResult(Kind.Ok));
        }
      case Panicked(payload) =>
        c := Returned(QuinnResult(Kind.Error));
        if last.Some? {
          if payload.None? {
            c := Panicked(Some(UNWRAP_NONE));
          } else {
            var error := NewQuinnError(0, PanicText(payload.value));
            if error.Panicked? {
              c := Panicked(error.payload);
            } else {
              last := Some(LastResult(Some(error.value)));
            }
          }
        }
    }

    /** `QuinnResult::catch`: clear the cell, run the closure, settle. */
    method Catch(body: Cell -> Run<Cell, QuinnResult>) returns (c: Completion<QuinnResult>)
      modifies this
      ensures Run(last, c) == Settled(body(None))
    {
      Clear();
      var run := body(last);
      last := run.cell;
      c := Settle(run.completion);
    }

    /** `From<Result<T, QuinnErrorKind>> for QuinnResult`. */
    method FromResult<T>(result: Result<T, QuinnErrorKind>) returns (c: Completion<QuinnResult>)
      modifies this
      ensures Run(last, c) == Converted(result, old(last))
    {
      match result
      case Ok(_) =>
        c := Returned(QuinnResult(Kind.Ok));
      case Err(e) =>
        match e
        case QuinErrorKind(kind) =>
          c := Returned(QuinnResult(kind));
        case _ =>
          var error := NewQuinnError(0, Describe(e));
          if error.Panicked? {
            c := Panicked(error.payload);
          } else {
            var r := Context(QuinnResult(Kind.Error), error.value);
            c := Returned(r);
          }
    }

    /** `From<&str> for QuinnResult`: an `Error` whose context is the string. */
    method FromStr(s: string) returns (c: Completion<QuinnResult>)
      modifies this
      ensures '\0' !in s ==> c == Returned(QuinnResult(Kind.Error)) && last == Some(LastResult(Some(QuinnError.QuinnError(0, Utf8(s)))))
      ensures '\0' in s ==> c.Panicked? && last == old(last)
    {
      var error := NewQuinnError(0, s);
      Utf8HasNul(s);
      if error.Panicked? {
        c := Panicked(error.payload);
      } else {
        var r := Context(QuinnResult(Kind.Error), error.value);
        c := Returned(r);
      }
    }
  }
}
