/** The safe API of `src/ffi/safe_api.rs`: its `ffi!` macro, which works like the one of
    `src/macros.rs` but records the null argument as an `IoError` and runs under `FFIResult::catch`,
    and the mutex-protected handles whose `mut_access`/`ref_access` hand the locked value to a
    callback. */
module SafeApi {
  import opened Wrappers
  import opened FfiKinds
  import opened ProtoResult
  import opened FfiResult
  import Macros

  /** The inner `call` function: null checks in declaration order, then the body. */
  function Call(args: seq<Macros.Argument>, body: Cell -> Run<Cell, FFIResult>, cell: Cell): (r: Run<Cell, FFIResult>)
    ensures Macros.FirstNull(args).Some? ==>
      r == Run(Some(LastResult(Some(IoError(args[Macros.FirstNull(args).value].name)))),
               Returned(FFIResult(FFIResultKind.ArgumentNull)))
    ensures Macros.FirstNull(args).None? ==> r == body(cell)
  {
    match Macros.FirstNull(args)
    case Some(i) => Run(Some(LastResult(Some(IoErrorOf(args[i].name)))), Returned(FFIResult(FFIResultKind.ArgumentNull)))
    case None => body(cell)
  }

  /** A generated function: `FFIResult::catch(move || call(args))`. */
  method Invoke(cell: LastResultCell, args: seq<Macros.Argument>, body: Cell -> Run<Cell, FFIResult>)
    returns (c: Completion<FFIResult>)
    modifies cell
    ensures Run(cell.last, c) == Settled(Call(args, body, None))
  {
    c := cell.Catch(s => Call(args, body, s));
  }

  /** With a null argument the exported function returns `ArgumentNull` and the cell names the
      first null argument: this `catch` leaves a returned result and its context alone. */
  lemma {:induction false} NullArgumentReported(args: seq<Macros.Argument>, body: Cell -> Run<Cell, FFIResult>, k: nat)
    requires k < |args| && args[k].isNull && forall j :: 0 <= j < k ==> !args[j].isNull
    ensures Settled(Call(args, body, None)).completion == Returned(FFIResult(FFIResultKind.ArgumentNull))
    ensures Stored(Settled(Call(args, body, None)).cell) == Some(IoError(args[k].name))
  {
    Macros.FirstNullIsFirst(args, k);
  }

  /** The body is never evaluated when an argument is null. */
  lemma NullArgumentSkipsBody(args: seq<Macros.Argument>, b1: Cell -> Run<Cell, FFIResult>,
                              b2: Cell -> Run<Cell, FFIResult>, cell: Cell)
    requires Macros.FirstNull(args).Some?
    ensures Call(args, b1, cell) == Call(args, b2, cell)
  {
  }

  /** With every argument present the generated function is exactly `catch` of the body, and a
      body that does not panic has its result and its cell returned unchanged. */
  lemma NoNullRunsBody(args: seq<Macros.Argument>, body: Cell -> Run<Cell, FFIResult>)
    requires forall j :: 0 <= j < |args| ==> !args[j].isNull
    ensures Settled(Call(args, body, None)) == Settled(body(None))
    ensures body(None).completion.Returned? ==> Settled(Call(args, body, None)) == body(None)
  {
  }

  /** The text of the panic `self.lock().unwrap()` raises on a poisoned mutex. */
  const POISONED: string := UnwrapErr("PoisonError { .. }")

  /** What a callback given to `mut_access` does: the value it leaves behind, and its outcome. */
  datatype Step<T> = Step(inner: T, outcome: Completion<Result<(), FFIErrorKind>>)

  /** Locking, running the callback and unlocking, on the mutex's value and poison flag: a
      poisoned mutex panics before the callback runs; otherwise the callback's outcome is the
      result, and a panic inside it poisons the mutex. */
  function Access<T>(inner: T, poisoned: bool, cb: T -> Step<T>): (r: (Step<T>, bool))
    ensures poisoned ==> r == (Step(inner, Panicked(Some(POISONED))), true)
    ensures !poisoned ==> r.0 == cb(inner) && (r.1 <==> cb(inner).outcome.Panicked?)
  {
    if poisoned then (Step(inner, Panicked(Some(POISONED))), true)
    else var s := cb(inner); (s, s.outcome.Panicked?)
  }

  /** On a healthy mutex, access is pass-through: the callback's result and nothing else. */
  lemma AccessPassesThrough<T>(inner: T, cb: T -> Step<T>)
    requires cb(inner).outcome.Returned?
    ensures Access(inner, false, cb) == (cb(inner), false)
  {
  }

  /** `FFIHandleMut<Mutex<T>>` / `FFIHandleMut<Arc<Mutex<T>>>` with the `HandleMut` impls of the
      safe API: the value behind the mutex and the mutex's poison flag. */
  class Handle<T> {
    var inner: T
    var poisoned: bool

    /** `HandleMut::new`. */
    constructor (instance: T)
      ensures inner == instance && !poisoned
    {
      inner := instance;
      poisoned := false;
    }

    /** `mut_access`: the callback may change the value. */
    method MutAccess(cb: T -> Step<T>) returns (c: Completion<Result<(), FFIErrorKind>>)
      modifies this
      ensures (Step(inner, c), poisoned) == Access(old(inner), old(poisoned), cb)
    {
      if poisoned {
        c := Panicked(Some(POISONED));
      } else {
        var s := cb(inner);
        inner := s.inner;
        c := s.outcome;
        poisoned := c.Panicked?;
      }
    }

    /** `ref_access`: the callback only reads the value. */
    method RefAccess(cb: T -> Completion<Result<(), FFIErrorKind>>) returns (c: Completion<Result<(), FFIErrorKind>>)
      modifies this
      ensures (Step(inner, c), poisoned) == Access(old(inner), old(poisoned), v => Step(v, cb(v)))
      ensures inner == old(inner)
    {
      if poisoned {
        c := Panicked(Some(POISONED));
      } else {
        c := cb(inner);
        poisoned := c.Panicked?;
      }
    }
  }
}
