/** The `ffi!` macro of `src/macros.rs`. Each generated function checks its arguments for null in
    declaration order; the first null one makes it return `ArgumentNull` with an error naming that
    argument; otherwise the body is evaluated. Either way the whole call runs under
    `QuinnResult::catch`. */
module Macros {
  import opened Wrappers
  import opened Text
  import opened QuinnResults

  /** A Rust identifier, as `stringify!` renders an argument's name. */
  predicate IsIdentifier(s: string) {
    |s| > 0 && !('0' <= s[0] <= '9') &&
    forall i :: 0 <= i < |s| ==> s[i] == '_' || 'a' <= s[i] <= 'z' || 'A' <= s[i] <= 'Z' || '0' <= s[i] <= '9'
  }

  type Identifier = s: string | IsIdentifier(s) witness "x"

  /** One argument of a generated function: its name, and whether `IsNull::is_null` holds of it
      (only pointer-like arguments can be null). */
  datatype Argument = Argument(name: Identifier, isNull: bool)

  /** The position of the first null argument, if any. */
  function FirstNull(args: seq<Argument>): (r: Option<nat>)
    ensures r.Some? ==> r.value < |args| && args[r.value].isNull
    ensures r.Some? ==> forall j :: 0 <= j < r.value ==> !args[j].isNull
    ensures r.None? <==> forall j :: 0 <= j < |args| ==> !args[j].isNull
  {
    if args == [] then None
    else if args[0].isNull then Some(0)
    else match FirstNull(args[1..])
      case None => None
      case Some(i) => Some(i + 1)
  }

  lemma IdentifierNulFree(s: Identifier)
    ensures '\0' !in s
  {
  }

  /** The inner `call` function: null checks, then the body; `cell` is what the body finds. */
  function Call(args: seq<Argument>, body: Cell -> Run<Cell, QuinnResult>, cell: Cell): (r: Run<Cell, QuinnResult>)
    ensures FirstNull(args).Some? ==>
      r == Run(Some(LastResult(Some(QuinnError.QuinnError(0, Utf8(args[FirstNull(args).value].name))))),
               Returned(QuinnResult(Kind.ArgumentNull)))
    ensures FirstNull(args).None? ==> r == body(cell)
  {
    match FirstNull(args)
    case Some(i) =>
      IdentifierNulFree(args[i].name);
      var e := NewQuinnError(0, args[i].name).value;
      Run(Some(LastResult(Some(e))), Returned(QuinnResult(Kind.ArgumentNull)))
    case None => body(cell)
  }

  /** A generated function: `QuinnResult::catch(move || call(args))`. */
  method Invoke(cell: LastResultCell, args: seq<Argument>, body: Cell -> Run<Cell, QuinnResult>)
    returns (c: Completion<QuinnResult>)
    modifies cell
    ensures Run(cell.last, c) == Settled(Call(args, body, None))
  {
    c := cell.Catch(s => Call(args, body, s));
  }

  /** With a null argument the result is `ArgumentNull`, whatever the body; because the null check
      stored a context, `catch` then replaces the argument's name by the result's own text
      ("An argument was null."). */
  lemma NullArgumentReported(args: seq<Argument>, body: Cell -> Run<Cell, QuinnResult>)
    requires exists j :: 0 <= j < |args| && args[j].isNull
    ensures Settled(Call(args, body, None)).completion == Returned(QuinnResult(Kind.ArgumentNull))
    ensures Stored(Settled(Call(args, body, None)).cell) ==
      Some(QuinnError.QuinnError(0, Utf8(QuinnResult(Kind.ArgumentNull).Display())))
  {
    assert FirstNull(args).Some?;
  }

  /** The body is never evaluated when an argument is null: swapping it changes nothing. */
  lemma NullArgumentSkipsBody(args: seq<Argument>, b1: Cell -> Run<Cell, QuinnResult>,
                              b2: Cell -> Run<Cell, QuinnResult>, cell: Cell)
    requires FirstNull(args).Some?
    ensures Call(args, b1, cell) == Call(args, b2, cell)
  {
  }

  /** The argument reported is the first null one in declaration order. */
  lemma {:induction false} FirstNullIsFirst(args: seq<Argument>, k: nat)
    requires k < |args| && args[k].isNull && forall j :: 0 <= j < k ==> !args[j].isNull
    ensures FirstNull(args) == Some(k)
  {
    if k > 0 {
      FirstNullIsFirst(args[1..], k - 1);
    }
  }

  /** With every argument present, the generated function is exactly `catch` of the body. */
  lemma NoNullRunsBody(args: seq<Argument>, body: Cell -> Run<Cell, QuinnResult>)
    requires forall j :: 0 <= j < |args| ==> !args[j].isNull
    ensures Settled(Call(args, body, None)) == Settled(body(None))
  {
  }
}
