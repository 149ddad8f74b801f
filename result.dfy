/** The error enum of `src/proto_impl/result.rs` (`FFIErrorKind`), its `Display`, and the
    conversions that turn other errors into it. */
module ProtoResult {
  import opened Ints
  import opened Text
  import opened FfiKinds

  /** `FFIErrorKind`. `IoError` holds an `io::Error` of kind `Other`, represented by its message. */
  datatype FFIErrorKind =
    | FFIResultKind(kind: FFIResultKind)
    | QuinnError(code: u32, reason: string)
    | FFIError
    | IoError(message: string)

  /** `FFIErrorKind::io_error`. */
  function IoErrorOf(s: string): (e: FFIErrorKind)
    ensures e.IoError? && e.message == s
    ensures Display(e) == "Io Error Occurred: " + s
  {
    IoError(s)
  }

  const QUINN_ERROR_PREFIX: string := "QuinnError Error; code: "
  const REASON_SEPARATOR: string := " reason: "
  const FFI_ERROR_TEXT: string := "Error occurred in the FFI layer"
  const KIND_PREFIX: string := "Quinn error kind Occurred: "

  /** `Display for FFIErrorKind`. */
  function Display(e: FFIErrorKind): string {
    match e
    case QuinnError(code, reason) => QUINN_ERROR_PREFIX + Decimal(code) + REASON_SEPARATOR + reason
    case FFIError => FFI_ERROR_TEXT
    case IoError(message) => "Io Error Occurred: " + message
    case FFIResultKind(kind) => KIND_PREFIX + KindName(kind)
  }

  /** The text of a `QuinnError` names both its parts: the code can be read back from the digits
      after the prefix, and the reason ends the text. */
  lemma QuinnErrorDisplayNamesBoth(code: u32, reason: string)
    ensures var s := Display(QuinnError(code, reason));
            var n := |Decimal(code)|;
            |s| == |QUINN_ERROR_PREFIX| + n + |REASON_SEPARATOR| + |reason| &&
            s[..|QUINN_ERROR_PREFIX|] == QUINN_ERROR_PREFIX &&
            (forall i :: |QUINN_ERROR_PREFIX| <= i < |QUINN_ERROR_PREFIX| + n ==> IsDigit(s[i])) &&
            ParseDecimal(s[|QUINN_ERROR_PREFIX|..|QUINN_ERROR_PREFIX| + n]) == code &&
            s[|s| - |reason|..] == reason
  {
    var s := Display(QuinnError(code, reason));
    var p := |QUINN_ERROR_PREFIX|;
    var d := Decimal(code);
    assert s == QUINN_ERROR_PREFIX + d + REASON_SEPARATOR + reason;
    assert s[p..p + |d|] == d;
    assert s[|s| - |reason|..] == reason;
    DecimalRoundTrip(code);
  }

  /** The number of digits in `s` from index `i` on. */
  function DigitRun(s: string, i: nat): nat
    decreases |s| - i
  {
    if i < |s| && IsDigit(s[i]) then 1 + DigitRun(s, i + 1) else 0
  }

  lemma {:induction false} DigitRunOf(s: string, i: nat, n: nat)
    requires i + n < |s|
    requires forall k :: i <= k < i + n ==> IsDigit(s[k])
    requires !IsDigit(s[i + n])
    ensures DigitRun(s, i) == n
    decreases n
  {
    if n > 0 {
      DigitRunOf(s, i + 1, n - 1);
    }
  }

  /** Different codes give different texts, whatever the reasons. */
  lemma {:induction false} QuinnErrorDisplayKeepsCode(c1: u32, r1: string, c2: u32, r2: string)
    requires Display(QuinnError(c1, r1)) == Display(QuinnError(c2, r2))
    ensures c1 == c2 && r1 == r2
  {
    var s := Display(QuinnError(c1, r1));
    var p := |QUINN_ERROR_PREFIX|;
    var d1, d2 := Decimal(c1), Decimal(c2);
    assert s == QUINN_ERROR_PREFIX + d1 + REASON_SEPARATOR + r1;
    assert s == QUINN_ERROR_PREFIX + d2 + REASON_SEPARATOR + r2;
    // the digits run up to the space that starts the separator
    DigitRunOf(s, p, |d1|);
    DigitRunOf(s, p, |d2|);
    assert d1 == s[p..p + |d1|] == d2;
    DecimalRoundTrip(c1);
    DecimalRoundTrip(c2);
    assert r1 == s[p + |d1| + |REASON_SEPARATOR|..] == r2;
  }

  /** The FFI-layer error has one fixed text, and a bare kind is displayed by its name, so
      different kinds display differently. */
  lemma FixedAndKindDisplays(k1: FFIResultKind, k2: FFIResultKind)
    ensures Display(FFIError) == FFI_ERROR_TEXT
    ensures Display(FFIResultKind(k1)) == KIND_PREFIX + KindName(k1)
    ensures Display(FFIResultKind(k1)) == Display(FFIResultKind(k2)) ==> k1 == k2
  {
    if Display(FFIResultKind(k1)) == Display(FFIResultKind(k2)) {
      assert KindName(k1) == Display(FFIResultKind(k1))[|KIND_PREFIX|..];
      assert KindName(k2) == Display(FFIResultKind(k2))[|KIND_PREFIX|..];
      KindNameInjective(k1, k2);
    }
  }

  /** The error types that `impl_io_error!` converts. */
  datatype ForeignSource =
    | ConnectionError | TransportError | Io | TryRecvError | RecvError
    | ReadError | WriteError | ReadableError | VarIntBoundsExceeded

  /** A value of one of those types, represented by its `to_string()`. */
  datatype ForeignError = ForeignError(source: ForeignSource, text: string)

  /** The `From` impls that `impl_io_error!` generates: the error's text becomes an `IoError`. */
  function FromForeign(e: ForeignError): (r: FFIErrorKind)
    ensures r.IoError? && r.message == e.text
    ensures !r.FFIResultKind?
  {
    IoErrorOf(e.text)
  }

  /** `std::sync::mpsc::SendError<T>`: the value that could not be sent. */
  datatype SendError<T> = SendError(value: T)

  /** `Display for SendError<T>`, the same for every value. */
  const SEND_ERROR_TEXT: string := "sending on a closed channel"

  /** `From<SendError<T>> for FFIErrorKind`. */
  function FromSendError<T>(e: SendError<T>): (r: FFIErrorKind)
    ensures r.IoError? && r.message == SEND_ERROR_TEXT
    ensures !r.FFIResultKind?
  {
    IoErrorOf(SEND_ERROR_TEXT)
  }
}
