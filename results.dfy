/** Kernel output traits and result normalisation
    (include/kernelpp/kernel_invoke.h, op_traits and detail::convert).

    The source picks these at compile time from the return type of a
    kernel's op; here the return type is an explicit Shape. */
module Results {
  import opened Kernel

  /** variant<R, error_code>: a value, or an error code. */
  datatype Outcome<R> = Val(value: R) | Err(code: ErrorCode)

  /** The return type of a kernel's op, one op_traits specialisation each:
      void, a plain R, variant<R, error_code>, error_code. */
  datatype Shape = VoidOp | ValueOp | VariantOp | ErrorCodeOp

  /** What one execution of a kernel's op returns. */
  datatype OpReturn<R> =
    | Unit                       // a void op
    | Plain(value: R)            // an op returning R
    | Tagged(outcome: Outcome<R>)  // an op returning variant<R, error_code>
    | Errc(code: ErrorCode)      // an op returning error_code

  /** op_traits<...>::output_type, the internal result of one attempt:
      error_code for the void and error_code shapes, variant<R, error_code>
      for the others. */
  datatype Output<R> = CodeOut(code: ErrorCode) | VariantOut(outcome: Outcome<R>)

  /** maybe<R> = variant<R, error>, the public result of a value kernel. */
  datatype Maybe<R> = Just(value: R) | Error(message: string)

  /** status = optional<error>, the public result of a value-less kernel. */
  datatype Status = Clear | Raised(message: string)

  /** op_traits<...>::public_type. */
  datatype Public<R> = AsMaybe(maybe: Maybe<R>) | AsStatus(status: Status)

  function ShapeOf<R>(ret: OpReturn<R>): Shape
  {
    match ret
    case Unit => VoidOp
    case Plain(_) => ValueOp
    case Tagged(_) => VariantOp
    case Errc(_) => ErrorCodeOp
  }

  /** op_traits<...>::is_void: only the void specialisation says true; the
      error_code one says false although its output type is error_code. */
  predicate IsVoid(shape: Shape)
  {
    shape == VoidOp
  }

  /** Whether a shape's output_type is error_code (otherwise it is
      variant<R, error_code>). */
  predicate HasCodeOutput(shape: Shape)
  {
    shape == VoidOp || shape == ErrorCodeOp
  }

  /** An internal result has the output type its shape prescribes. */
  predicate Fits<R>(shape: Shape, out: Output<R>)
  {
    HasCodeOutput(shape) <==> out.CodeOut?
  }

  /** op_traits<...>::get_errc: the identity on an error_code output; on a
      variant, the code it holds, or NONE when it holds a value. */
  function GetErrc<R>(out: Output<R>): ErrorCode
  {
    match out
    case CodeOut(c) => c
    case VariantOut(Err(c)) => c
    case VariantOut(Val(_)) => None
  }

  /** An error_code converted to a shape's output type, as when the
      dispatcher returns a bare code (CANCELLED, COMPUTE_MODE_DISABLED,
      KERNEL_NOT_DEFINED) from a function whose result type is the
      kernel's output_type. */
  function FromCode<R>(shape: Shape, c: ErrorCode): (out: Output<R>)
    ensures Fits(shape, out)
    ensures GetErrc(out) == c
  {
    if HasCodeOutput(shape) then CodeOut(c) else VariantOut(Err(c))
  }

  /** The comparison s != error_code::KERNEL_NOT_DEFINED, negated: true
      exactly when the output holds the code KERNEL_NOT_DEFINED. */
  predicate IsNotDefined<R>(out: Output<R>)
    ensures IsNotDefined(out) <==> GetErrc(out) == KernelNotDefined
  {
    match out
    case CodeOut(c) => c == KernelNotDefined
    case VariantOut(Err(c)) => c == KernelNotDefined
    case VariantOut(Val(_)) => false
  }

  /** runner::apply's treatment of what a supported op returned: a void op
      yields NONE, a non-void op's result is passed through, converted to
      the output type. */
  function Wrap<R>(ret: OpReturn<R>): (out: Output<R>)
    ensures Fits(ShapeOf(ret), out)
    ensures ret.Unit? ==> Convert(out) == AsStatus(Clear)
    ensures ret.Plain? ==> Convert(out) == AsMaybe(Just(ret.value))
    ensures ret.Tagged? ==> out == VariantOut(ret.outcome)
    ensures ret.Errc? ==> out.CodeOut? && GetErrc(out) == ret.code
  {
    match ret
    case Unit => CodeOut(None)
    case Plain(v) => VariantOut(Val(v))
    case Tagged(o) => VariantOut(o)
    case Errc(c) => CodeOut(c)
  }

  /** detail::convert on variant<R, error_code>: a held value is kept as it
      is; a held code, NONE included, becomes its message. */
  function ConvertVariant<R>(o: Outcome<R>): (m: Maybe<R>)
    ensures m.Just? <==> o.Val?
    ensures o.Val? ==> m.value == o.value
    ensures o.Err? ==> ParseErrorCode(m.message) == Known(o.code)
  {
    match o
    case Err(c) => ErrorCodeStrRoundTrip(c); Error(ErrorCodeStr(c))
    case Val(v) => Just(v)
  }

  /** detail::convert on error_code: NONE is the empty status, any other
      code a status holding its message. */
  function ConvertCode(c: ErrorCode): (s: Status)
    ensures s.Clear? <==> c == None
    ensures s.Raised? ==> ParseErrorCode(s.message) == Known(c)
  {
    ErrorCodeStrRoundTrip(c);
    if c == None then Clear else Raised(ErrorCodeStr(c))
  }

  /** The public result of an attempt: the convert overload its output type
      selects. */
  function Convert<R>(out: Output<R>): (p: Public<R>)
    ensures p.AsStatus? <==> out.CodeOut?
  {
    match out
    case CodeOut(c) => AsStatus(ConvertCode(c))
    case VariantOut(o) => AsMaybe(ConvertVariant(o))
  }

  /** The error code a caller can read off a public result: NONE for a
      value or an empty status, otherwise the code its message names. */
  function PublicCode<R>(p: Public<R>): Decoded<ErrorCode>
  {
    match p
    case AsStatus(Clear) => Known(None)
    case AsStatus(Raised(msg)) => ParseErrorCode(msg)
    case AsMaybe(Just(_)) => Known(None)
    case AsMaybe(Error(msg)) => ParseErrorCode(msg)
  }

  /** The public result names exactly the code the end hook is given. */
  lemma PublicNamesEndCode<R>(out: Output<R>)
    ensures PublicCode(Convert(out)) == Known(GetErrc(out))
  {
  }

  /** A value is handed to the caller unchanged, and an error code can be
      read back from the public result, for every output. */
  lemma ConvertRoundTrip<R>(out: Output<R>)
    ensures out.VariantOut? && out.outcome.Val? ==> Convert(out) == AsMaybe(Just(out.outcome.value))
    ensures out.CodeOut? ==> (Convert(out) == AsStatus(Clear) <==> out.code == None)
    ensures out.VariantOut? && out.outcome.Err? ==>
      Convert(out).AsMaybe? && Convert(out).maybe.Error? &&
      ParseErrorCode(Convert(out).maybe.message) == Known(out.outcome.code)
  {
  }

  /** A variant holding the code NONE is not a success once converted: it
      becomes the message "Success". */
  lemma VariantNoneIsAnError<R>()
    ensures Convert(Output<R>.VariantOut(Err(None))) == AsMaybe(Error("Success"))
  {
  }

  /** get_errc is the identity for the void and error_code shapes. */
  lemma GetErrcOfCodeShapes<R>(shape: Shape, out: Output<R>)
    requires HasCodeOutput(shape) && Fits(shape, out)
    ensures GetErrc(out) == out.code
  {
  }
}
