/** Error values, optional values and component references shared by every module of the model.

    Go signals "no error" with a nil `error`; here that is `None`, and a present
    error is `Some(e)`. The constructors of `Error` follow the error helpers the
    modelled code calls: `pkg/errors` (New, Errorf, WithMessage, WithMessagef,
    WithStack) and the framework's own `errors.InternalServerError`.
 */
module Common {

  datatype Option<+T> = None | Some(value: T)

  datatype Result<+T> = Ok(value: T) | Err(error: Error)

  datatype Error =
    /** `perrors.New(text)` or `perrors.Errorf(text)` with no arguments. */
    | Message(text: string)
    /** `perrors.WithMessage(cause, message)` / `perrors.WithMessagef(cause, format, ...)`. */
    | WithMessage(cause: Error, message: string)
    /** `perrors.WithStack(cause)`: the same error with a stack trace attached. */
    | WithStack(cause: Error)
    /** `errors.InternalServerError(id, detail)` of the framework's errors package. */
    | InternalServerError(id: string, detail: string)
    /** An error produced by code outside the model (an SDK, a tracer, a user function). */
    | Foreign(code: nat)
    /** A Go run-time panic (a nil dereference, a panicking callback), carrying its value as text. */
    | Panic(value: string)

  /** A value of a Go interface or function type that the modelled code only stores and
      compares with nil: a broker, a registry, a transport, a codec factory, a wrapper ...
      `Builtin` is the framework's own default implementation installed by a builder. */
  datatype Component = Nil | Ref(id: nat) | Builtin

  /** `perrors.WithMessagef(err, ...)`: annotates a non-nil error and maps nil to nil. */
  function WithMessageOf(err: Option<Error>, message: string): (r: Option<Error>)
    ensures r.None? <==> err.None?
    ensures err.Some? ==> r.value.WithMessage? && r.value.cause == err.value && r.value.message == message
  {
    match err
    case None => None
    case Some(e) => Some(WithMessage(e, message))
  }
}
