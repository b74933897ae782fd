/** Option and Result values for the nullable fields and the thrown errors of the
    modelled components. */
module Wrappers {

  /** A value that may be absent: `null`/`undefined` in the source. */
  datatype Option<+T> = None | Some(value: T)

  /** The outcome of an operation that either returns a value or throws an `Error`
      carrying a message. */
  datatype Result<+T> = Ok(value: T) | Throw(message: string)

  /** A React context lookup that guards against use outside its provider: with
      no provider value it throws an `Error` with `message`, otherwise it returns
      the value. */
  function UseContext<T>(context: Option<T>, message: string): (r: Result<T>)
    ensures context.None? <==> r.Throw?
    ensures context.None? ==> r.message == message
    ensures context.Some? ==> r.value == context.value
  {
    match context
    case None => Throw(message)
    case Some(c) => Ok(c)
  }
}
