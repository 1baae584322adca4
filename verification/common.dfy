/** Shared vocabulary for both capture managers: optional handles and the
    success-or-thrown-error outcome of a platform call. */
module Common {

  /** A handle that may be absent (`undefined` / `null` in the TypeScript code). */
  datatype Option<+T> = None | Some(value: T)

  /** A thrown JavaScript error, identified by its message. */
  datatype Error = Error(message: string)

  /** The settled outcome of an asynchronous platform call: it resolves with
      a value or rejects with an error. */
  datatype Result<+T> = Ok(value: T) | Fail(error: Error)
}
