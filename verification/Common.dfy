/** Small vocabulary shared by every model: optional values and the outcome of a
    call that either returns a value or raises one of the application errors. */
module Common {
  /** Identifiers (houses, devices, commands, epochs, users, nonces, ...) are only
      ever compared for equality, so any infinite type will do. */
  type Id = nat

  datatype Option<+T> = None | Some(value: T)

  /** The four application exceptions of app/core/errors.py. */
  datatype Error = Unavailable | Conflict | NotFound | InvalidReference

  datatype Outcome<+T> = Done(value: T) | Refused(error: Error)
}
