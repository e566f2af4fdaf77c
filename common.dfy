/** Values shared by every component of the simulator: optional values, the
    outcome of a simulated operation, the two kinds of simulated failure and
    the status codes a request can end with. */
module Common {

  datatype Option<+T> = None | Some(value: T)

  /** The two exception kinds of the simulator. A SimException is a failure of
      the simulated domain (a refused connection, a timeout); a SimError
      signals that the instance executing an operation has died. Both carry a
      status code. */
  datatype SimFailure = SimException(code: string) | SimError(code: string)

  /** What a finished generator or callback produced: its return value or the
      simulated failure it raised. */
  datatype Result<+T> = Ok(value: T) | Err(error: SimFailure)

  /** The Python exceptions the source raises outside the simulated domain
      (a failed `assert`, indexing past the end, a failed `float()` parse, a
      missing dictionary key, an operation on the wrong type, an event the
      scheduler is asked to trigger twice). Raising one of
      them ends the simulation. */
  datatype PyException = AssertionError | IndexError | ValueError | KeyError | TypeError | RuntimeError

  /** The result of a computation that can raise one of the exceptions above. */
  datatype PyResult<+T> = Value(value: T) | Raise(exception: PyException)

  /** A request or response payload. */
  datatype Message = Message(attachment: Option<string>, size: int)

  /** `Message()`: no attachment, size 0. */
  const EmptyMessage: Message := Message(None, 0)

  const CONNECTION_CLOSED: string := "CONNECTION_CLOSED"
  const CONNECTION_REFUSED: string := "CONNECTION_REFUSED"
  const SERVER_DOWN: string := "SERVER_DOWN"
  const SERVER_ERROR: string := "SERVER_ERROR"
  const TIMEOUT: string := "TIMEOUT"
  const SUCCEED: string := "SUCCEED"
  /** The value an instance's alive event carries once the instance has died. */
  const THIS_DOWN: string := "THIS_DOWN"
}
