/** Value shapes shared by every module of the model. */
module Base {

  /** JavaScript's `null`/`undefined` next to a present value. */
  datatype Option<+T> = None | Some(value: T)

  /** The outcome of an awaited call: a value, or an `Error` whose `message` is kept. */
  datatype Result<+T> = Ok(value: T) | Err(message: string)

  /** The `{ success, <payload>, error, message }` object every client operation returns. */
  datatype Envelope<T> = Envelope(success: bool, payload: Option<T>, error: Option<string>, message: string)

  /** The `catch` branch: the thrown message goes to `error`, a fixed text to `message`. */
  function Failed<T>(error: string, message: string): Envelope<T> {
    Envelope(false, None, Some(error), message)
  }

  /** An early `return { success: false, message }`. */
  function Refused<T>(message: string): Envelope<T> {
    Envelope(false, None, None, message)
  }

  function Succeeded<T>(payload: T, message: string): Envelope<T> {
    Envelope(true, Some(payload), None, message)
  }
}
