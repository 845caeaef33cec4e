/** The JavaScript values the adapter runtime creates, passes around or
    inspects, and the settled state of a promise. */
module JsValues {

  datatype Option<+T> = None | Some(value: T)

  /** A JavaScript value, reduced to the kinds the adapter itself deals with:
      `undefined` (a missing headless key, the no-op output's return),
      `null`, plain data, plain key-to-value objects (headless input, input
      options) and `Error` objects (the unsupplied-input failure). */
  datatype Value =
    | Undefined
    | Null
    | Bool(b: bool)
    | Str(s: string)
    | Object(fields: map<string, Value>)
    | Error(message: string)

  /** A settled promise, or a handler call that returned (`Fulfilled`) or
      threw (`Rejected`). */
  datatype Settled = Fulfilled(value: Value) | Rejected(reason: Value)
}
