/** Value shapes shared by the whole model of the dashboard front end. */
module JsValues {

  /** A value that may be `undefined`. */
  datatype Option<+T> = None | Some(value: T)

  /**
   * How a JavaScript call ends: it returns a value, or it throws.
   * `Thrown` carries a short description of the exception.
   */
  datatype Completion<+T> = Normal(value: T) | Thrown(reason: string)

  /** The outcome of awaiting a promise: fulfilled with a value, or rejected with a reason. */
  datatype Settled<+T> = Fulfilled(value: T) | Rejected(reason: string)

  /** Truthiness of an optional string: `undefined` and `""` are falsy. */
  predicate TruthyString(v: Option<string>)
  {
    v.Some? && v.value != ""
  }

  /** Truthiness of an optional boolean: only `true` is truthy. */
  predicate TruthyBool(v: Option<bool>)
  {
    v == Some(true)
  }
}
