/** Values shared by every part of the model: optional values standing for Python's
    None/False, the exceptions the integration can end with, and abstract HTTP replies. */
module Common {

  /** None stands for Python's None or False (a NULL column in the database). */
  datatype Option<+T> = None | Some(value: T)

  /** Python truthiness of an optional string: None, False and "" are false. */
  predicate Truthy(s: Option<string>)
  {
    s.Some? && s.value != ""
  }

  /** The value of `x if x else False`. */
  function OrFalse(s: Option<string>): Option<string>
  {
    if Truthy(s) then s else None
  }

  /** The value of `x if x else ''`. */
  function OrEmpty(s: Option<string>): string
  {
    if Truthy(s) then s.value else ""
  }

  /** The exceptions an operation can end with. */
  datatype Error =
    | AccessError                   // the integration's fixed "service unreachable" message
    | UserError(message: string)    // the remote service's error message, echoed
    | ValidationError(message: string)
    | ExpectedSingleton             // ValueError: a field read on a recordset holding several records
    | UnboundLocal(name: string)    // UnboundLocalError: a local variable read before any assignment
    | AttributeError(name: string)  // e.g. `.get` on None, `.split` on False
    | TypeError(reason: string)     // e.g. iterating over None, raising a plain string
    | NotNullViolation(column: string) // the database refuses NULL in a required column
    | CheckViolation(constraint: string) // the database refuses a row that breaks a CHECK constraint

  datatype Result<+T> = Ok(value: T) | Raise(error: Error)

  /** An HTTP exchange as the integration sees it: the request never got an answer
      (connection refused, timeout, malformed URL), or a status code with a body that
      is either valid JSON of shape B (Some) or not JSON at all (None). */
  datatype Reply<+B> = Unreachable | Replied(status: int, body: Option<B>)
}
