/** The error a missing required option raises. */
module RequiredParam {
  import opened HttpErrors

  /** `requiredParam(name)` throws an `Error` whose message is `<name> is required`. */
  function RequiredParamError(name: string): Exn
  {
    Err(PlainError, name + " is required")
  }
}
