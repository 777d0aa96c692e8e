/** Failure-carrying values shared by the model. The source signals its
    invariant violations by throwing `UnreachableCode`; here that becomes an
    explicit `Fault` carried by `Result` and `Outcome`. */
module Outcomes {

  datatype Option<+T> = None | Some(value: T)

  /** The only error the replay core raises. */
  datatype Fault = UnreachableCode

  datatype Result<+T> = Ok(value: T) | Err(fault: Fault)

  /** The result of an operation that returns nothing but may throw. */
  datatype Outcome = Pass | Fail(fault: Fault)
}
