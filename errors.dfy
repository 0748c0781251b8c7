/** The failure kinds shared by every copula operation, and the result type
    every fallible operation returns (src/error.rs). The human-readable
    message strings the source attaches to most kinds are not modelled. */
module CopulaErrors {

  datatype CopulaError =
    | InvalidParameter
    | DimensionMismatch(expected: nat, actual: nat)
    | InvalidData
    | EstimationFailed
    | MathError
    | NotImplemented

  /** Either a value or exactly one error kind; there is no partial success. */
  datatype Result<T> = Ok(value: T) | Err(error: CopulaError)
}
