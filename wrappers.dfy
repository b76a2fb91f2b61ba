/** Failure-compatible wrappers used across the model. */
module Wrappers {

  /** `None` stands for Python's `None` returned by a stage that bails out. */
  datatype Option<+T> = None | Some(value: T)

  /** The Python exceptions the modelled code can let escape from a stage. */
  datatype PythonError =
    | UnboundLocalError(variable: string)
    | AssertionError

  /** What a Python call ends with: a returned value, or a raised exception. */
  datatype Outcome<+T> = Returned(value: T) | Raised(error: PythonError)
}
