/** Failure-compatible result types and the exceptions the overview code raises. */
module Wrappers {

  datatype Option<T> = None | Some(value: T)

  datatype Result<T, E> = Success(value: T) | Failure(error: E)

  /** The two Python exceptions that abort `create_grosswetterlage_overview_map`:
      the bare `Exception` that `reFind` raises when a pattern finds nothing, and
      the `IndexError` of indexing an empty match list or an out-of-range grid cell. */
  datatype Error = NoMatch | IndexError
}
