/** The error half of Go's `(T, error)` results: `Pass` stands for a nil error. */
module Outcomes {

  datatype Outcome<+E> = Pass | Fail(error: E)
}
