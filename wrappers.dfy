/** The one failure-compatible wrapper the model needs: an optional value. */
module Wrappers {

  /** `None` stands for JavaScript's "nothing here": a missing storage entry,
      a `NaN` from parsing, a row that renders as `null`. */
  datatype Option<+T> = None | Some(value: T)
}
