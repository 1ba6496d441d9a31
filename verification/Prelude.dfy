/** Shared vocabulary: optional values and the outcome of one remote call. */
module Prelude {
  datatype Option<+T> = None | Some(value: T)

  /** What one call to an API server did. `Lost` took effect although the caller got an error. */
  datatype Outcome = Done | Failed | Lost {
    predicate TookEffect() {
      this != Failed
    }
  }
}
