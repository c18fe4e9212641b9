/** What several modules share. */
module Prelude {
  /** A value that may be absent: the model's reading of a nullable column or a None result. */
  datatype Option<+T> = None | Some(value: T)

  lemma ProductPositive(a: real, b: real)
    requires a > 0.0 && b > 0.0
    ensures a * b > 0.0
  {
  }
}
