/** Facts about products that the solver needs one at a time. */
module Arithmetic {
  lemma MulMonotone(a: int, b: int, d: int)
    requires a <= b && d >= 0
    ensures a * d <= b * d
  {
  }
}
