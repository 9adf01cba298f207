/**
 * Hypothesis scores. The source keeps log-probabilities as floats in which
 * `-inf` marks the beams that are dead at the first step; here a score is an
 * integer or `NegInf`, and `NegInf` absorbs addition as `-inf` does.
 */
module Scores {

  datatype ExtInt = NegInf | Fin(v: int)

  /** `a <= b` in the extended order: `NegInf` is below every integer. */
  predicate Le(a: ExtInt, b: ExtInt) {
    a.NegInf? || (b.Fin? && a.v <= b.v)
  }

  predicate Lt(a: ExtInt, b: ExtInt) {
    !Le(b, a)
  }

  /** Float addition restricted to finite values and `-inf`. */
  function Add(a: ExtInt, b: ExtInt): ExtInt {
    if a.NegInf? || b.NegInf? then NegInf else Fin(a.v + b.v)
  }
}
