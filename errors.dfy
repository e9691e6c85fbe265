/** The error vocabulary shared by both bounded families, and the `Result`
    returned by their checked constructors. */
module Errors {

  /** Why a checked constructor refused a value. */
  datatype BoundedError = LessThanMinimum | GreaterThanMaximum

  /** The outcome of a checked constructor. */
  datatype Result<T> = Ok(value: T) | Err(error: BoundedError)

  /** The three outcomes of a total-order comparison. */
  datatype Ordering = Less | Equal | Greater

  /** Position of a variant in the enum declaration: the key of the derived order. */
  function Index(e: BoundedError): (i: nat) {
    match e
    case LessThanMinimum => 0
    case GreaterThanMaximum => 1
  }

  /** The derived `Ord::cmp` on `BoundedError`: variants compare by declaration order. */
  function Compare(a: BoundedError, b: BoundedError): (o: Ordering)
    ensures o == Equal <==> a == b
    ensures o == Less <==> Index(a) < Index(b)
    ensures o == Greater <==> Index(b) < Index(a)
  {
    if a == b then Equal
    else if a == LessThanMinimum then Less
    else Greater
  }

  /** The comparison is antisymmetric: swapping the operands flips the outcome. */
  lemma CompareFlips(a: BoundedError, b: BoundedError)
    ensures Compare(a, b) == Less <==> Compare(b, a) == Greater
    ensures Compare(a, b) == Equal <==> Compare(b, a) == Equal
  {
  }

  /** `LessThanMinimum` is the least error and `GreaterThanMaximum` the greatest. */
  lemma LessThanMinimumIsLeast(e: BoundedError)
    ensures Compare(LessThanMinimum, e) != Greater
    ensures Compare(e, GreaterThanMaximum) != Greater
    ensures Compare(LessThanMinimum, GreaterThanMaximum) == Less
  {
  }

  /** The derived order is transitive (as a non-strict order). */
  lemma CompareTransitive(a: BoundedError, b: BoundedError, c: BoundedError)
    requires Compare(a, b) != Greater && Compare(b, c) != Greater
    ensures Compare(a, c) != Greater
  {
  }
}
