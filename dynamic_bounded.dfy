/** The dynamic-bound family `Bounded<T>`: the minimum, the maximum and the
    value are all stored in each instance, for any `T: Ord`. The order is a
    parameter `lt`, standing for `<` on `T`; since `T`'s `PartialOrd` agrees
    with its `Ord`, `a > b` is `lt(b, a)`. */
module DynamicBounded {
  import opened Errors

  datatype Bounded<T> = Bounded(minimum: T, maximum: T, value: T)

  /** What `T: Ord` promises of `<`, read without `T`'s `Eq`: a strict weak
      order. `Ord` is total only up to `T`'s own equality, which may be
      coarser than structural equality (a type ordered by one of its fields),
      so totality is stated as negative transitivity: the incomparable pairs
      are exactly those `Eq` identifies. */
  ghost predicate StrictWeakOrder<T(!new)>(lt: (T, T) -> bool) {
    && (forall x :: !lt(x, x))
    && (forall x, y, z :: lt(x, y) && lt(y, z) ==> lt(x, z))
    && (forall x, y, z :: lt(x, z) ==> lt(x, y) || lt(y, z))
  }

  /** `minimum <= value <= maximum` under `lt`, both ends included. */
  predicate Within<T>(lt: (T, T) -> bool, value: T, minimum: T, maximum: T) {
    !lt(value, minimum) && !lt(maximum, value)
  }

  /** The invariant the type is meant to guarantee for every instance. */
  predicate Valid<T>(lt: (T, T) -> bool, x: Bounded<T>) {
    Within(lt, x.value, x.minimum, x.maximum)
  }

  /** `Bounded::new_unchecked`: stores the three arguments as they are,
      without any check. The Rust caller promises `minimum <= value <=
      maximum`, but nothing enforces it, so the model has no precondition. */
  function NewUnchecked<T>(value: T, minimum: T, maximum: T): (r: Bounded<T>)
    ensures r.minimum == minimum && r.maximum == maximum && r.value == value
  {
    Bounded(minimum, maximum, value)
  }

  /** `Bounded::new`: the minimum is tested first, then the maximum; in
      range, the arguments are stored by `new_unchecked`. */
  function New<T>(lt: (T, T) -> bool, value: T, minimum: T, maximum: T): (r: Result<Bounded<T>>)
    ensures r.Ok? <==> Within(lt, value, minimum, maximum)
    ensures r.Ok? ==> Valid(lt, r.value)
    ensures r.Ok? ==> r.value.minimum == minimum && r.value.maximum == maximum && r.value.value == value
    ensures r.Err? && r.error == LessThanMinimum <==> lt(value, minimum)
    ensures r.Err? && r.error == GreaterThanMaximum <==> !lt(value, minimum) && lt(maximum, value)
  {
    if lt(value, minimum) then
      Err(LessThanMinimum)
    else if lt(maximum, value) then
      Err(GreaterThanMaximum)
    else
      Ok(NewUnchecked(value, minimum, maximum))
  }

  /** A successful `new` is exactly `new_unchecked` on the same arguments,
      and it succeeds exactly when `new_unchecked` would give a valid instance. */
  lemma NewIsCheckedUnchecked<T>(lt: (T, T) -> bool, value: T, minimum: T, maximum: T)
    ensures New(lt, value, minimum, maximum).Ok? <==> Valid(lt, NewUnchecked(value, minimum, maximum))
    ensures New(lt, value, minimum, maximum).Ok? ==>
              New(lt, value, minimum, maximum).value == NewUnchecked(value, minimum, maximum)
  {
  }

  /** For any order `T: Ord` can have, both ends of a proper range are accepted. */
  lemma EndsInclusive<T(!new)>(lt: (T, T) -> bool, minimum: T, maximum: T)
    requires StrictWeakOrder(lt) && !lt(maximum, minimum)
    ensures New(lt, minimum, minimum, maximum).Ok?
    ensures New(lt, maximum, minimum, maximum).Ok?
  {
  }

  /** For any order `T: Ord` can have, a range with `minimum > maximum`
      rejects every value: no value is both `>= minimum` and `<= maximum`. */
  lemma EmptyRangeRejectsAll<T(!new)>(lt: (T, T) -> bool, value: T, minimum: T, maximum: T)
    requires StrictWeakOrder(lt) && lt(maximum, minimum)
    ensures New(lt, value, minimum, maximum).Err?
  {
    // maximum < minimum, so by negative transitivity value sits above
    // maximum or below minimum
    assert lt(maximum, value) || lt(value, minimum);
  }

  /** `<` on `int`: the instance used by the concrete scenarios. */
  function IntLt(a: int, b: int): (lt: bool) {
    a < b
  }

  lemma IntLtIsStrictWeakOrder()
    ensures StrictWeakOrder(IntLt)
  {
  }

  /** On `int`, `new` accepts exactly `lo <= v <= hi`; `v < lo` gives
      `LessThanMinimum`, and `lo <= v`, `v > hi` gives `GreaterThanMaximum`. */
  lemma IntNew(value: int, minimum: int, maximum: int)
    ensures New(IntLt, value, minimum, maximum).Ok? <==> minimum <= value <= maximum
    ensures value < minimum ==> New(IntLt, value, minimum, maximum) == Err(LessThanMinimum)
    ensures minimum <= value && maximum < value ==>
              New(IntLt, value, minimum, maximum) == Err(GreaterThanMaximum)
    ensures maximum < minimum ==> New(IntLt, value, minimum, maximum).Err?
  {
  }

  /** The scenario `new(5, 0, 10)`, `new(-1, 0, 10)`, `new(11, 0, 10)`. */
  lemma IntScenario()
    ensures New(IntLt, 5, 0, 10) == Ok(Bounded(0, 10, 5))
    ensures New(IntLt, -1, 0, 10) == Err(LessThanMinimum)
    ensures New(IntLt, 11, 0, 10) == Err(GreaterThanMaximum)
  {
  }
}
