/** The static-bound family generated by `bounded_impl!`: one struct per
    integer type, whose minimum and maximum are const generic parameters.
    One generic model stands for all ten instantiations: the type itself and
    its `MIN`/`MAX` are a `Bounds` descriptor, and an instance stores only
    its value. */
module StaticBounded {
  import opened Errors
  import opened Widths

  /** The type-level part of `BoundedXX<MIN, MAX>`: the integer type `XX`
      and the two const generic arguments, which are values of that type. */
  datatype Bounds = Bounds(width: IntType, MIN: int, MAX: int) {
    predicate Valid() {
      width.Contains(MIN) && width.Contains(MAX)
    }
  }

  /** An instance of `BoundedXX<MIN, MAX>`: the struct has the single field `value`. */
  datatype Bounded = Bounded(value: int) {
    /** The accessor `get`: nothing but the value is stored, so the value
        determines the instance. */
    function Get(): (v: int)
      ensures Bounded(v) == this
    {
      value
    }
  }

  /** The invariant the type is meant to guarantee: `MIN <= value <= MAX`,
      both ends included. */
  predicate Valid(b: Bounds, x: Bounded) {
    b.MIN <= x.Get() <= b.MAX
  }

  /** `new_unchecked`: wraps the value without any check. The Rust caller
      promises the value is in range, but nothing enforces it, so the model
      has no such precondition; only the argument's type is required. */
  function NewUnchecked(b: Bounds, value: int): (r: Bounded)
    requires b.Valid() && b.width.Contains(value)
    ensures r.Get() == value
    ensures Valid(b, r) <==> b.MIN <= value <= b.MAX
  {
    Bounded(value)
  }

  /** `new`: the checked constructor. The minimum is tested first, then the
      maximum; in range, the value is wrapped by `new_unchecked`. */
  function New(b: Bounds, value: int): (r: Result<Bounded>)
    requires b.Valid() && b.width.Contains(value)
    ensures r.Ok? <==> b.MIN <= value <= b.MAX
    ensures r.Ok? ==> r.value.Get() == value && Valid(b, r.value)
    ensures r.Err? && r.error == LessThanMinimum <==> value < b.MIN
    ensures r.Err? && r.error == GreaterThanMaximum <==> b.MIN <= value && b.MAX < value
  {
    if value < b.MIN then
      Err(LessThanMinimum)
    else if value > b.MAX then
      Err(GreaterThanMaximum)
    else
      Ok(NewUnchecked(b, value))
  }

  /** A successful `new` is exactly `new_unchecked`, and it is successful
      exactly when `new_unchecked` would have produced a valid instance. */
  lemma NewIsCheckedUnchecked(b: Bounds, value: int)
    requires b.Valid() && b.width.Contains(value)
    ensures New(b, value).Ok? <==> Valid(b, NewUnchecked(b, value))
    ensures New(b, value).Ok? ==> New(b, value) == Ok(NewUnchecked(b, value))
  {
  }

  /** Both ends of the range are accepted: `new(MIN)` and `new(MAX)`
      succeed whenever `MIN <= MAX`, and return the value unchanged. */
  lemma EndsInclusive(b: Bounds)
    requires b.Valid() && b.MIN <= b.MAX
    ensures New(b, b.MIN) == Ok(Bounded(b.MIN)) && New(b, b.MIN).value.Get() == b.MIN
    ensures New(b, b.MAX) == Ok(Bounded(b.MAX)) && New(b, b.MAX).value.Get() == b.MAX
  {
  }

  /** A value below the minimum is always reported as `LessThanMinimum`,
      never as `GreaterThanMaximum`, whatever the maximum. */
  lemma BelowMinimum(b: Bounds, value: int)
    requires b.Valid() && b.width.Contains(value) && value < b.MIN
    ensures New(b, value) == Err(LessThanMinimum)
  {
  }

  /** With a proper range, a value above the maximum is always reported as
      `GreaterThanMaximum`, never as `LessThanMinimum`. */
  lemma AboveMaximum(b: Bounds, value: int)
    requires b.Valid() && b.width.Contains(value) && b.MIN <= b.MAX < value
    ensures New(b, value) == Err(GreaterThanMaximum)
  {
  }

  /** A degenerate range `MIN > MAX` rejects every value; the minimum check
      takes precedence, so a value that violates both bounds reports
      `LessThanMinimum`. */
  lemma DegenerateRejectsAll(b: Bounds, value: int)
    requires b.Valid() && b.width.Contains(value) && b.MAX < b.MIN
    ensures New(b, value).Err?
    ensures New(b, value).error == (if value < b.MIN then LessThanMinimum else GreaterThanMaximum)
  {
  }

  /** `new_unchecked(v).get() == v` for every `v` of the type, in range or
      not: no validation and no clamping. */
  lemma UncheckedGet(b: Bounds, value: int)
    requires b.Valid() && b.width.Contains(value)
    ensures NewUnchecked(b, value).Get() == value
    ensures !(b.MIN <= value <= b.MAX) ==> !Valid(b, NewUnchecked(b, value))
  {
  }

  /** The values of the type that `new` accepts. */
  ghost function Accepted(b: Bounds): (s: set<int>)
    requires b.Valid()
  {
    set v: int | b.width.Min() <= v <= b.width.Max() && New(b, v).Ok?
  }

  /** `new` accepts exactly the closed interval `MIN..=MAX`, so
      `MAX - MIN + 1` values (none if `MIN > MAX`), one more than the
      half-open `MIN..MAX` of the safety comment. */
  lemma AcceptedIsClosedInterval(b: Bounds)
    requires b.Valid()
    ensures Accepted(b) == Interval(b.MIN, b.MAX)
    ensures |Accepted(b)| == if b.MIN <= b.MAX then b.MAX - b.MIN + 1 else 0
  {
    forall v: int
      ensures v in Accepted(b) <==> v in Interval(b.MIN, b.MAX)
    {
      InInterval(b.MIN, b.MAX, v);
    }
    IntervalSize(b.MIN, b.MAX);
  }

  /** The integers from `lo` to `hi`, both included. */
  ghost function Interval(lo: int, hi: int): (s: set<int>)
    decreases hi - lo
  {
    if lo > hi then {} else Interval(lo, hi - 1) + {hi}
  }

  lemma {:induction false} InInterval(lo: int, hi: int, v: int)
    ensures v in Interval(lo, hi) <==> lo <= v <= hi
    decreases hi - lo
  {
    if lo <= hi {
      InInterval(lo, hi - 1, v);
    }
  }

  lemma {:induction false} IntervalSize(lo: int, hi: int)
    ensures |Interval(lo, hi)| == if lo <= hi then hi - lo + 1 else 0
    decreases hi - lo
  {
    if lo <= hi {
      IntervalSize(lo, hi - 1);
      InInterval(lo, hi - 1, hi);
    }
  }

  /** The `BoundedU8<10, 20>` scenario. */
  lemma U8TenToTwenty()
    ensures Bounds(U8, 10, 20).Valid()
    ensures New(Bounds(U8, 10, 20), 5) == Err(LessThanMinimum)
    ensures New(Bounds(U8, 10, 20), 25) == Err(GreaterThanMaximum)
    ensures New(Bounds(U8, 10, 20), 10).Ok? && New(Bounds(U8, 10, 20), 10).value.Get() == 10
    ensures New(Bounds(U8, 10, 20), 20).Ok? && New(Bounds(U8, 10, 20), 20).value.Get() == 20
    ensures New(Bounds(U8, 10, 20), 15).Ok? && New(Bounds(U8, 10, 20), 15).value.Get() == 15
  {
  }
}
