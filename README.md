# bounded-ints, modelled in Dafny

The library wraps an integer together with an inclusive range and
guarantees, at construction, that the value lies in that range. It comes in
two families that share one error type, `BoundedError`:

- the **static family** generated by the `bounded_impl!` macro: one struct
  per integer type (`BoundedU8` … `BoundedU128`, `BoundedI8` …
  `BoundedI128`), whose `MIN` and `MAX` are const generic parameters, with a
  checked constructor `new`, an unchecked constructor `new_unchecked` and an
  accessor `get`;
- the **dynamic family** `Bounded<T>`, which stores `minimum`, `maximum` and
  `value` in each instance, for any `T: Ord`, with `new` and `new_unchecked`.

Both checked constructors test the minimum first (`LessThanMinimum`), then
the maximum (`GreaterThanMaximum`), and otherwise wrap the value through the
unchecked constructor.

Files and modules:

- `errors.dfy`, module `Errors`: `BoundedError`, its derived order
  (declaration order), and the `Result` returned by the checked constructors.
- `widths.dfy`, module `Widths`: the ten integer types as ranges of `int`.
- `static_bounded.dfy`, module `StaticBounded`: one generic model of the
  macro's output. A `Bounds` value stands for the type `BoundedXX<MIN, MAX>`
  (the integer type and the two const arguments); an instance stores only
  `value`, as the struct does. Arguments are required to be values of the
  integer type, which is what Rust's type system demands of callers.
- `dynamic_bounded.dfy`, module `DynamicBounded`: `Bounded<T>` with the
  order passed as a function `lt` standing for `<` on `T`.
- `families.dfy`, module `Families`: the two checked constructors agree on
  integers.

Where the source's comments and its code disagree, the model follows the
code:

- the doc comments of both `new` functions (src/lib.rs:24 and
  src/lib.rs:78) say a value above the maximum yields `LessThanMinimum`;
  the code returns `GreaterThanMaximum`, and so does the model;
- the safety comments of both `new_unchecked` functions (src/lib.rs:38 and
  src/lib.rs:92) and the struct doc comments (src/lib.rs:13, src/lib.rs:63)
  write the half-open range `MIN..MAX`; the check accepts both ends, and
  `StaticBounded.AcceptedIsClosedInterval` shows it accepts exactly
  `MAX - MIN + 1` values;
- the doc comment of `GreaterThanMaximum` (src/lib.rs:6) says "greater than
  the minimum"; the variant is returned only when the value exceeds the
  maximum.

`new_unchecked` has no in-range precondition in the model: Rust marks it
`unsafe` and leaves the obligation to the caller without checking it. The
lemmas `StaticBounded.UncheckedGet` and `DynamicBounded.NewIsCheckedUnchecked`
say what happens when the caller keeps or breaks that obligation.

## Model

| member | source | states |
|---|---|---|
| `Errors.Compare` | src/lib.rs:1-8 | the derived `Ord` on `BoundedError`: equal iff the same variant, otherwise ordered by declaration position |
| `Errors.CompareFlips` | src/lib.rs:1 | swapping the operands of the derived comparison turns `Less` into `Greater` and keeps `Equal` |
| `Errors.LessThanMinimumIsLeast` | src/lib.rs:2-8 | `LessThanMinimum` is the least error, `GreaterThanMaximum` the greatest, and the first is strictly below the second |
| `Errors.CompareTransitive` | src/lib.rs:1 | the derived order is transitive |
| `Widths.RangeShape` | src/lib.rs:52-61 | a sanity check on the width table: each of the ten instantiated integer types holds 0, and each signed type spans as many values as the unsigned type of its width |
| `StaticBounded.New` | src/lib.rs:25-33 | `new` is `Ok` iff `MIN <= value <= MAX`; the `Ok` instance holds `value` unchanged and satisfies the range invariant; `LessThanMinimum` iff `value < MIN`; `GreaterThanMaximum` iff `MIN <= value` and `value > MAX` |
| `StaticBounded.NewUnchecked` | src/lib.rs:40-42 | `new_unchecked` stores `value` unchanged, and the instance satisfies the range invariant exactly when `value` is in range |
| `StaticBounded.NewIsCheckedUnchecked` | src/lib.rs:30-31 | a successful `new` is exactly `new_unchecked(value)`, and `new` succeeds exactly when `new_unchecked` would give a valid instance |
| `StaticBounded.EndsInclusive` | src/lib.rs:26-31 | with `MIN <= MAX`, `new(MIN)` and `new(MAX)` succeed and `get` returns `MIN` and `MAX` |
| `StaticBounded.BelowMinimum` | src/lib.rs:26-27 | every value below `MIN` gives `Err(LessThanMinimum)`, whatever `MAX` is |
| `StaticBounded.AboveMaximum` | src/lib.rs:28-29 | with `MIN <= MAX`, every value above `MAX` gives `Err(GreaterThanMaximum)` |
| `StaticBounded.DegenerateRejectsAll` | src/lib.rs:26-29 | with `MIN > MAX`, every value is rejected, and a value below `MIN` reports `LessThanMinimum`, including a value that is also above `MAX` |
| `StaticBounded.Bounded.Get` | src/lib.rs:44-47 | `get` returns the stored value unchanged, and the value alone determines the instance; with `NewUnchecked`'s `r.Get() == value` it completes the round trip from construction |
| `StaticBounded.UncheckedGet` | src/lib.rs:40-47 | `new_unchecked(v).get() == v` for every value of the type, and an out-of-range `v` yields an instance that breaks the range invariant |
| `StaticBounded.AcceptedIsClosedInterval` | src/lib.rs:26-31 | the set of values `new` accepts is exactly the closed interval from `MIN` to `MAX`, of size `MAX - MIN + 1` (empty if `MIN > MAX`) |
| `StaticBounded.U8TenToTwenty` | src/lib.rs:25-33 | for `BoundedU8<10, 20>`: `new(5)` is `LessThanMinimum`, `new(25)` is `GreaterThanMaximum`, and `new(10)`, `new(20)`, `new(15)` succeed with `get` returning 10, 20, 15 |
| `DynamicBounded.New` | src/lib.rs:79-87 | `Bounded::new` is `Ok` iff `minimum <= value <= maximum`; the `Ok` instance stores the three arguments as passed and is valid; `LessThanMinimum` iff `value < minimum`; `GreaterThanMaximum` iff `value >= minimum` and `value > maximum` |
| `DynamicBounded.NewUnchecked` | src/lib.rs:94-100 | `Bounded::new_unchecked` stores `minimum`, `maximum` and `value` exactly as passed |
| `DynamicBounded.NewIsCheckedUnchecked` | src/lib.rs:84-85 | a successful `Bounded::new` equals `new_unchecked` on the same arguments, and succeeds exactly when that instance is valid |
| `DynamicBounded.EndsInclusive` | src/lib.rs:80-85 | for any order `T: Ord` can have (a strict weak order), `new(minimum, minimum, maximum)` and `new(maximum, minimum, maximum)` succeed when `minimum <= maximum` |
| `DynamicBounded.EmptyRangeRejectsAll` | src/lib.rs:80-83 | for any order `T: Ord` can have (a strict weak order), `minimum > maximum` makes `Bounded::new` fail for every value |
| `DynamicBounded.IntNew` | src/lib.rs:79-87 | on `int`: `Ok` iff `lo <= v <= hi`, `v < lo` gives `LessThanMinimum`, `lo <= v` and `v > hi` give `GreaterThanMaximum`, and `lo > hi` rejects every value |
| `DynamicBounded.IntScenario` | src/lib.rs:79-87 | `new(5, 0, 10)` is `Ok` with value 5 and bounds 0 and 10; `new(-1, 0, 10)` is `LessThanMinimum`; `new(11, 0, 10)` is `GreaterThanMaximum` |
| `Families.StaticAgreesWithDynamic` | src/lib.rs:25-33 | the static `new` and `Bounded::new` on `int` with the same bounds give the same outcome, the same error and the same value |

## Left out

- The macro expansion itself (src/lib.rs:11-12, src/lib.rs:52-61): one
  generic model, parameterised by the integer type, stands for all ten
  instantiations; there is no overflow or width-specific behaviour to model,
  since every comparison is between values of the same type.
- `unsafe` and `const fn`: `new_unchecked` is an ordinary function, and the
  in-range obligation on its caller is not a precondition, because Rust does
  not enforce it.
- The derived `Debug`, `Clone`, `Copy`, `PartialEq` and `Eq` impls, and the
  derived `PartialOrd`/`Ord` on the wrapper structs (src/lib.rs:14,
  src/lib.rs:64), which play no part in validation.
- The `#[must_use]` and `#[allow(dead_code)]` attributes.
- An instance of the static family stores only its value and does not
  record which `BoundedXX<MIN, MAX>` it belongs to: the model relies on
  callers passing the same `Bounds` to the constructors and to `Valid`,
  where Rust's type system ties the two together.
- `Bounded<T>` has no accessor in the source; the model reads its fields
  directly, and claims no `get` for it.
- The bound `T: PartialOrd + Ord` is modelled by one function
  `lt` standing for `<`, with `a > b` taken as `lt(b, a)`; this assumes
  `T`'s `PartialOrd` agrees with its `Ord`, as Rust requires of
  implementations but does not check.
