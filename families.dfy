/** The two families share one validation rule: on integers, the static
    `new` and the dynamic `Bounded::new` with the same bounds give the same
    outcome and keep the same value. */
module Families {
  import opened Errors
  import StaticBounded
  import DynamicBounded

  lemma StaticAgreesWithDynamic(b: StaticBounded.Bounds, value: int)
    requires b.Valid() && b.width.Contains(value)
    ensures var s, d := StaticBounded.New(b, value), DynamicBounded.New(DynamicBounded.IntLt, value, b.MIN, b.MAX);
      && (s.Ok? <==> d.Ok?)
      && (s.Ok? ==> s.value.Get() == d.value.value && d.value.minimum == b.MIN && d.value.maximum == b.MAX)
      && (s.Err? ==> s.error == d.error)
  {
  }
}
