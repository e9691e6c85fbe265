/** The ten primitive integer types for which the static-bound family is
    instantiated (u8 … u128, i8 … i128), each given as its range of
    mathematical integers. */
module Widths {

  datatype IntType = U8 | U16 | U32 | U64 | U128 | I8 | I16 | I32 | I64 | I128 {

    predicate Signed() {
      I8? || I16? || I32? || I64? || I128?
    }

    /** Largest value of the type. */
    function Max(): (m: int) {
      match this
      case U8 => 0xFF
      case U16 => 0xFFFF
      case U32 => 0xFFFF_FFFF
      case U64 => 0xFFFF_FFFF_FFFF_FFFF
      case U128 => 0xFFFF_FFFF_FFFF_FFFF_FFFF_FFFF_FFFF_FFFF
      case I8 => 0x7F
      case I16 => 0x7FFF
      case I32 => 0x7FFF_FFFF
      case I64 => 0x7FFF_FFFF_FFFF_FFFF
      case I128 => 0x7FFF_FFFF_FFFF_FFFF_FFFF_FFFF_FFFF_FFFF
    }

    /** Smallest value of the type: zero when unsigned, two's complement otherwise. */
    function Min(): (m: int) {
      if Signed() then -(Max() + 1) else 0
    }

    /** `x` is a value of this type. */
    predicate Contains(x: int) {
      Min() <= x <= Max()
    }
  }

  /** A sanity check on the table above: every type holds 0, and each signed
      type spans as many values as the unsigned type of its width. */
  lemma RangeShape(t: IntType)
    ensures t.Contains(0)
    ensures U8.Max() - U8.Min() == I8.Max() - I8.Min()
    ensures U16.Max() - U16.Min() == I16.Max() - I16.Min()
    ensures U32.Max() - U32.Min() == I32.Max() - I32.Min()
    ensures U64.Max() - U64.Min() == I64.Max() - I64.Min()
    ensures U128.Max() - U128.Min() == I128.Max() - I128.Min()
  {
  }
}
