/** Values shared by every component: options, machine words and IEEE values. */
module Prelude {
  datatype Option<+T> = None | Some(value: T)

  const U64_MAX: nat := 0xFFFF_FFFF_FFFF_FFFF
  const U32_MAX: nat := 0xFFFF_FFFF

  type u64 = x: int | 0 <= x <= U64_MAX
  type u32 = x: int | 0 <= x <= U32_MAX

  function Min(a: int, b: int): int {
    if a <= b then a else b
  }

  function Max(a: int, b: int): int {
    if a >= b then a else b
  }

  function SaturatingAdd(a: u64, b: u64): u64 {
    if a + b <= U64_MAX then a + b else U64_MAX
  }

  /** A plain u64 addition, which wraps. */
  function WrapAdd(a: u64, b: u64): u64 {
    if a + b <= U64_MAX then a + b else a + b - U64_MAX - 1
  }

  function Bump(n: u64): u64 {
    WrapAdd(n, 1)
  }

  /** A floating-point value: finite values are exact reals, rounding is not modelled. */
  datatype Float = Finite(r: real) | NaN | PosInf | NegInf {
    predicate IsFinite() {
      Finite?
    }

    /** `self > bound` as IEEE compares it: false for NaN. */
    predicate GreaterThan(bound: real) {
      PosInf? || (Finite? && r > bound)
    }
  }

  const ZERO := Finite(0.0)
}
