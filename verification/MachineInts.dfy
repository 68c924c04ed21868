/** Fixed-width integers as the C code uses them, and the few facts about
    division by a variable that the other modules build on. */
module MachineInts {
  const TWO_8: int := 0x100
  const TWO_16: int := 0x1_0000
  const TWO_31: int := 0x8000_0000
  const TWO_32: int := 0x1_0000_0000

  type u8 = x: int | 0 <= x < TWO_8
  type u16 = x: int | 0 <= x < TWO_16
  type u32 = x: int | 0 <= x < TWO_32
  type i32 = x: int | -TWO_31 <= x < TWO_31

  datatype Option<+T> = None | Some(value: T)

  /** The conversion `(u32)x`. */
  function ToU32(x: int): u32 { x % TWO_32 }

  /** The conversion `(int)x`, as every compiler the kernel supports does it. */
  function ToI32(x: int): i32
  {
    var u := x % TWO_32;
    if u < TWO_31 then u else u - TWO_32
  }

  /** The conversion `(u8)x`. */
  function ToU8(x: int): u8 { x % TWO_8 }

  function Abs(x: int): nat { if x < 0 then -x else x }

  function Max(x: int, y: int): int { if x < y then y else x }

  function Min(x: int, y: int): int { if x < y then x else y }

  /** `clamp(x, lo, hi)`; the kernel's macro tests the upper bound first. */
  function Clamp(x: int, lo: int, hi: int): int
  {
    if x >= hi then hi else if x <= lo then lo else x
  }

  lemma MulMonotone(a: int, b: int, d: int)
    requires a <= b && d >= 0
    ensures a * d <= b * d
  {
    assert (b - a) * d >= 0;
  }

  lemma MulSuccessor(a: int, d: int)
    ensures (a + 1) * d == a * d + d
  {
  }

  /** Floor division by a positive divisor is the upper adjoint of multiplication. */
  lemma DivAdjoint(x: int, d: int, q: int)
    requires d > 0
    ensures q <= x / d <==> q * d <= x
  {
    var e := x / d;
    assert x == e * d + x % d;
    if q <= e {
      MulMonotone(q, e, d);
    } else {
      MulSuccessor(e, d);
      MulMonotone(e + 1, q, d);
    }
  }

  /** The quotient is the only integer whose multiple lies within one divisor below x. */
  lemma DivUnique(x: int, d: int, q: int)
    requires d > 0 && q * d <= x < q * d + d
    ensures x / d == q
  {
    DivAdjoint(x, d, q);
    MulSuccessor(q, d);
    DivAdjoint(x, d, q + 1);
  }
}
