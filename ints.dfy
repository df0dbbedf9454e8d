/** Fixed-width integers of the Rust code and the conversions it applies to them
    (`as` truncation, `try_into`, signed division, float-to-int casts). */
module Ints {

  const TWO_8: int := 0x100
  const TWO_16: int := 0x1_0000
  const TWO_32: int := 0x1_0000_0000
  const TWO_64: int := 0x1_0000_0000_0000_0000

  type u8 = x: int | 0 <= x < 0x100
  type u16 = x: int | 0 <= x < 0x1_0000
  type u32 = x: int | 0 <= x < 0x1_0000_0000
  type u64 = x: int | 0 <= x < 0x1_0000_0000_0000_0000
  type i16 = x: int | -0x8000 <= x < 0x8000
  type i32 = x: int | -0x8000_0000 <= x < 0x8000_0000
  type i64 = x: int | -0x8000_0000_0000_0000 <= x < 0x8000_0000_0000_0000

  predicate IsU16(x: int) { 0 <= x < TWO_16 }
  predicate IsU32(x: int) { 0 <= x < TWO_32 }
  predicate IsI16(x: int) { -0x8000 <= x < 0x8000 }
  predicate IsI32(x: int) { -0x8000_0000 <= x < 0x8000_0000 }

  /** `x as u8`: keep the low 8 bits. */
  function AsU8(x: int): (r: u8)
    ensures (x - r) % TWO_8 == 0
    ensures 0 <= x < TWO_8 ==> r == x
  {
    x % TWO_8
  }

  /** `x as u16`: keep the low 16 bits. */
  function AsU16(x: int): (r: u16)
    ensures (x - r) % TWO_16 == 0
    ensures 0 <= x < TWO_16 ==> r == x
  {
    x % TWO_16
  }

  /** `x as u32`: keep the low 32 bits (sign-extends a negative narrower value). */
  function AsU32(x: int): (r: u32)
    ensures (x - r) % TWO_32 == 0
    ensures 0 <= x < TWO_32 ==> r == x
    ensures -0x8000 <= x < 0 ==> r == TWO_32 + x
  {
    x % TWO_32
  }

  /** `x as i16`: reinterpret the low 16 bits as two's complement. */
  function AsI16(x: int): (r: i16)
    ensures (x - r) % TWO_16 == 0
    ensures IsI16(x) ==> r == x
  {
    var m := x % TWO_16;
    if m >= 0x8000 then m - TWO_16 else m
  }

  /** `x as i32`: reinterpret the low 32 bits as two's complement. */
  function AsI32(x: int): (r: i32)
    ensures (x - r) % TWO_32 == 0
    ensures IsI32(x) ==> r == x
  {
    var m := x % TWO_32;
    if m >= 0x8000_0000 then m - TWO_32 else m
  }

  /** Rust's `/` on signed integers truncates toward zero (Dafny's `/` is Euclidean):
      the quotient of a negative dividend is the negated quotient of its magnitude. */
  function Quot(a: int, b: int): (q: int)
    requires b > 0
    ensures a >= 0 ==> q == a / b
    ensures a < 0 ==> q == -((-a) / b)
  {
    if a >= 0 then a / b else -((-a) / b)
  }

  /** Rust's `/` on signed integers with a divisor of either sign: the quotient truncated toward
      zero. */
  function Div(a: int, b: int): (q: int)
    requires b != 0
    ensures b > 0 ==> q == Quot(a, b)
    ensures a >= 0 && b > 0 ==> q == a / b
  {
    if b > 0 then Quot(a, b) else -Quot(a, -b)
  }

  function Abs(x: int): (r: nat)
    ensures r == x || r == -x
  {
    if x < 0 then -x else x
  }

  /** The integer part of a real, rounding toward zero (the core of a Rust float-to-int `as`). */
  function TruncReal(r: real): (n: int)
    ensures r >= 0.0 ==> n as real <= r < n as real + 1.0
    ensures r < 0.0 ==> n as real - 1.0 < r <= n as real
  {
    if r >= 0.0 then r.Floor else -((-r).Floor)
  }

  /** Rust's `f as i32`: truncate toward zero, saturate at the bounds. */
  function RealAsI32(r: real): (n: i32)
    ensures IsI32(TruncReal(r)) ==> n == TruncReal(r)
  {
    Clamp(TruncReal(r), -0x8000_0000, 0x7FFF_FFFF)
  }

  /** Rust's `f as i64`: truncate toward zero, saturate at the bounds. */
  function RealAsI64(r: real): (n: i64)
    ensures -0x8000_0000_0000_0000 <= TruncReal(r) < 0x8000_0000_0000_0000 ==> n == TruncReal(r)
  {
    Clamp(TruncReal(r), -0x8000_0000_0000_0000, 0x7FFF_FFFF_FFFF_FFFF)
  }

  function Clamp(x: int, lo: int, hi: int): (r: int)
    requires lo <= hi
    ensures lo <= r <= hi
    ensures lo <= x <= hi ==> r == x
  {
    if x < lo then lo else if x > hi then hi else x
  }
}
