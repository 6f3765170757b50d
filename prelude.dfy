/**
 * Rust conventions shared by every module: `Option`, and the fixed-width integer
 * conventions of the sources, written out explicitly.
 * Dafny integers are unbounded; where a Rust value is an `i32`, `u8`, `u16`, `u32`
 * or `usize`, the model either uses one of the bounded types below or states the
 * cast (`as i32`, `i32 as usize`) with the function that performs it.
 */
module Prelude {

  /** Rust's `Option<T>`; also a nullable pointer (None is null). */
  datatype Option<T> = None | Some(value: T)

  const TWO_8: int := 0x100
  const TWO_16: int := 0x1_0000
  const TWO_31: int := 0x8000_0000
  const TWO_32: int := 0x1_0000_0000
  const TWO_64: int := 0x1_0000_0000_0000_0000

  /** `usize::MAX` on a 64-bit target. */
  const USIZE_MAX: nat := TWO_64 - 1

  newtype u8 = x: int | 0 <= x < 0x100
  newtype u16 = x: int | 0 <= x < 0x1_0000
  newtype u32 = x: int | 0 <= x < 0x1_0000_0000
  newtype i32 = x: int | -0x8000_0000 <= x < 0x8000_0000
  /** `usize` on a 64-bit target. */
  newtype usize = x: int | 0 <= x < 0x1_0000_0000_0000_0000

  predicate IsI32(x: int) { -TWO_31 <= x < TWO_31 }

  /**
   * Rust's `x as i32` (and wrapping i32 arithmetic): keep the low 32 bits of x and
   * read them as a two's-complement number.
   */
  function WrapI32(x: int): (r: int)
    ensures IsI32(r)
    ensures (x - r) % TWO_32 == 0
    ensures IsI32(x) ==> r == x
  {
    var m := x % TWO_32;
    if m < TWO_31 then m else m - TWO_32
  }

  /** Two values congruent modulo 2^32 wrap to the same `i32`. */
  lemma WrapI32Congruent(a: int, b: int)
    requires (a - b) % TWO_32 == 0
    ensures WrapI32(a) == WrapI32(b)
  {
    var k := (a - b) / TWO_32;
    assert a == b + k * TWO_32;
    assert a % TWO_32 == b % TWO_32;
  }

  /** Wrapping an intermediate product does not change the wrapped result. */
  lemma WrapI32MulLeft(x: int, y: int)
    ensures WrapI32(WrapI32(x) * y) == WrapI32(x * y)
  {
    var k := (x - WrapI32(x)) / TWO_32;
    assert x == WrapI32(x) + k * TWO_32;
    assert x * y == WrapI32(x) * y + (k * y) * TWO_32;
    assert (x * y - WrapI32(x) * y) % TWO_32 == 0;
    WrapI32Congruent(WrapI32(x) * y, x * y);
  }

  /** Rust's `x as usize` for an `i32` x on a 64-bit target: sign extension. */
  function UsizeOfI32(x: int): (r: nat)
    requires IsI32(x)
    ensures r <= USIZE_MAX
    ensures x >= 0 ==> r == x
    ensures x < 0 ==> r >= TWO_64 - TWO_31
  {
    if x >= 0 then x else TWO_64 + x
  }

  function Min(a: nat, b: nat): (m: nat)
    ensures m <= a && m <= b && (m == a || m == b)
  {
    if a <= b then a else b
  }
}
