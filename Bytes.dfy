/**
 * Unsigned machine integers and the Rust integer operations the interpreter
 * applies to them (`wrapping_add`, `overflowing_add`, `wrapping_sub`,
 * `saturating_sub`, the bitwise operators and the one-bit shifts of `u8`).
 * Dafny integers are unbounded, so every wrap-around is written out here once.
 */
module Bytes {

  /** Rust's `u8`. */
  newtype u8 = x: int | 0 <= x < 256

  /** The largest `usize` value plus one: the interpreter is taken to run on a 64-bit host. */
  const UsizeModulus: int := 0x1_0000_0000_0000_0000

  /** `a.wrapping_add(b)` on `u8`. */
  function WrappingAdd(a: u8, b: u8): (r: u8)
    ensures a as int + b as int < 256 ==> r as int == a as int + b as int
    ensures a as int + b as int >= 256 ==> r as int == a as int + b as int - 256
  {
    ((a as int + b as int) % 256) as u8
  }

  /** `a.overflowing_add(b)` on `u8`: the wrapped sum and whether the true sum left the byte. */
  function OverflowingAdd(a: u8, b: u8): (r: (u8, bool))
    ensures r.0 == WrappingAdd(a, b)
    ensures r.1 <==> a as int + b as int > 255
    ensures r.0 as int + (if r.1 then 256 else 0) == a as int + b as int
  {
    (WrappingAdd(a, b), a as int + b as int >= 256)
  }

  /** `a.wrapping_sub(b)` on `u8`. */
  function WrappingSub(a: u8, b: u8): (r: u8)
    ensures a >= b ==> r as int == a as int - b as int
    ensures a < b ==> r as int == a as int - b as int + 256
  {
    ((a as int - b as int) % 256) as u8
  }

  /** `t.saturating_sub(d)` on `u8`. */
  function SaturatingSub(t: u8, d: u8): (r: u8)
    ensures r <= t
    ensures t >= d ==> r as int == t as int - d as int
    ensures t < d ==> r == 0
  {
    if t > d then t - d else 0
  }

  /** `a | b`, `a & b`, `a ^ b` on `u8`. */
  function BitOr(a: u8, b: u8): u8 { ((a as bv8) | (b as bv8)) as u8 }

  function BitAnd(a: u8, b: u8): u8 { ((a as bv8) & (b as bv8)) as u8 }

  function BitXor(a: u8, b: u8): u8 { ((a as bv8) ^ (b as bv8)) as u8 }

  /** On flag values (0 or 1), `|` is logical or. */
  lemma FlagOr(a: u8, b: u8)
    requires a <= 1 && b <= 1
    ensures BitOr(a, b) == if a == 1 || b == 1 then 1 else 0
  {
    if a == 0 && b == 0 {
      assert BitOr(0, 0) == 0;
    } else if a == 0 {
      assert BitOr(0, 1) == 1;
    } else if b == 0 {
      assert BitOr(1, 0) == 1;
    } else {
      assert BitOr(1, 1) == 1;
    }
  }

  // The one-bit shifts and the bits they discard, in integer arithmetic: on a
  // `u8`, `a >> 1` is halving, `a & 1` the remainder by two, `(a >> 7) & 1`
  // the quotient by 128 and `a << 1` doubling with bit 7 dropped.

  /** `a & 1`: the bit that `a >> 1` discards. */
  function LowBit(a: u8): (r: u8)
    ensures r <= 1
  {
    a % 2
  }

  /** `(a >> 7) & 1`: the bit that `a << 1` discards. */
  function HighBit(a: u8): (r: u8)
    ensures r <= 1
    ensures r == 1 <==> a >= 128
  {
    a / 128
  }

  /** `a >> 1` on `u8`. */
  function ShiftRight1(a: u8): (r: u8)
    ensures r < 128
    ensures a as int == 2 * r as int + LowBit(a) as int
  {
    a / 2
  }

  /** `a << 1` on `u8`. */
  function ShiftLeft1(a: u8): (r: u8)
    ensures r % 2 == 0
    ensures 2 * a as int == r as int + 256 * HighBit(a) as int
  {
    ((2 * a as int) % 256) as u8
  }

  /** `(b >> (7 - column)) & 1 == 1`: sprite pixel `column` of a sprite row, bit 7 leftmost. */
  predicate SpriteBit(b: u8, column: nat)
    requires column < 8
  {
    ((b as bv8) >> (7 - column)) & 1 == 1
  }

  /** The place value of sprite column `column`: bit 7 is the leftmost pixel. */
  const ColumnWeight: seq<nat> := [128, 64, 32, 16, 8, 4, 2, 1]

  /** Pixel `column` of a sprite row is its binary digit of weight ColumnWeight[column]. */
  lemma SpriteBitIsDigit(b: u8, column: nat)
    requires column < 8
    ensures SpriteBit(b, column) <==> (b as int / ColumnWeight[column]) % 2 == 1
  {
  }

  /** Every pixel of an all-ones sprite row is set. */
  lemma FullRowBits(column: nat)
    requires column < 8
    ensures SpriteBit(0xFF, column)
  {
  }
}
