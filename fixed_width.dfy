/** Rust's fixed-width integers and the operators the decoder applies to them.
    Integers here are unbounded, so every width, shift, bit-or, reinterpreting
    cast and wrap-around of the source is written out. A `Checked` value pairs
    the wrapped result (what a release build stores) with the flag that a debug
    build's overflow check would raise. */
module FixedWidth {

  type u8 = x: int | 0 <= x < 0x100
  type u11 = x: int | 0 <= x < 0x800
  type u16 = x: int | 0 <= x < 0x1_0000
  type u29 = x: int | 0 <= x < 0x2000_0000
  type u32 = x: int | 0 <= x < 0x1_0000_0000
  type i16 = x: int | -0x8000 <= x < 0x8000

  /** The wrapped result of an operation and whether it overflowed. */
  datatype Checked<T> = Checked(value: T, overflowed: bool)

  function WrapU8(x: int): (r: u8)
    ensures 0 <= x < 0x100 ==> r == x
  {
    x % 0x100
  }

  function WrapU16(x: int): (r: u16)
    ensures 0 <= x < 0x1_0000 ==> r == x
  {
    x % 0x1_0000
  }

  function WrapU32(x: int): (r: u32)
    ensures 0 <= x < 0x1_0000_0000 ==> r == x
  {
    x % 0x1_0000_0000
  }

  /** `a * b` on u8, u16 and u32. */
  function MulU8(a: u8, b: u8): (r: Checked<u8>)
    ensures r.overflowed <==> a * b > 0xFF
    ensures !r.overflowed ==> r.value == a * b
  {
    Checked(WrapU8(a * b), a * b > 0xFF)
  }

  function MulU16(a: u16, b: u16): (r: Checked<u16>)
    ensures r.overflowed <==> a * b > 0xFFFF
    ensures !r.overflowed ==> r.value == a * b
  {
    Checked(WrapU16(a * b), a * b > 0xFFFF)
  }

  function MulU32(a: u32, b: u32): (r: Checked<u32>)
    ensures r.overflowed <==> a * b > 0xFFFF_FFFF
    ensures !r.overflowed ==> r.value == a * b
  {
    Checked(WrapU32(a * b), a * b > 0xFFFF_FFFF)
  }

  /** Two's-complement wrap to 16 bits: `as i16` on a wider value, or the
      release-build result of an i16 operation. */
  function WrapI16(x: int): (r: i16)
    ensures -0x8000 <= x < 0x8000 ==> r == x
  {
    var p := x % 0x1_0000;
    if p < 0x8000 then p else p - 0x1_0000
  }

  function Pow2(n: nat): (r: nat)
    ensures r > 0
  {
    if n == 0 then 1 else 2 * Pow2(n - 1)
  }

  /** Bitwise or of two non-negative integers, one bit at a time. */
  function BitOr(a: nat, b: nat): nat
    decreases a + b
  {
    if a == 0 && b == 0 then 0
    else 2 * BitOr(a / 2, b / 2) + (if a % 2 == 1 || b % 2 == 1 then 1 else 0)
  }

  /** The or of two values is at least each of them and at most their sum. */
  lemma {:induction false} BitOrBounds(a: nat, b: nat)
    ensures a <= BitOr(a, b) && b <= BitOr(a, b)
    ensures BitOr(a, b) <= a + b
    decreases a + b
  {
    if a != 0 || b != 0 {
      BitOrBounds(a / 2, b / 2);
    }
  }

  /** 2^n for the byte-aligned amounts the decoder shifts by and the widths
      it shifts in, written out so that no power is evaluated step by step. */
  function ByteFactor(n: nat): nat
    requires n in {8, 16, 24, 32}
  {
    if n == 8 then 0x100 else if n == 16 then 0x1_0000 else if n == 24 then 0x100_0000 else 0x1_0000_0000
  }

  lemma ByteFactorIsPow2(n: nat)
    requires n in {8, 16, 24, 32}
    ensures ByteFactor(n) == Pow2(n)
  {
    assert Pow2(8) == 0x100;
    if n > 8 {
      assert Pow2(16) == 0x100 * Pow2(8);
      if n > 16 {
        assert Pow2(24) == 0x100 * Pow2(16);
        if n > 24 {
          assert Pow2(32) == 0x100 * Pow2(24);
        }
      }
    }
  }

  /** `x << n` on an unsigned value of `width` bits: the bits moved past the
      top are lost. */
  function Shl(x: nat, n: nat, width: nat): (r: nat)
    requires n in {8, 16, 24} && width in {16, 32} && n < width
    ensures r < ByteFactor(width)
  {
    (x * ByteFactor(n)) % ByteFactor(width)
  }

  /** Shifting left by `n` inside `width` bits loses nothing when the result
      fits. */
  lemma ShlFits(x: nat, n: nat, width: nat)
    requires n in {8, 16, 24} && width in {16, 32} && n < width
    requires x * ByteFactor(n) < ByteFactor(width)
    ensures Shl(x, n, width) == x * ByteFactor(n)
  {
  }

  lemma {:induction false} BitOrZero(a: nat)
    ensures BitOr(a, 0) == a
    decreases a
  {
    if a != 0 {
      BitOrZero(a / 2);
    }
  }

  /** Or-ing a value below 2^k into a multiple of 2^k adds it: the bits do
      not overlap. */
  lemma {:induction false} BitOrDisjoint(c: nat, b: nat, k: nat)
    requires b < Pow2(k)
    ensures BitOr(c * Pow2(k), b) == c * Pow2(k) + b
    decreases k
  {
    if k == 0 {
      BitOrZero(c);
    } else {
      var x := c * Pow2(k - 1);
      assert c * Pow2(k) == 2 * x;
      if x != 0 || b != 0 {
        BitOrDisjoint(c, b / 2, k - 1);
      }
    }
  }

  /** Or-ing a value below 2^k into a multiple of 2^k, for the byte-aligned k. */
  lemma OrBelow(c: nat, b: nat, k: nat)
    requires k in {8, 16, 24} && b < ByteFactor(k)
    ensures BitOr(c * ByteFactor(k), b) == c * ByteFactor(k) + b
  {
    ByteFactorIsPow2(k);
    BitOrDisjoint(c, b, k);
  }

  /** `(hi as u16) << 8 | lo as u16`: big-endian composition of two bytes. */
  function Compose16(hi: u8, lo: u8): (r: u16)
    ensures r == hi * 0x100 + lo
  {
    ShlFits(hi, 8, 16);
    OrBelow(hi, lo, 8);
    BitOr(Shl(hi, 8, 16), lo)
  }

  /** `(b0 as u32) << 24 | (b1 as u32) << 16 | (b2 as u32) << 8 | b3 as u32`. */
  function Compose32(b0: u8, b1: u8, b2: u8, b3: u8): (r: u32)
    ensures r == b0 * 0x100_0000 + b1 * 0x1_0000 + b2 * 0x100 + b3
  {
    ShlFits(b0, 24, 32);
    ShlFits(b1, 16, 32);
    ShlFits(b2, 8, 32);
    var mid := b0 * 0x100 + b1;
    var lo := mid * 0x100 + b2;
    OrBelow(b0, b1 * 0x1_0000, 24);
    assert b0 * 0x100_0000 + b1 * 0x1_0000 == mid * 0x1_0000;
    OrBelow(mid, b2 * 0x100, 16);
    assert mid * 0x1_0000 + b2 * 0x100 == lo * 0x100;
    OrBelow(lo, b3, 8);
    BitOr(BitOr(BitOr(Shl(b0, 24, 32), Shl(b1, 16, 32)), Shl(b2, 8, 32)), b3)
  }

  /** `x << n` on i16: the bit pattern shifted, reinterpreted as signed.
      Rust checks only the shift amount, never the bits shifted out. */
  function ShlI16(x: i16, n: nat): (r: i16)
    requires n == 8
    ensures (r as int) % 0x1_0000 == ((x as int) * 0x100) % 0x1_0000
  {
    var bits := (x as int) % 0x1_0000;
    ShiftedBits(x as int);
    WrapI16Bits(Shl(bits, n, 16));
    WrapI16(Shl(bits, n, 16))
  }

  /** Shifting keeps only the low bits, so it does not matter whether the
      pattern or the value is shifted. */
  lemma ShiftedBits(x: int)
    ensures ((x % 0x1_0000) * 0x100) % 0x1_0000 == (x * 0x100) % 0x1_0000
  {
    var q := x / 0x1_0000;
    assert x * 0x100 == (x % 0x1_0000) * 0x100 + (q * 0x100) * 0x1_0000;
  }

  /** `x | y` on i16: or of the two's-complement bit patterns. */
  function OrI16(x: i16, y: i16): (r: i16)
    ensures (r as int) % 0x1_0000 == BitOr((x as int) % 0x1_0000, (y as int) % 0x1_0000)
  {
    var xBits, yBits := (x as int) % 0x1_0000, (y as int) % 0x1_0000;
    ByteFactorIsPow2(16);
    BitOrBelow(xBits, yBits, 16);
    WrapI16Bits(BitOr(xBits, yBits));
    WrapI16(BitOr(xBits, yBits))
  }

  /** The or of two values below 2^k is below 2^k. */
  lemma {:induction false} BitOrBelow(a: nat, b: nat, k: nat)
    requires a < Pow2(k) && b < Pow2(k)
    ensures BitOr(a, b) < Pow2(k)
    decreases k
  {
    if k > 0 && (a != 0 || b != 0) {
      BitOrBelow(a / 2, b / 2, k - 1);
    }
  }

  /** `hi lo` read as a big-endian two's-complement 16-bit value. */
  function SignedWord(hi: u8, lo: u8): int
  {
    if hi < 0x80 then (hi as int) * 0x100 + lo else (hi as int) * 0x100 + lo - 0x1_0000
  }

  /** `(hi as i16) << 8 | lo as i16` has the same bits as the unsigned
      composition, so it is that value reinterpreted as signed: negative
      exactly when the high byte has its top bit set. */
  lemma ComposeI16Value(hi: u8, lo: u8)
    ensures WrapI16(Compose16(hi, lo)) == SignedWord(hi, lo)
  {
    var c := Compose16(hi, lo);
    ReinterpretI16(c);
  }

  lemma ReinterpretI16(x: int)
    requires 0 <= x < 0x1_0000
    ensures WrapI16(x) == if x < 0x8000 then x else x - 0x1_0000
  {
  }

  lemma ComposeI16(hi: u8, lo: u8)
    ensures OrI16(ShlI16(hi, 8), lo) == WrapI16(Compose16(hi, lo))
  {
    var shifted := ShlI16(hi, 8);
    var bits := hi * 0x100;
    assert (shifted as int) % 0x1_0000 == bits;
    assert (lo as int) % 0x1_0000 == lo;
    OrBytes(hi, lo);
    var r := OrI16(shifted, lo);
    assert (r as int) % 0x1_0000 == BitOr(bits, lo);
    assert (r as int) % 0x1_0000 == Compose16(hi, lo);
    I16FromBits(r);
  }

  /** An i16 is its own bit pattern reinterpreted. */
  lemma I16FromBits(x: i16)
    ensures WrapI16((x as int) % 0x1_0000) == x
  {
    if x < 0 {
      assert (x as int) % 0x1_0000 == x + 0x1_0000;
    }
  }

  /** A byte or-ed below a shifted byte is added to it. */
  lemma OrBytes(hi: u8, lo: u8)
    ensures BitOr(hi * 0x100, lo) == hi * 0x100 + lo
  {
    ByteFactorIsPow2(8);
    BitOrDisjoint(hi, lo, 8);
  }

  /** The bit pattern of a 16-bit value survives reinterpretation as i16. */
  lemma WrapI16Bits(x: int)
    requires 0 <= x < 0x1_0000
    ensures (WrapI16(x) as int) % 0x1_0000 == x
  {
    if x >= 0x8000 {
      assert WrapI16(x) == x - 0x1_0000;
    }
  }

  /** `s - 40` on i16: underflows exactly below -32728. */
  function MinusFortyI16(s: i16): (r: Checked<i16>)
    ensures r.overflowed <==> s < -0x8000 + 40
    ensures !r.overflowed ==> r.value == s - 40
    ensures r.overflowed ==> r.value == s - 40 + 0x1_0000
  {
    Checked(WrapI16(s - 40), s - 40 < -0x8000)
  }
}
