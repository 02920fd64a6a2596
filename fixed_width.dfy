/** Fixed-width integers of the C program: bytes, int16_t and int32_t, the
    narrowing store into an int16_t, C's truncating division, the
    float-to-int truncation, and little-endian encoding of the two widths. */
module FixedWidth {

  predicate InInt32(x: int) { -0x8000_0000 <= x < 0x8000_0000 }

  type Byte = b: int | 0 <= b < 0x100
  type Int16 = x: int | -0x8000 <= x < 0x8000
  type Int32 = x: int | InInt32(x)

  function Abs(x: int): nat { if x < 0 then -x else x }

  // ---------------------------------------------------------------------
  // Narrowing into int16_t
  // ---------------------------------------------------------------------

  /** Storing an int into an int16_t slot: the unique int16 value congruent
      to x modulo 2^16 (two's complement wrap-around). */
  function Wrap16(x: int): (r: Int16)
    ensures (r - x) % 0x1_0000 == 0
    ensures -0x8000 <= x < 0x8000 ==> r == x
  {
    var y := x + 0x8000;
    assert y == 0x1_0000 * (y / 0x1_0000) + y % 0x1_0000;
    y % 0x1_0000 - 0x8000
  }

  /** Wrap16 is determined by the residue: two ints that differ by a multiple
      of 2^16 wrap to the same int16. */
  lemma WrapCongruent(a: int, b: int)
    requires (a - b) % 0x1_0000 == 0
    ensures Wrap16(a) == Wrap16(b)
  {
    var ra, rb := Wrap16(a), Wrap16(b);
    var d := ra - rb;
    assert (d - (a - b)) % 0x1_0000 == 0 by {
      var qa := (ra - a) / 0x1_0000;
      var qb := (rb - b) / 0x1_0000;
      var qd := (a - b) / 0x1_0000;
      assert ra - a == 0x1_0000 * qa;
      assert rb - b == 0x1_0000 * qb;
      assert a - b == 0x1_0000 * qd;
      assert d == 0x1_0000 * (qa - qb + qd);
    }
    assert d % 0x1_0000 == 0;
    assert -0x1_0000 < d < 0x1_0000;
  }

  /** Adding to an already wrapped value wraps like adding to the full value:
      a running int16 accumulator equals the wrap of the exact total. */
  lemma WrapAbsorbs(a: int, b: int)
    ensures Wrap16(Wrap16(a) + b) == Wrap16(a + b)
  {
    var q := (Wrap16(a) - a) / 0x1_0000;
    assert Wrap16(a) - a == 0x1_0000 * q;
    assert ((Wrap16(a) + b) - (a + b)) % 0x1_0000 == 0;
    WrapCongruent(Wrap16(a) + b, a + b);
  }

  // ---------------------------------------------------------------------
  // C arithmetic
  // ---------------------------------------------------------------------

  /** C's integer `/` for a positive divisor: the quotient is truncated
      toward zero, unlike Dafny's Euclidean `/`. */
  function CDiv(a: int, b: int): (q: int)
    requires b > 0
    ensures Abs(q) == Abs(a) / b
    ensures q != 0 ==> (q < 0 <==> a < 0)
  {
    if a >= 0 then a / b else -((-a) / b)
  }

  /** C's conversion of a floating value to int: truncation toward zero. */
  function Trunc(r: real): (n: int)
    ensures r >= 0.0 ==> n as real <= r < n as real + 1.0
    ensures r < 0.0 ==> n as real - 1.0 < r <= n as real
  {
    if r >= 0.0 then r.Floor else -((-r).Floor)
  }

  // ---------------------------------------------------------------------
  // Little-endian encoding
  // ---------------------------------------------------------------------

  /** Unsigned 16-bit value of the two bytes at off, low byte first. */
  function U16At(b: seq<Byte>, off: nat): (u: nat)
    requires off + 2 <= |b|
    ensures u < 0x1_0000
  {
    b[off] as int + 0x100 * (b[off + 1] as int)
  }

  /** Unsigned 32-bit value of the four bytes at off, low byte first. */
  function U32At(b: seq<Byte>, off: nat): (u: nat)
    requires off + 4 <= |b|
    ensures u < 0x1_0000_0000
  {
    U16At(b, off) + 0x1_0000 * U16At(b, off + 2)
  }

  /** The int16_t stored little-endian at off. */
  function I16At(b: seq<Byte>, off: nat): Int16
    requires off + 2 <= |b|
  {
    var u := U16At(b, off);
    if u < 0x8000 then u else u - 0x1_0000
  }

  /** The int32_t stored little-endian at off. */
  function I32At(b: seq<Byte>, off: nat): Int32
    requires off + 4 <= |b|
  {
    var u := U32At(b, off);
    if u < 0x8000_0000 then u else u - 0x1_0000_0000
  }

  function EncodeU16(u: nat): (s: seq<Byte>)
    requires u < 0x1_0000
    ensures |s| == 2 && U16At(s, 0) == u
  {
    [u % 0x100, u / 0x100]
  }

  /** The two bytes an int16_t occupies in memory on a little-endian target. */
  function EncodeI16(x: Int16): (s: seq<Byte>)
    ensures |s| == 2 && I16At(s, 0) == x
  {
    EncodeU16(if x < 0 then x + 0x1_0000 else x)
  }

  /** The four bytes an int32_t occupies in memory on a little-endian target. */
  function EncodeI32(x: Int32): (s: seq<Byte>)
    ensures |s| == 4 && I32At(s, 0) == x
  {
    assert InInt32(x);
    var u := if x < 0 then x + 0x1_0000_0000 else x;
    var s := EncodeU16(u % 0x1_0000) + EncodeU16(u / 0x1_0000);
    assert U16At(s, 0) == u % 0x1_0000 && U16At(s, 2) == u / 0x1_0000;
    s
  }

  /** Decoding looks only at the bytes it covers. */
  lemma I16AtSlice(b: seq<Byte>, off: nat)
    requires off + 2 <= |b|
    ensures I16At(b, off) == I16At(b[off..off + 2], 0)
  {
  }

  lemma I32AtSlice(b: seq<Byte>, off: nat)
    requires off + 4 <= |b|
    ensures I32At(b, off) == I32At(b[off..off + 4], 0)
  {
  }

  /** Decoding the bytes of an encoded int32 at any offset gives it back. */
  lemma I32AtEncoded(b: seq<Byte>, off: nat, x: Int32)
    requires off + 4 <= |b| && b[off..off + 4] == EncodeI32(x)
    ensures I32At(b, off) == x
  {
    I32AtSlice(b, off);
  }

  /** Two positions holding the same two bytes decode to the same int16. */
  lemma I16AtSameBytes(a: seq<Byte>, i: nat, b: seq<Byte>, j: nat)
    requires i + 2 <= |a| && j + 2 <= |b|
    requires a[i] == b[j] && a[i + 1] == b[j + 1]
    ensures I16At(a, i) == I16At(b, j)
  {
  }

  lemma I16AtEncoded(b: seq<Byte>, off: nat, x: Int16)
    requires off + 2 <= |b| && b[off..off + 2] == EncodeI16(x)
    ensures I16At(b, off) == x
  {
    I16AtSlice(b, off);
  }

  /** Encoding the int16 decoded at off gives back the two bytes there. */
  lemma EncodeI16At(b: seq<Byte>, off: nat)
    requires off + 2 <= |b|
    ensures EncodeI16(I16At(b, off)) == b[off..off + 2]
  {
    var u := U16At(b, off);
    assert u % 0x100 == b[off] && u / 0x100 == b[off + 1];
  }

  /** Encoding the int32 decoded at off gives back the four bytes there. */
  lemma EncodeI32At(b: seq<Byte>, off: nat)
    requires off + 4 <= |b|
    ensures EncodeI32(I32At(b, off)) == b[off..off + 4]
  {
    var lo, hi := U16At(b, off), U16At(b, off + 2);
    var u := U32At(b, off);
    assert u % 0x1_0000 == lo && u / 0x1_0000 == hi;
    assert lo % 0x100 == b[off] && lo / 0x100 == b[off + 1];
    assert hi % 0x100 == b[off + 2] && hi / 0x100 == b[off + 3];
  }
}
