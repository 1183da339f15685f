/** Byte-level value types and the little-endian reading of a run of bytes. */
module LittleEndian {

  /** One byte of input (Rust `u8`). */
  type Byte = x: int | 0 <= x < 256

  /** A 32-bit unsigned value (Rust `u32`). */
  type U32 = x: int | 0 <= x < 0x1_0000_0000

  /** A 32-bit two's-complement value (Rust `i32`). */
  type I32 = x: int | -0x8000_0000 <= x < 0x8000_0000

  function Pow256(n: nat): (p: nat)
    ensures p >= 1
  {
    if n == 0 then 1 else 256 * Pow256(n - 1)
  }

  /** The bounds of the operand widths in use: none, one byte and four bytes. */
  lemma Pow256Widths()
    ensures Pow256(0) == 1 && Pow256(1) == 256 && Pow256(4) == 0x1_0000_0000
  {
  }

  /** The unsigned value of `s`, least-significant byte first. */
  function LeValue(s: seq<Byte>): (v: nat)
    ensures v < Pow256(|s|)
  {
    if s == [] then 0 else s[0] + 256 * LeValue(s[1..])
  }

  /** The 32-bit value of four bytes, least-significant first. */
  function LeU32(s: seq<Byte>): (u: U32)
    requires |s| == 4
    ensures u == LeValue(s)
  {
    Pow256Widths();
    LeValue(s)
  }

  /** `le_u32` combines the four bytes by shifts, the first byte lowest. */
  lemma LeU32Shifts(s: seq<Byte>)
    requires |s| == 4
    ensures LeU32(s) == s[0] + 0x100 * s[1] as int + 0x1_0000 * s[2] as int + 0x100_0000 * s[3] as int
  {
    assert s[1..][1..] == s[2..] && s[2..][1..] == s[3..] && s[3..][1..] == [];
    assert LeValue(s[3..]) == s[3];
    assert LeValue(s[2..]) == s[2] + 0x100 * s[3] as int;
    assert LeValue(s[1..]) == s[1] + 0x100 * s[2] as int + 0x1_0000 * s[3] as int;
  }

  /** The `width` bytes that hold `x` least-significant byte first. */
  function LeBytes(x: nat, width: nat): (s: seq<Byte>)
    requires x < Pow256(width)
    ensures |s| == width
    ensures LeValue(s) == x
  {
    if width == 0 then []
    else
      var s := [x % 256] + LeBytes(x / 256, width - 1);
      assert s[1..] == LeBytes(x / 256, width - 1);
      s
  }

  /** Reading bytes as a number and writing the number back gives the same bytes. */
  lemma {:induction false} LeBytesOfValue(s: seq<Byte>)
    ensures LeBytes(LeValue(s), |s|) == s
  {
    if s != [] {
      LeBytesOfValue(s[1..]);
      var v := LeValue(s);
      assert v % 256 == s[0] && v / 256 == LeValue(s[1..]);
    }
  }

  /** `u32 as i32`: the two's-complement reinterpretation of a bit pattern. */
  function ToI32(u: U32): (i: I32)
    ensures i >= 0 <==> u < 0x8000_0000
    ensures i % 0x1_0000_0000 == u
  {
    if u < 0x8000_0000 then u else u - 0x1_0000_0000
  }

  /** `i32 as u32`: the bit pattern of a two's-complement value. */
  function FromI32(i: I32): (u: U32)
    ensures u % 0x1_0000_0000 == i % 0x1_0000_0000
  {
    if i >= 0 then i else i + 0x1_0000_0000
  }

  /** The reinterpretation is a bijection between the two 32-bit types. */
  lemma I32BitPattern(u: U32, i: I32)
    ensures ToI32(FromI32(i)) == i
    ensures FromI32(ToI32(u)) == u
  {
  }
}
