/** Java's fixed-width integers, the narrowing casts the source relies on, and bytes.
    Dafny integers are unbounded, so every width is a subset type and every
    truncating cast is written out. */
module JavaTypes {

  type uint8 = x: int | 0 <= x < 0x100
  type int8 = x: int | -0x80 <= x < 0x80
  type int16 = x: int | -0x8000 <= x < 0x8000
  type int32 = x: int | -0x8000_0000 <= x < 0x8000_0000
  type int64 = x: int | -0x8000_0000_0000_0000 <= x < 0x8000_0000_0000_0000
  type uint32 = x: int | 0 <= x < 0x1_0000_0000
  type uint64 = x: int | 0 <= x < 0x1_0000_0000_0000_0000

  /** A Java reference that may be null, or a java.util.Optional. */
  datatype Option<+T> = None | Some(value: T)

  /** Raw bytes on the wire. */
  type Bytes = seq<uint8>

  /** A Java `float` / `double`, kept as its IEEE-754 bit pattern: the model
      never does arithmetic on them, it only moves them. */
  type FloatBits = uint32
  type DoubleBits = uint64

  /** 256 to the power n: the number of values of an n-byte field. */
  function Pow256(n: nat): (r: nat)
    ensures r >= 1
  {
    if n == 0 then 1 else 256 * Pow256(n - 1)
  }

  /** Java's `(byte) x`: keep the low 8 bits, read them as two's complement. */
  function ToInt8(x: int): (r: int8)
    ensures (r - x) % 0x100 == 0
  {
    var m := x % 0x100;
    if m >= 0x80 then m - 0x100 else m
  }

  /** Java's `(short) x`. */
  function ToInt16(x: int): (r: int16)
    ensures (r - x) % 0x1_0000 == 0
  {
    var m := x % 0x1_0000;
    if m >= 0x8000 then m - 0x1_0000 else m
  }

  /** Java's `(int) x` for a value computed with more bits. */
  function ToInt32(x: int): (r: int32)
    ensures (r - x) % 0x1_0000_0000 == 0
  {
    var m := x % 0x1_0000_0000;
    if m >= 0x8000_0000 then m - 0x1_0000_0000 else m
  }

  /** The two's complement bit patterns of signed values, as unsigned numbers. */
  function Unsigned16(v: int16): (u: nat)
    ensures u < 0x1_0000
  {
    if v < 0 then v + 0x1_0000 else v
  }

  function Unsigned32(v: int32): (u: nat)
    ensures u < 0x1_0000_0000
  {
    if v < 0 then v + 0x1_0000_0000 else v
  }

  function Unsigned64(v: int64): (u: nat)
    ensures u < 0x1_0000_0000_0000_0000
  {
    if v < 0 then v + 0x1_0000_0000_0000_0000 else v
  }

  lemma Pow256Values()
    ensures Pow256(1) == 0x100 && Pow256(2) == 0x1_0000
    ensures Pow256(4) == 0x1_0000_0000 && Pow256(8) == 0x1_0000_0000_0000_0000
  {
    assert Pow256(2) == 0x1_0000;
    assert Pow256(4) == 0x1_0000_0000;
  }

  /** Reading a pattern back with the matching cast gives the value. */
  lemma SignedUnsigned16(v: int16)
    ensures ToInt16(Unsigned16(v)) == v
  {
  }

  lemma SignedUnsigned32(v: int32)
    ensures ToInt32(Unsigned32(v)) == v
  {
  }

  lemma SignedUnsigned64(v: int64)
    ensures ToInt64(Unsigned64(v)) == v
  {
  }

  /** Java's `(long) x` for a value computed with more bits. */
  function ToInt64(x: int): (r: int64)
    ensures (r - x) % 0x1_0000_0000_0000_0000 == 0
  {
    var m := x % 0x1_0000_0000_0000_0000;
    if m >= 0x8000_0000_0000_0000 then m - 0x1_0000_0000_0000_0000 else m
  }

  lemma ToInt8Identity(x: int8)
    ensures ToInt8(x) == x
  {
  }

  lemma ToInt16Identity(x: int16)
    ensures ToInt16(x) == x
  {
  }

  lemma ToInt32Identity(x: int32)
    ensures ToInt32(x) == x
  {
  }
}
