/** TileEntity: a block entity of a chunk. From 1.18 its position within the
    chunk section is one packed byte, the block's x in the high four bits and
    its z in the low four, beside a short y and an int type. Its NBT
    compound is carried unread. */
module TileEntities {
  import opened JavaTypes

  /** An NBTCompound, carried as an opaque value. */
  datatype Nbt = Nbt(raw: Bytes)

  /** The byte's unsigned reading: its eight bits as a number. */
  function Unsigned8(p: int8): (u: nat)
    ensures u < 0x100 && (u - p) % 0x100 == 0
  {
    if p < 0 then p + 0x100 else p
  }

  /** getX(): `(packedByte & 0xF0) >> 4`, the byte's high four bits. On
      the sign-extended byte, the mask keeps bits 4 to 7 of the byte's
      unsigned reading and the shift brings them down (MaskReadings). */
  function HighNibble(p: int8): (x: int)
    ensures 0 <= x < 16
  {
    Unsigned8(p) / 16
  }

  /** getZ(): `packedByte & 0xF`, the byte's low four bits. */
  function LowNibble(p: int8): (z: int)
    ensures 0 <= z < 16
  {
    Unsigned8(p) % 16
  }

  /** `v & 0xF` of a Java int: the low four bits of its two's complement
      pattern, which is the Euclidean remainder by 16 (negative values
      included). */
  function Low4(v: int32): (r: int)
    ensures 0 <= r < 16 && (r - v) % 16 == 0
  {
    v % 16
  }

  /** setX(x): `(byte) ((packedByte & 0xF) | ((x & 0xF) << 4))`. The two
      operands of `|` occupy disjoint bits, so `|` is their sum, below 256,
      which the cast reads as two's complement. */
  function WithHighNibble(p: int8, x: int32): (r: int8)
    ensures HighNibble(r) == Low4(x)
    ensures LowNibble(r) == LowNibble(p)
  {
    var r := ToInt8(LowNibble(p) + 16 * Low4(x));
    assert Unsigned8(r) == LowNibble(p) + 16 * Low4(x);
    r
  }

  /** setZ(z): `(byte) ((packedByte & 0xF0) | (z & 0xF))`. */
  function WithLowNibble(p: int8, z: int32): (r: int8)
    ensures LowNibble(r) == Low4(z)
    ensures HighNibble(r) == HighNibble(p)
  {
    var r := ToInt8(16 * HighNibble(p) + Low4(z));
    assert Unsigned8(r) == 16 * HighNibble(p) + Low4(z);
    r
  }

  /** The arithmetic readings above agree with the bit operations of the
      source on the byte's eight bits: the masks, the shift, and `|` on
      operands without common bits. */
  lemma MaskReadings(b: bv8, c: bv8)
    ensures ((b & 0xF0) >> 4) as int == b as int / 16
    ensures (b & 0xF) as int == b as int % 16
    ensures ((b & 0xF) | ((c & 0xF) << 4)) as int == (b & 0xF) as int + 16 * (c & 0xF) as int
    ensures ((b & 0xF0) | (c & 0xF)) as int == (b & 0xF0) as int + (c & 0xF) as int
  {
  }

  /** The byte is its two nibbles: x in the high four bits, z in the low
      four, as the 1.18 format `((blockX & 15) << 4) | (blockZ & 15)`
      packs them. */
  lemma Packing(p: int8)
    ensures Unsigned8(p) == 16 * HighNibble(p) + LowNibble(p)
  {
  }

  /** Two bytes with the same nibbles are the same byte. */
  lemma NibblesDetermine(p: int8, q: int8)
    requires HighNibble(p) == HighNibble(q) && LowNibble(p) == LowNibble(q)
    ensures p == q
  {
    Packing(p);
    Packing(q);
  }

  /** Setting a nibble to the value it has leaves the byte as it is. */
  lemma SetToSame(p: int8)
    ensures WithHighNibble(p, HighNibble(p)) == p
    ensures WithLowNibble(p, LowNibble(p)) == p
  {
    NibblesDetermine(WithHighNibble(p, HighNibble(p)), p);
    NibblesDetermine(WithLowNibble(p, LowNibble(p)), p);
  }

  /** setX and setZ touch different bits, so their order does not matter,
      and the byte is then fixed by the two arguments alone. */
  lemma SetsCommute(p: int8, x: int32, z: int32)
    ensures WithLowNibble(WithHighNibble(p, x), z) == WithHighNibble(WithLowNibble(p, z), x)
    ensures Unsigned8(WithLowNibble(WithHighNibble(p, x), z)) == 16 * Low4(x) + Low4(z)
  {
    var a := WithLowNibble(WithHighNibble(p, x), z);
    var b := WithHighNibble(WithLowNibble(p, z), x);
    NibblesDetermine(a, b);
    Packing(a);
  }

  class TileEntity {
    var packedByte: int8
    var y: int16
    var entityType: int32
    var data: Nbt

    /** The pre-1.18 form: the height lives in the NBT, the other fields
        keep Java's zero defaults. */
    constructor FromNbt(data: Nbt)
      ensures packedByte == 0 && y == 0 && entityType == 0 && this.data == data
    {
      packedByte, y, entityType := 0, 0, 0;
      this.data := data;
    }

    constructor (packedByte: int8, y: int16, entityType: int32, data: Nbt)
      ensures GetPackedByte() == packedByte && GetYShort() == y
      ensures GetType() == entityType && GetNbt() == data
    {
      this.packedByte := packedByte;
      this.y := y;
      this.entityType := entityType;
      this.data := data;
    }

    function GetX(): (x: int)
      reads this
      ensures 0 <= x < 16
    {
      HighNibble(packedByte)
    }

    function GetZ(): (z: int)
      reads this
      ensures 0 <= z < 16
    {
      LowNibble(packedByte)
    }

    function GetY(): int
      reads this
    {
      y
    }

    function GetType(): int32
      reads this
    {
      entityType
    }

    function GetPackedByte(): int8
      reads this
    {
      packedByte
    }

    function GetYShort(): int16
      reads this
    {
      y
    }

    function GetNbt(): Nbt
      reads this
    {
      data
    }

    /** setX(x): x's low four bits become getX(); getZ() is kept. */
    method SetX(x: int32)
      modifies this
      ensures packedByte == WithHighNibble(old(packedByte), x)
      ensures GetX() == Low4(x) && GetZ() == old(GetZ())
      ensures y == old(y) && entityType == old(entityType) && data == old(data)
    {
      packedByte := WithHighNibble(packedByte, x);
    }

    /** setZ(z): z's low four bits become getZ(); getX() is kept. */
    method SetZ(z: int32)
      modifies this
      ensures packedByte == WithLowNibble(old(packedByte), z)
      ensures GetZ() == Low4(z) && GetX() == old(GetX())
      ensures y == old(y) && entityType == old(entityType) && data == old(data)
    {
      packedByte := WithLowNibble(packedByte, z);
    }

    /** setY(y): `(short) y`, the low 16 bits read as a short. */
    method SetY(y: int32)
      modifies this
      ensures this.y == ToInt16(y) && (this.y - y) % 0x1_0000 == 0
      ensures packedByte == old(packedByte) && entityType == old(entityType) && data == old(data)
    {
      this.y := ToInt16(y);
    }
  }
}
