/** WrapperPlayClientPlayerAbilities: the client reports whether the player
    is flying. Only that flag travels; the other abilities are server-side
    state the wrapper can carry but never encodes. */
module PlayerAbilities {
  import opened JavaTypes
  import opened Wire
  import opened Buffers

  /** The flag bit of the mask byte. */
  const FLYING_BIT: bv8 := 0x02

  /** write(): the mask byte, 0x02 when flying and 0 otherwise. */
  function Mask(flying: bool): int8
  {
    if flying then 0x02 else 0
  }

  /** read(): `(mask & 0x02) != 0` on the signed byte. */
  function IsFlying(mask: int8): bool
  {
    (mask % 0x100) as bv8 & FLYING_BIT != 0
  }

  /** The flag is bit 1 of the mask's two's-complement pattern and nothing
      else: every other bit is ignored. */
  lemma FlyingIsBitOne(mask: int8)
    ensures IsFlying(mask) <==> (mask % 0x100) / 2 % 2 == 1
  {
    var u: bv8 := (mask % 0x100) as bv8;
    assert (u & FLYING_BIT) == ((u >> 1) & 1) << 1;
    assert ((u >> 1) & 1) as int == (mask % 0x100) / 2 % 2;
  }

  /** Reading the byte write() produced gives back the flag. */
  lemma FlyingRoundTrip(s: Bytes, pos: nat, flying: bool)
    requires At(s, pos, EncodeByte(Mask(flying)))
    ensures DecodeByte(s, pos).Parsed? && IsFlying(DecodeByte(s, pos).value) == flying
  {
    ByteRoundTrip(s, pos, Mask(flying));
  }

  class WrapperPlayClientPlayerAbilities {
    var flying: bool
    var godMode: Option<bool>
    var flightAllowed: Option<bool>
    var creativeMode: Option<bool>
    var flySpeed: Option<FloatBits>
    var walkSpeed: Option<FloatBits>

    predicate OptionalsEmpty()
      reads this
    {
      godMode.None? && flightAllowed.None? && creativeMode.None? && flySpeed.None? && walkSpeed.None?
    }

    constructor (flying: bool, godMode: Option<bool>, flightAllowed: Option<bool>, creativeMode: Option<bool>,
                 flySpeed: Option<FloatBits>, walkSpeed: Option<FloatBits>)
      ensures this.flying == flying && this.godMode == godMode && this.flightAllowed == flightAllowed
      ensures this.creativeMode == creativeMode && this.flySpeed == flySpeed && this.walkSpeed == walkSpeed
    {
      this.flying := flying;
      this.godMode := godMode;
      this.flightAllowed := flightAllowed;
      this.creativeMode := creativeMode;
      this.flySpeed := flySpeed;
      this.walkSpeed := walkSpeed;
    }

    /** The one-argument constructor: every optional ability empty. */
    constructor Flying(flying: bool)
      ensures this.flying == flying && OptionalsEmpty()
    {
      this.flying := flying;
      godMode, flightAllowed, creativeMode, flySpeed, walkSpeed := None, None, None, None, None;
    }

    /** read(): one mask byte sets the flag; the optional abilities are
        reset to empty. */
    method Read(buf: ByteBuf) returns (r: Result<()>)
      modifies this, buf
      ensures buf.data == old(buf.data)
      ensures Reports(r, DecodeByte(old(buf.data), old(buf.readerIndex)))
      ensures r.Ok? ==> buf.readerIndex == old(buf.readerIndex) + 1
      ensures r.Ok? ==> flying == IsFlying(DecodeByte(old(buf.data), old(buf.readerIndex)).value) && OptionalsEmpty()
      ensures r.Err? ==> flying == old(flying) && godMode == old(godMode) && flightAllowed == old(flightAllowed)
      ensures r.Err? ==> creativeMode == old(creativeMode) && flySpeed == old(flySpeed) && walkSpeed == old(walkSpeed)
    {
      var mask :- buf.Read(DecodeByte);
      flying := IsFlying(mask);
      godMode, flightAllowed, creativeMode, flySpeed, walkSpeed := None, None, None, None, None;
      r := Ok(());
    }

    /** write(): the mask byte alone; the optional abilities never reach
        the wire. */
    method Write(buf: ByteBuf)
      modifies buf
      ensures buf.data == old(buf.data) + EncodeByte(Mask(flying))
      ensures buf.readerIndex == old(buf.readerIndex)
    {
      buf.Write(EncodeByte(Mask(flying)));
    }

    method Copy(w: WrapperPlayClientPlayerAbilities)
      modifies this
      ensures flying == w.flying && godMode == w.godMode && flightAllowed == w.flightAllowed
      ensures creativeMode == w.creativeMode && flySpeed == w.flySpeed && walkSpeed == w.walkSpeed
    {
      godMode := w.godMode;
      flying := w.flying;
      flightAllowed := w.flightAllowed;
      creativeMode := w.creativeMode;
      flySpeed := w.flySpeed;
      walkSpeed := w.walkSpeed;
    }
  }
}
