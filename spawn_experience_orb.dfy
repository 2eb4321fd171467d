/** WrapperPlayServerSpawnExperienceOrb: an experience orb's entity id,
    position and the amount of experience it carries. */
module SpawnExperienceOrb {
  import opened JavaTypes
  import opened Wire
  import opened Buffers

  /** The five fields, in wire order. */
  datatype Orb = Orb(entityId: int32, x: DoubleBits, y: DoubleBits, z: DoubleBits, count: int16)

  /** write(): a varint entity id, the three coordinates as doubles, then
      the count as a short. */
  function Encode(o: Orb): Bytes
  {
    EncodeVarInt(o.entityId) + EncodeDouble(o.x) + EncodeDouble(o.y) + EncodeDouble(o.z) + EncodeShort(o.count)
  }

  /** read(): the same five reads in the same order. */
  function Decode(s: Bytes, pos: nat): Parsed<Orb>
  {
    var (entityId, p1) :- DecodeVarInt(s, pos);
    var (x, p2) :- DecodeDouble(s, p1);
    var (y, p3) :- DecodeDouble(s, p2);
    var (z, p4) :- DecodeDouble(s, p3);
    var (count, p5) :- DecodeShort(s, p4);
    Parsed(Orb(entityId, x, y, z, count), p5)
  }

  /** The encoded length: the entity id's varint, 3 * 8 bytes of
      coordinates and 2 of count. */
  lemma EncodedLength(o: Orb)
    ensures |Encode(o)| == |EncodeVarInt(o.entityId)| + 3 * 8 + 2
  {
  }

  /** read() in order: five successful reads give the orb. */
  lemma DecodeInOrder(s: Bytes, pos: nat, o: Orb, p1: nat, p2: nat, p3: nat, p4: nat, p5: nat)
    requires DecodeVarInt(s, pos) == Parsed(o.entityId, p1)
    requires DecodeDouble(s, p1) == Parsed(o.x, p2)
    requires DecodeDouble(s, p2) == Parsed(o.y, p3)
    requires DecodeDouble(s, p3) == Parsed(o.z, p4)
    requires DecodeShort(s, p4) == Parsed(o.count, p5)
    ensures Decode(s, pos) == Parsed(o, p5)
  {
  }

  /** Where write() put each field: after the varint, the doubles at 8-byte
      steps and the short after them. */
  lemma Layout(o: Orb, s: Bytes, pos: nat)
    requires At(s, pos, Encode(o))
    ensures var p1 := pos + |EncodeVarInt(o.entityId)|;
            At(s, pos, EncodeVarInt(o.entityId)) && At(s, p1, EncodeDouble(o.x)) &&
            At(s, p1 + 8, EncodeDouble(o.y)) && At(s, p1 + 16, EncodeDouble(o.z)) &&
            At(s, p1 + 24, EncodeShort(o.count)) && pos + |Encode(o)| == p1 + 26
  {
    var a, b, c, d, e := EncodeVarInt(o.entityId), EncodeDouble(o.x), EncodeDouble(o.y), EncodeDouble(o.z), EncodeShort(o.count);
    AtConcat(s, pos, a + b + c + d, e);
    AtConcat3(s, pos, a + b, c, d);
    AtConcat(s, pos, a, b);
  }

  /** Each field's reader, at the place its writer used, returns it. */
  lemma FieldsRoundTrip(o: Orb, s: Bytes, pos: nat, p1: nat)
    requires At(s, pos, EncodeVarInt(o.entityId)) && p1 == pos + |EncodeVarInt(o.entityId)|
    requires At(s, p1, EncodeDouble(o.x)) && At(s, p1 + 8, EncodeDouble(o.y))
    requires At(s, p1 + 16, EncodeDouble(o.z)) && At(s, p1 + 24, EncodeShort(o.count))
    ensures DecodeVarInt(s, pos) == Parsed(o.entityId, p1)
    ensures DecodeDouble(s, p1) == Parsed(o.x, p1 + 8)
    ensures DecodeDouble(s, p1 + 8) == Parsed(o.y, p1 + 16)
    ensures DecodeDouble(s, p1 + 16) == Parsed(o.z, p1 + 24)
    ensures DecodeShort(s, p1 + 24) == Parsed(o.count, p1 + 26)
  {
    VarIntRoundTrip(s, pos, o.entityId);
    DoubleRoundTrip(s, p1, o.x);
    DoubleRoundTrip(s, p1 + 8, o.y);
    DoubleRoundTrip(s, p1 + 16, o.z);
    ShortRoundTrip(s, p1 + 24, o.count);
  }

  /** Reading what write() produced restores all five fields bit for bit,
      whatever follows in the buffer. */
  lemma RoundTrip(o: Orb, s: Bytes, pos: nat)
    requires At(s, pos, Encode(o))
    ensures Decode(s, pos) == Parsed(o, pos + |Encode(o)|)
  {
    Layout(o, s, pos);
    var p1 := pos + |EncodeVarInt(o.entityId)|;
    FieldsRoundTrip(o, s, pos, p1);
    DecodeInOrder(s, pos, o, p1, p1 + 8, p1 + 16, p1 + 24, p1 + 26);
  }

  /** The fields read() leaves, whether it completes or not: each field
      takes its value as soon as its own read succeeds, so a read that
      fails keeps the values read before it and the old values after. */
  function AfterRead(o: Orb, s: Bytes, pos: nat): Orb
  {
    match DecodeVarInt(s, pos)
    case Failed(_) => o
    case Parsed(entityId, p1) =>
      var o1 := o.(entityId := entityId);
      match DecodeDouble(s, p1)
      case Failed(_) => o1
      case Parsed(x, p2) =>
        var o2 := o1.(x := x);
        match DecodeDouble(s, p2)
        case Failed(_) => o2
        case Parsed(y, p3) =>
          var o3 := o2.(y := y);
          match DecodeDouble(s, p3)
          case Failed(_) => o3
          case Parsed(z, p4) =>
            var o4 := o3.(z := z);
            match DecodeShort(s, p4)
            case Failed(_) => o4
            case Parsed(count, _) => o4.(count := count)
  }

  /** A read that completes leaves exactly the decoded orb, whatever the
      fields held before. */
  lemma AfterReadDecoded(o: Orb, s: Bytes, pos: nat)
    requires Decode(s, pos).Parsed?
    ensures AfterRead(o, s, pos) == Decode(s, pos).value
  {
  }

  /** A buffer holding only the entity id: the read fails at the first
      coordinate, with the entity id already taken and the rest kept. */
  lemma IdOnlyBuffer(o: Orb, id: int32)
    ensures Decode(EncodeVarInt(id), 0).Failed?
    ensures AfterRead(o, EncodeVarInt(id), 0) == o.(entityId := id)
  {
    var s := EncodeVarInt(id);
    VarIntRoundTrip(s, 0, id);
  }

  class WrapperPlayServerSpawnExperienceOrb {
    var entityId: int32
    var x: DoubleBits
    var y: DoubleBits
    var z: DoubleBits
    var count: int16

    function Fields(): Orb
      reads this
    {
      Orb(entityId, x, y, z, count)
    }

    constructor (entityId: int32, x: DoubleBits, y: DoubleBits, z: DoubleBits, count: int16)
      ensures Fields() == Orb(entityId, x, y, z, count)
    {
      this.entityId := entityId;
      this.x := x;
      this.y := y;
      this.z := z;
      this.count := count;
    }

    method Read(buf: ByteBuf) returns (r: Result<()>)
      modifies this, buf
      ensures buf.data == old(buf.data)
      ensures Reports(r, Decode(old(buf.data), old(buf.readerIndex)))
      ensures r.Ok? ==> Parsed(Fields(), buf.readerIndex) == Decode(old(buf.data), old(buf.readerIndex))
      ensures Fields() == AfterRead(old(Fields()), old(buf.data), old(buf.readerIndex))
    {
      entityId :- buf.ReadVarInt();
      x :- buf.ReadDouble();
      y :- buf.ReadDouble();
      z :- buf.ReadDouble();
      count :- buf.ReadShort();
      r := Ok(());
    }

    method Write(buf: ByteBuf)
      modifies buf
      ensures buf.data == old(buf.data) + Encode(Fields())
      ensures buf.readerIndex == old(buf.readerIndex)
    {
      buf.WriteVarInt(entityId);
      buf.Write(EncodeDouble(x));
      buf.Write(EncodeDouble(y));
      buf.Write(EncodeDouble(z));
      buf.Write(EncodeShort(count));
    }

    method Copy(w: WrapperPlayServerSpawnExperienceOrb)
      modifies this
      ensures Fields() == w.Fields()
    {
      entityId, x, y, z, count := w.entityId, w.x, w.y, w.z, w.count;
    }
  }
}
