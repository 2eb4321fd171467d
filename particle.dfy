/** WrapperPlayServerParticle: a particle effect. The particle type's id in
    the client's version, the long-distance flag, the position, the offset,
    the speed and the count, then the data the particle type reads and
    writes. */
module ParticlePacket {
  import opened JavaTypes
  import opened Wire
  import opened Versions
  import opened Buffers
  import opened ParticleTypes

  /** A particle: its type and its data. */
  datatype Particle = Particle(particleType: ParticleType, data: ParticleData)

  /** The fields between the type id and the data, in wire order: a flag,
      three doubles, three floats, a float and an int. */
  datatype Body = Body(longDistance: bool,
                       x: DoubleBits, y: DoubleBits, z: DoubleBits,
                       offsetX: FloatBits, offsetY: FloatBits, offsetZ: FloatBits,
                       maxSpeed: FloatBits, count: int32)

  datatype Effect = Effect(particle: Particle, body: Body)

  function EncodeBody(b: Body): Bytes
  {
    EncodeBool(b.longDistance) + EncodeDouble(b.x) + EncodeDouble(b.y) + EncodeDouble(b.z) +
    EncodeFloat(b.offsetX) + EncodeFloat(b.offsetY) + EncodeFloat(b.offsetZ) +
    EncodeFloat(b.maxSpeed) + EncodeInt(b.count)
  }

  function DecodeBody(s: Bytes, pos: nat): Parsed<Body>
  {
    var (longDistance, p1) :- DecodeBool(s, pos);
    var (x, p2) :- DecodeDouble(s, p1);
    var (y, p3) :- DecodeDouble(s, p2);
    var (z, p4) :- DecodeDouble(s, p3);
    var (ox, p5) :- DecodeFloat(s, p4);
    var (oy, p6) :- DecodeFloat(s, p5);
    var (oz, p7) :- DecodeFloat(s, p6);
    var (maxSpeed, p8) :- DecodeFloat(s, p7);
    var (count, p9) :- DecodeInt(s, p8);
    Parsed(Body(longDistance, x, y, z, ox, oy, oz, maxSpeed, count), p9)
  }

  /** The body takes 1 + 3 * 8 + 5 * 4 = 45 bytes whatever its values. */
  lemma BodyLength(b: Body)
    ensures |EncodeBody(b)| == 45
  {
  }

  /** Where write() put each field of the body. */
  lemma BodyLayout(b: Body, s: Bytes, pos: nat)
    requires At(s, pos, EncodeBody(b))
    ensures At(s, pos, EncodeBool(b.longDistance))
    ensures At(s, pos + 1, EncodeDouble(b.x)) && At(s, pos + 9, EncodeDouble(b.y)) && At(s, pos + 17, EncodeDouble(b.z))
    ensures At(s, pos + 25, EncodeFloat(b.offsetX)) && At(s, pos + 29, EncodeFloat(b.offsetY))
    ensures At(s, pos + 33, EncodeFloat(b.offsetZ)) && At(s, pos + 37, EncodeFloat(b.maxSpeed))
    ensures At(s, pos + 41, EncodeInt(b.count))
  {
    var f0, f1, f2, f3 := EncodeBool(b.longDistance), EncodeDouble(b.x), EncodeDouble(b.y), EncodeDouble(b.z);
    var f4, f5, f6, f7, f8 := EncodeFloat(b.offsetX), EncodeFloat(b.offsetY), EncodeFloat(b.offsetZ), EncodeFloat(b.maxSpeed), EncodeInt(b.count);
    var head := f0 + f1 + f2 + f3;
    var tail := f4 + f5 + f6 + f7 + f8;
    assert EncodeBody(b) == head + tail;
    AtConcat(s, pos, head, tail);
    AtConcat3(s, pos, f0 + f1, f2, f3);
    AtConcat(s, pos, f0, f1);
    AtConcat(s, pos + 25, f4 + f5 + f6 + f7, f8);
    AtConcat3(s, pos + 25, f4 + f5, f6, f7);
    AtConcat(s, pos + 25, f4, f5);
  }

  /** Each field's reader, at the place its writer used, returns it. */
  lemma BodyFields(b: Body, s: Bytes, pos: nat)
    requires At(s, pos, EncodeBool(b.longDistance))
    requires At(s, pos + 1, EncodeDouble(b.x)) && At(s, pos + 9, EncodeDouble(b.y)) && At(s, pos + 17, EncodeDouble(b.z))
    requires At(s, pos + 25, EncodeFloat(b.offsetX)) && At(s, pos + 29, EncodeFloat(b.offsetY))
    requires At(s, pos + 33, EncodeFloat(b.offsetZ)) && At(s, pos + 37, EncodeFloat(b.maxSpeed))
    requires At(s, pos + 41, EncodeInt(b.count))
    ensures DecodeBool(s, pos) == Parsed(b.longDistance, pos + 1)
    ensures DecodeDouble(s, pos + 1) == Parsed(b.x, pos + 9)
    ensures DecodeDouble(s, pos + 9) == Parsed(b.y, pos + 17)
    ensures DecodeDouble(s, pos + 17) == Parsed(b.z, pos + 25)
    ensures DecodeFloat(s, pos + 25) == Parsed(b.offsetX, pos + 29)
    ensures DecodeFloat(s, pos + 29) == Parsed(b.offsetY, pos + 33)
    ensures DecodeFloat(s, pos + 33) == Parsed(b.offsetZ, pos + 37)
    ensures DecodeFloat(s, pos + 37) == Parsed(b.maxSpeed, pos + 41)
    ensures DecodeInt(s, pos + 41) == Parsed(b.count, pos + 45)
  {
    BoolRoundTrip(s, pos, b.longDistance);
    DoubleRoundTrip(s, pos + 1, b.x);
    DoubleRoundTrip(s, pos + 9, b.y);
    DoubleRoundTrip(s, pos + 17, b.z);
    FloatRoundTrip(s, pos + 25, b.offsetX);
    FloatRoundTrip(s, pos + 29, b.offsetY);
    FloatRoundTrip(s, pos + 33, b.offsetZ);
    FloatRoundTrip(s, pos + 37, b.maxSpeed);
    IntRoundTrip(s, pos + 41, b.count);
  }

  /** Reading the body write() produced restores every field bit for bit. */
  lemma BodyRoundTrip(b: Body, s: Bytes, pos: nat)
    requires At(s, pos, EncodeBody(b))
    ensures DecodeBody(s, pos) == Parsed(b, pos + 45)
  {
    BodyLayout(b, s, pos);
    BodyFields(b, s, pos);
  }

  /** write(): the type's id in the client's version, the body, then the
      type's data function on the data. Only that function can throw. */
  function Encode(tb: TypesBuilder, v: Version, e: Effect): (r: Result<Bytes>)
    requires ValidBuilder(tb) && Fits(tb, e.particle.particleType)
    ensures r.Err? <==> EncodeData(e.particle.particleType.kind, e.particle.data).Err?
    ensures r.Ok? ==> r.value == EncodeVarInt(GetId(tb, e.particle.particleType, v)) + EncodeBody(e.body) +
                                EncodeData(e.particle.particleType.kind, e.particle.data).value
  {
    var t := e.particle.particleType;
    var data :- EncodeData(t.kind, e.particle.data);
    Ok(EncodeVarInt(GetId(tb, t, v)) + EncodeBody(e.body) + data)
  }

  /** read(): the id, the lookup of the type (throwing when the version's
      bucket is missing), the body, then the type's data function, which
      throws when no type has the id. */
  function Decode(tb: TypesBuilder, byId: IdMap, v: Version, s: Bytes, pos: nat): Parsed<Effect>
  {
    var (id, p1) :- DecodeVarInt(s, pos);
    var lookup := LookupId(tb, byId, v, id);
    if lookup.Err? then Failed(lookup.error)
    else
      var (body, p2) :- DecodeBody(s, p1);
      if lookup.value.None? then Failed(NullValue)
      else
        var t := lookup.value.value;
        var (data, p3) :- DecodeData(t.kind, s, p2);
        Parsed(Effect(Particle(t, data), body), p3)
  }

  /** read() in order, given each step's outcome. */
  lemma DecodeInOrder(tb: TypesBuilder, byId: IdMap, v: Version, s: Bytes, pos: nat,
                      id: int32, t: ParticleType, body: Body, data: ParticleData, p1: nat, p2: nat, p3: nat)
    requires DecodeVarInt(s, pos) == Parsed(id, p1)
    requires LookupId(tb, byId, v, id) == Ok(Some(t))
    requires DecodeBody(s, p1) == Parsed(body, p2)
    requires DecodeData(t.kind, s, p2) == Parsed(data, p3)
    ensures Decode(tb, byId, v, s, pos) == Parsed(Effect(Particle(t, data), body), p3)
  {
  }

  /** Where write() put the id, the body and the data. */
  lemma Layout(tb: TypesBuilder, v: Version, eff: Effect, s: Bytes, pos: nat, e: Bytes)
    requires ValidBuilder(tb) && Fits(tb, eff.particle.particleType)
    requires Encode(tb, v, eff) == Ok(e) && At(s, pos, e)
    ensures var t := eff.particle.particleType;
            var a := EncodeVarInt(GetId(tb, t, v));
            var c := EncodeData(t.kind, eff.particle.data);
            && c.Ok? && At(s, pos, a) && At(s, pos + |a|, EncodeBody(eff.body)) && At(s, pos + |a| + 45, c.value)
            && |e| == |a| + 45 + |c.value|
  {
    var t := eff.particle.particleType;
    BodyLength(eff.body);
    AtConcat3(s, pos, EncodeVarInt(GetId(tb, t, v)), EncodeBody(eff.body), EncodeData(t.kind, eff.particle.data).value);
  }

  /** Reading what write() produced gives back the particle and the body,
      with the data as the type reads it, provided the registry finds the
      type under its own id in that version, as define() leaves it
      (ParticleTypes.DefineFinds). */
  lemma RoundTrip(tb: TypesBuilder, byId: IdMap, v: Version, eff: Effect, s: Bytes, pos: nat, e: Bytes)
    requires ValidBuilder(tb) && Fits(tb, eff.particle.particleType)
    requires LookupId(tb, byId, v, GetId(tb, eff.particle.particleType, v)) == Ok(Some(eff.particle.particleType))
    requires Encode(tb, v, eff) == Ok(e) && At(s, pos, e)
    ensures var t := eff.particle.particleType;
            Decode(tb, byId, v, s, pos) == Parsed(Effect(Particle(t, Received(t.kind, eff.particle.data)), eff.body), pos + |e|)
  {
    var t := eff.particle.particleType;
    var id := GetId(tb, t, v);
    var a, c := EncodeVarInt(id), EncodeData(t.kind, eff.particle.data).value;
    Layout(tb, v, eff, s, pos, e);
    var p1 := pos + |a|;
    VarIntRoundTrip(s, pos, id);
    BodyRoundTrip(eff.body, s, p1);
    DataRoundTrip(t.kind, eff.particle.data, s, p1 + 45, c);
    DecodeInOrder(tb, byId, v, s, pos, id, t, eff.body, Received(t.kind, eff.particle.data), p1, p1 + 45, pos + |e|);
  }

  /** An id that no type has in the client's version fails the read once
      the body is read, at the data function. */
  lemma UnknownId(tb: TypesBuilder, byId: IdMap, v: Version, s: Bytes, pos: nat, id: int32, p1: nat, body: Body, p2: nat)
    requires DecodeVarInt(s, pos) == Parsed(id, p1)
    requires LookupId(tb, byId, v, id) == Ok(None)
    requires DecodeBody(s, p1) == Parsed(body, p2)
    ensures Decode(tb, byId, v, s, pos) == Failed(NullValue)
  {
  }

  /** The body's writes, in order. */
  method WriteBody(buf: ByteBuf, b: Body)
    modifies buf
    ensures buf.readerIndex == old(buf.readerIndex)
    ensures buf.data == old(buf.data) + EncodeBody(b)
  {
    buf.Write(EncodeBool(b.longDistance));
    buf.Write(EncodeDouble(b.x));
    buf.Write(EncodeDouble(b.y));
    buf.Write(EncodeDouble(b.z));
    buf.Write(EncodeFloat(b.offsetX));
    buf.Write(EncodeFloat(b.offsetY));
    buf.Write(EncodeFloat(b.offsetZ));
    buf.Write(EncodeFloat(b.maxSpeed));
    buf.Write(EncodeInt(b.count));
  }

  /** The body fields read() leaves, whether their reads complete or not.
      Each field is assigned once its reads succeed: the flag on its own,
      the position once its three doubles are read, the offset once its
      three floats are read, then the speed and the count; a read that
      fails keeps the values read before it and the old values after. */
  function BodyAfterRead(b: Body, s: Bytes, pos: nat): Body
  {
    match DecodeBool(s, pos)
    case Failed(_) => b
    case Parsed(longDistance, p1) =>
      var b1 := b.(longDistance := longDistance);
      match Position(s, p1)
      case Failed(_) => b1
      case Parsed((x, y, z), p4) =>
        var b2 := b1.(x := x, y := y, z := z);
        match Offset(s, p4)
        case Failed(_) => b2
        case Parsed((ox, oy, oz), p7) =>
          var b3 := b2.(offsetX := ox, offsetY := oy, offsetZ := oz);
          match DecodeFloat(s, p7)
          case Failed(_) => b3
          case Parsed(maxSpeed, p8) =>
            var b4 := b3.(maxSpeed := maxSpeed);
            match DecodeInt(s, p8)
            case Failed(_) => b4
            case Parsed(count, _) => b4.(count := count)
  }

  /** new Vector3d(readDouble(), readDouble(), readDouble()). */
  function Position(s: Bytes, pos: nat): Parsed<(DoubleBits, DoubleBits, DoubleBits)>
  {
    var (x, p1) :- DecodeDouble(s, pos);
    var (y, p2) :- DecodeDouble(s, p1);
    var (z, p3) :- DecodeDouble(s, p2);
    Parsed((x, y, z), p3)
  }

  /** new Vector3f(readFloat(), readFloat(), readFloat()). */
  function Offset(s: Bytes, pos: nat): Parsed<(FloatBits, FloatBits, FloatBits)>
  {
    var (x, p1) :- DecodeFloat(s, pos);
    var (y, p2) :- DecodeFloat(s, p1);
    var (z, p3) :- DecodeFloat(s, p2);
    Parsed((x, y, z), p3)
  }

  /** A body read that completes leaves exactly the decoded body, whatever
      the fields held before. */
  lemma BodyAfterReadDecoded(b: Body, s: Bytes, pos: nat)
    requires DecodeBody(s, pos).Parsed?
    ensures BodyAfterRead(b, s, pos) == DecodeBody(s, pos).value
  {
  }

  /** The fields read() leaves, whether it completes or not: nothing before
      the type is looked up, then the body fields as they are read, and the
      particle only at the end. */
  function AfterRead(tb: TypesBuilder, byId: IdMap, v: Version, e: Effect, s: Bytes, pos: nat): Effect
  {
    match DecodeVarInt(s, pos)
    case Failed(_) => e
    case Parsed(id, p1) =>
      var lookup := LookupId(tb, byId, v, id);
      if lookup.Err? then e
      else
        match DecodeBody(s, p1)
        case Failed(_) => e.(body := BodyAfterRead(e.body, s, p1))
        case Parsed(body, p2) =>
          if lookup.value.None? then e.(body := body)
          else
            var t := lookup.value.value;
            match DecodeData(t.kind, s, p2)
            case Failed(_) => e.(body := body)
            case Parsed(data, _) => Effect(Particle(t, data), body)
  }

  /** A read that completes leaves exactly the decoded effect, whatever the
      fields held before. */
  lemma AfterReadDecoded(tb: TypesBuilder, byId: IdMap, v: Version, e: Effect, s: Bytes, pos: nat)
    requires Decode(tb, byId, v, s, pos).Parsed?
    ensures AfterRead(tb, byId, v, e, s, pos) == Decode(tb, byId, v, s, pos).value
  {
    var (id, p1) := DecodeVarInt(s, pos).Extract();
    BodyAfterReadDecoded(e.body, s, p1);
  }

  /** An id that no type has: the read fails at the data function with the
      whole body already overwritten and the particle kept. */
  lemma UnknownIdKeepsParticle(tb: TypesBuilder, byId: IdMap, v: Version, e: Effect, s: Bytes, pos: nat,
                               id: int32, p1: nat, body: Body, p2: nat)
    requires DecodeVarInt(s, pos) == Parsed(id, p1)
    requires LookupId(tb, byId, v, id) == Ok(None)
    requires DecodeBody(s, p1) == Parsed(body, p2)
    ensures AfterRead(tb, byId, v, e, s, pos) == e.(body := body)
  {
  }

  class WrapperPlayServerParticle {
    /** serverVersion.toClientVersion(). */
    const clientVersion: Version
    var particle: Particle
    var body: Body

    function Fields(): Effect
      reads this
    {
      Effect(particle, body)
    }

    constructor (clientVersion: Version, particle: Particle, body: Body)
      ensures this.clientVersion == clientVersion && Fields() == Effect(particle, body)
    {
      this.clientVersion := clientVersion;
      this.particle := particle;
      this.body := body;
    }

    /** read(), against the registry of particle types. */
    method Read(buf: ByteBuf, registry: ParticleRegistry) returns (r: Result<()>)
      modifies this, buf
      ensures buf.data == old(buf.data)
      ensures Reports(r, Decode(registry.builder, registry.byId, clientVersion, old(buf.data), old(buf.readerIndex)))
      ensures r.Ok? ==> Parsed(Fields(), buf.readerIndex) ==
                        Decode(registry.builder, registry.byId, clientVersion, old(buf.data), old(buf.readerIndex))
      ensures Fields() == AfterRead(registry.builder, registry.byId, clientVersion, old(Fields()),
                                    old(buf.data), old(buf.readerIndex))
    {
      var id :- buf.ReadVarInt();
      var found :- registry.GetById(clientVersion, id);
      r := ReadBody(buf);
      if r.Err? {
        return;
      }
      if found.None? {
        return Err(NullValue);
      }
      var t := found.value;
      var data: ParticleData;
      if t.kind.NoData? {
        data := Empty;
      } else {
        data :- ReadBlockStateData(buf);
      }
      particle := Particle(t, data);
      r := Ok(());
    }

    /** The body's reads, in order, each group of fields assigned as soon as
        it is read. */
    method ReadBody(buf: ByteBuf) returns (r: Result<()>)
      modifies this, buf
      ensures buf.data == old(buf.data) && particle == old(particle)
      ensures Reports(r, DecodeBody(old(buf.data), old(buf.readerIndex)))
      ensures r.Ok? ==> Parsed(body, buf.readerIndex) == DecodeBody(old(buf.data), old(buf.readerIndex))
      ensures body == BodyAfterRead(old(body), old(buf.data), old(buf.readerIndex))
    {
      var longDistance :- buf.ReadBool();
      body := body.(longDistance := longDistance);
      var x :- buf.ReadDouble();
      var y :- buf.ReadDouble();
      var z :- buf.ReadDouble();
      body := body.(x := x, y := y, z := z);
      var ox :- buf.Read(DecodeFloat);
      var oy :- buf.Read(DecodeFloat);
      var oz :- buf.Read(DecodeFloat);
      body := body.(offsetX := ox, offsetY := oy, offsetZ := oz);
      var maxSpeed :- buf.Read(DecodeFloat);
      body := body.(maxSpeed := maxSpeed);
      var count :- buf.Read(DecodeInt);
      body := body.(count := count);
      r := Ok(());
    }

    /** write(). When the type's data function throws, the id and the body
        have been written already. */
    method Write(buf: ByteBuf, tb: TypesBuilder) returns (r: Result<()>)
      requires ValidBuilder(tb) && Fits(tb, particle.particleType)
      modifies buf
      ensures buf.readerIndex == old(buf.readerIndex)
      ensures r.Ok? <==> Encode(tb, clientVersion, Fields()).Ok?
      ensures r.Ok? ==> buf.data == old(buf.data) + Encode(tb, clientVersion, Fields()).value
      ensures r.Err? ==> r.error == WrongClass &&
                         buf.data == old(buf.data) + EncodeVarInt(GetId(tb, particle.particleType, clientVersion)) + EncodeBody(body)
    {
      var t := particle.particleType;
      buf.WriteVarInt(GetId(tb, t, clientVersion));
      WriteBody(buf, body);
      match t.kind {
        case NoData =>
        case BlockStateKind =>
          if !particle.data.BlockStateData? {
            return Err(WrongClass);
          }
          WriteBlockStateData(buf, particle.data.blockState);
      }
      r := Ok(());
    }

    method Copy(w: WrapperPlayServerParticle)
      modifies this
      ensures Fields() == w.Fields()
    {
      particle, body := w.particle, w.body;
    }
  }
}
