/** ParticleTypes: the registry of particle types, by name and by
    (data index of a client version, numeric id), and the particle data the
    types read and write. ParticleBlockStateData is the one data class
    modelled: a block state carried as its global id. */
module ParticleTypes {
  import opened JavaTypes
  import opened Wire
  import opened Versions
  import opened Buffers

  /** A WrappedBlockState, carried as the global id getGlobalId returns;
      getByGlobalId is taken to give back the state of that id. */
  datatype BlockState = BlockState(globalId: int32)

  /** The particle data a type reads and writes: nothing, for the types
      defined with one argument, or a block state. */
  datatype ParticleData = Empty | BlockStateData(blockState: BlockState)

  /** The pair of data functions a type was defined with. */
  datatype DataKind = NoData | BlockStateKind

  /** LegacyParticleData.ofOne: legacy data of a single value. */
  datatype LegacyParticleData = LegacyOne(value: int32)

  /** A defined type: its name, its id per data index, and its data
      functions. */
  datatype ParticleType = ParticleType(name: string, ids: seq<int32>, kind: DataKind)

  /** The part of TypesBuilder the registry uses: the versions it knows,
      the data index of every client version, and the number of data
      indices, one id per index in every type's id array. */
  datatype TypesBuilder = TypesBuilder(versions: seq<Version>, dataIndex: Version -> nat, indexCount: nat)

  /** A builder whose data indices all fall within the id arrays. */
  ghost predicate ValidBuilder(b: TypesBuilder)
  {
    forall v :: b.dataIndex(v) < b.indexCount
  }

  /** A type defined through `b`: an id for every data index. */
  predicate Fits(b: TypesBuilder, t: ParticleType)
  {
    |t.ids| == b.indexCount
  }

  /** getId(version): the id at the version's data index. */
  function GetId(b: TypesBuilder, t: ParticleType, v: Version): (id: int32)
    requires ValidBuilder(b) && Fits(b, t)
  {
    t.ids[b.dataIndex(v)]
  }

  /** Versions with the same data index share every type's id. */
  lemma SharedIndexSharesId(b: TypesBuilder, t: ParticleType, v: Version, w: Version)
    requires ValidBuilder(b) && Fits(b, t)
    requires b.dataIndex(v) == b.dataIndex(w)
    ensures GetId(b, t, v) == GetId(b, t, w)
  {
  }

  /** The key of a version's bucket: the data index cast to a byte. */
  function Bucket(b: TypesBuilder, v: Version): int8
  {
    ToInt8(b.dataIndex(v))
  }

  /** equals(): two types are equal when their names are. */
  predicate Equals(t: ParticleType, u: ParticleType)
  {
    t.name == u.name
  }

  /** equals() is an equivalence that ignores the ids and the data
      functions. */
  lemma EqualsByName(t: ParticleType, u: ParticleType, w: ParticleType)
    ensures Equals(t, t)
    ensures Equals(t, u) ==> Equals(u, t)
    ensures Equals(t, u) && Equals(u, w) ==> Equals(t, w)
    ensures Equals(t, t.(ids := u.ids, kind := u.kind))
  {
  }

  type IdMap = map<int8, map<int32, ParticleType>>

  /** One `computeIfAbsent(key, new map).put(id, t)`. */
  function Put(byId: IdMap, key: int8, id: int32, t: ParticleType): (r: IdMap)
    ensures key in r && id in r[key] && r[key][id] == t
  {
    byId[key := (if key in byId then byId[key] else map[])[id := t]]
  }

  /** The id map after define's loop has filed `t` for the versions `vs`,
      in order. */
  function Filed(b: TypesBuilder, byId: IdMap, t: ParticleType, vs: seq<Version>): IdMap
    requires ValidBuilder(b) && Fits(b, t)
  {
    if |vs| == 0 then byId
    else
      var v := vs[|vs| - 1];
      Put(Filed(b, byId, t, vs[..|vs| - 1]), Bucket(b, v), GetId(b, t, v), t)
  }

  /** After the loop, each version's bucket maps the type's id in that
      version to the type. */
  lemma {:induction false} FiledFinds(b: TypesBuilder, byId: IdMap, t: ParticleType, vs: seq<Version>, v: Version)
    requires ValidBuilder(b) && Fits(b, t) && v in vs
    ensures var m := Filed(b, byId, t, vs);
            Bucket(b, v) in m && GetId(b, t, v) in m[Bucket(b, v)] && m[Bucket(b, v)][GetId(b, t, v)] == t
  {
    var last := vs[|vs| - 1];
    if v != last || Bucket(b, v) != Bucket(b, last) || GetId(b, t, v) != GetId(b, t, last) {
      assert v in vs[..|vs| - 1] by {
        if v == last {
          assert false;
        }
        var i :| 0 <= i < |vs| && vs[i] == v;
        assert vs[..|vs| - 1][i] == v;
      }
      FiledFinds(b, byId, t, vs[..|vs| - 1], v);
    }
  }

  /** The loop only adds: every entry it does not overwrite stays, and
      every bucket stays. */
  lemma {:induction false} FiledKeeps(b: TypesBuilder, byId: IdMap, t: ParticleType, vs: seq<Version>,
                                      key: int8, id: int32)
    requires ValidBuilder(b) && Fits(b, t)
    requires key in byId && id in byId[key]
    requires forall i :: 0 <= i < |vs| ==> Bucket(b, vs[i]) != key || GetId(b, t, vs[i]) != id
    ensures var m := Filed(b, byId, t, vs);
            key in m && id in m[key] && m[key][id] == byId[key][id]
  {
    if |vs| > 0 {
      FiledKeeps(b, byId, t, vs[..|vs| - 1], key, id);
    }
  }

  /** getById: the bucket of the version's data index, null when no type
      was ever filed there (so the lookup itself throws), then the id in
      it, null when absent. */
  function LookupId(b: TypesBuilder, byId: IdMap, v: Version, id: int32): (r: Result<Option<ParticleType>>)
    ensures r.Err? <==> Bucket(b, v) !in byId
    ensures r.Err? ==> r.error == NullValue
    ensures r.Ok? && r.value.Some? <==> Bucket(b, v) in byId && id in byId[Bucket(b, v)]
    ensures r.Ok? && r.value.Some? ==> r.value.value == byId[Bucket(b, v)][id]
  {
    var key := Bucket(b, v);
    if key !in byId then Err(NullValue)
    else if id in byId[key] then Ok(Some(byId[key][id]))
    else Ok(None)
  }

  /** The static registry: PARTICLE_TYPE_MAP and PARTICLE_TYPE_ID_MAP. */
  class ParticleRegistry {
    const builder: TypesBuilder
    var byName: map<string, ParticleType>
    var byId: IdMap

    /** Every filed type has an id for every data index. */
    ghost predicate Valid()
      reads this
    {
      ValidBuilder(builder) &&
      forall key, id :: key in byId && id in byId[key] ==> Fits(builder, byId[key][id])
    }

    constructor (builder: TypesBuilder)
      requires ValidBuilder(builder)
      ensures this.builder == builder && byName == map[] && byId == map[] && Valid()
    {
      this.builder := builder;
      byName := map[];
      byId := map[];
    }

    /** define(key, read, write): the type goes into the name map, then
        into the bucket of every known version under its id there. The
        ids come from the builder's mappings, one per data index. */
    method Define(name: string, ids: seq<int32>, kind: DataKind) returns (t: ParticleType)
      requires Valid() && |ids| == builder.indexCount
      modifies this
      ensures Valid()
      ensures t == ParticleType(name, ids, kind)
      ensures byName == old(byName)[name := t]
      ensures byId == Filed(builder, old(byId), t, builder.versions)
    {
      t := ParticleType(name, ids, kind);
      byName := byName[name := t];
      var versions := builder.versions;
      for i := 0 to |versions|
        invariant byName == old(byName)[name := t]
        invariant byId == Filed(builder, old(byId), t, versions[..i])
        invariant Valid()
      {
        var v := versions[i];
        var key := Bucket(builder, v);
        var typeIdMap := if key in byId then byId[key] else map[];
        byId := byId[key := typeIdMap[GetId(builder, t, v) := t]];
        assert versions[..i + 1][..i] == versions[..i];
      }
      assert versions[..|versions|] == versions;
    }

    /** getByName. */
    function GetByName(name: string): (r: Option<ParticleType>)
      reads this
      ensures r.Some? <==> name in byName
      ensures r.Some? ==> r.value == byName[name]
    {
      if name in byName then Some(byName[name]) else None
    }

    /** getById(version, id). */
    function GetById(v: Version, id: int32): Result<Option<ParticleType>>
      reads this
    {
      LookupId(builder, byId, v, id)
    }
  }

  /** What define() leaves: the type is found by its name, and in every
      known version by its id there. A later define that files another
      type under the same bucket and id replaces it; entries of other
      buckets and ids are kept. */
  lemma DefineFinds(b: TypesBuilder, byId: IdMap, t: ParticleType, v: Version)
    requires ValidBuilder(b) && Fits(b, t) && v in b.versions
    ensures LookupId(b, Filed(b, byId, t, b.versions), v, GetId(b, t, v)) == Ok(Some(t))
  {
    FiledFinds(b, byId, t, b.versions, v);
  }

  /** Last write wins: after `u` is defined, a bucket and id `t` shared
      with it give `u`. */
  lemma LaterDefineWins(b: TypesBuilder, byId: IdMap, t: ParticleType, u: ParticleType, v: Version)
    requires ValidBuilder(b) && Fits(b, t) && Fits(b, u) && v in b.versions
    requires GetId(b, u, v) == GetId(b, t, v)
    ensures LookupId(b, Filed(b, Filed(b, byId, t, b.versions), u, b.versions), v, GetId(b, t, v)) == Ok(Some(u))
  {
    FiledFinds(b, Filed(b, byId, t, b.versions), u, b.versions, v);
  }

  /** A later define that takes none of `t`'s places keeps `t` findable. */
  lemma EarlierDefineKept(b: TypesBuilder, byId: IdMap, t: ParticleType, u: ParticleType, v: Version)
    requires ValidBuilder(b) && Fits(b, t) && Fits(b, u) && v in b.versions
    requires forall i :: 0 <= i < |b.versions| ==>
               Bucket(b, b.versions[i]) != Bucket(b, v) || GetId(b, u, b.versions[i]) != GetId(b, t, v)
    ensures LookupId(b, Filed(b, Filed(b, byId, t, b.versions), u, b.versions), v, GetId(b, t, v)) == Ok(Some(t))
  {
    FiledFinds(b, byId, t, b.versions, v);
    FiledKeeps(b, Filed(b, byId, t, b.versions), u, b.versions, Bucket(b, v), GetId(b, t, v));
  }

  // ------------------------------------------------------- particle data

  /** The data function a type was defined with, reading. The one-argument
      define reads nothing and gives empty data; ParticleBlockStateData.read
      reads one varint, the global id. */
  function DecodeData(kind: DataKind, s: Bytes, pos: nat): Parsed<ParticleData>
  {
    match kind
    case NoData => Parsed(Empty, pos)
    case BlockStateKind =>
      var (id, p) :- DecodeVarInt(s, pos);
      Parsed(BlockStateData(BlockState(id)), p)
  }

  /** The data function, writing. The one-argument define writes nothing;
      the block-state types cast the data, so other data throws. */
  function EncodeData(kind: DataKind, d: ParticleData): (r: Result<Bytes>)
    ensures r.Err? <==> kind.BlockStateKind? && !d.BlockStateData?
    ensures r.Err? ==> r.error == WrongClass
  {
    match kind
    case NoData => Ok([])
    case BlockStateKind =>
      if d.BlockStateData? then Ok(EncodeVarInt(d.blockState.globalId)) else Err(WrongClass)
  }

  /** The data read() gives back for `d`: a type without data functions
      always reads empty data. */
  function Received(kind: DataKind, d: ParticleData): ParticleData
  {
    if kind.NoData? then Empty else d
  }

  /** A one-argument type reads empty data and writes no bytes. */
  lemma NoDataIsEmpty(s: Bytes, pos: nat, d: ParticleData)
    ensures DecodeData(NoData, s, pos) == Parsed(Empty, pos)
    ensures EncodeData(NoData, d) == Ok([])
  {
  }

  lemma DataRoundTrip(kind: DataKind, d: ParticleData, s: Bytes, pos: nat, e: Bytes)
    requires EncodeData(kind, d) == Ok(e) && At(s, pos, e)
    ensures DecodeData(kind, s, pos) == Parsed(Received(kind, d), pos + |e|)
  {
    if kind.BlockStateKind? {
      VarIntRoundTrip(s, pos, d.blockState.globalId);
    }
  }

  /** ParticleBlockStateData.isEmpty: block-state data is never empty. */
  function IsEmpty(d: ParticleData): (r: bool)
    ensures d.BlockStateData? ==> !r
  {
    d.Empty?
  }

  /** ParticleBlockStateData.toLegacy: one value, the global id, whatever
      the version. */
  function ToLegacy(d: ParticleData, v: Version): (r: LegacyParticleData)
    requires d.BlockStateData?
  {
    LegacyOne(d.blockState.globalId)
  }

  /** The legacy value is the number the modern write puts on the wire, and
      reads back as the same block state, in every version. */
  lemma LegacyIsWireValue(d: ParticleData, v: Version, w: Version)
    requires d.BlockStateData?
    ensures ToLegacy(d, v) == ToLegacy(d, w)
    ensures EncodeData(BlockStateKind, d) == Ok(EncodeVarInt(ToLegacy(d, v).value))
    ensures var e := EncodeData(BlockStateKind, d).value;
            DecodeData(BlockStateKind, e, 0) == Parsed(BlockStateData(BlockState(ToLegacy(d, v).value)), |e|)
  {
    var e := EncodeVarInt(d.blockState.globalId);
    VarIntRoundTrip(e, 0, d.blockState.globalId);
  }

  /** ParticleBlockStateData.read: one varint from the wrapper's buffer. */
  method ReadBlockStateData(buf: ByteBuf) returns (r: Result<ParticleData>)
    modifies buf
    ensures buf.data == old(buf.data)
    ensures r == DecodeData(BlockStateKind, old(buf.data), old(buf.readerIndex)).ToResult()
    ensures r.Ok? ==> buf.readerIndex == DecodeData(BlockStateKind, old(buf.data), old(buf.readerIndex)).next
  {
    var id :- buf.ReadVarInt();
    r := Ok(BlockStateData(BlockState(id)));
  }

  /** ParticleBlockStateData.write: the global id as one varint. */
  method WriteBlockStateData(buf: ByteBuf, state: BlockState)
    modifies buf
    ensures buf.readerIndex == old(buf.readerIndex)
    ensures buf.data == old(buf.data) + EncodeData(BlockStateKind, BlockStateData(state)).value
  {
    buf.WriteVarInt(state.globalId);
  }
}
