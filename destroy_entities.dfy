/** WrapperPlayServerDestroyEntities: the ids of the entities the client
    should forget, as a varint count followed by that many varints. */
module DestroyEntities {
  import opened JavaTypes
  import opened Wire
  import opened Versions
  import opened Buffers

  /** The ids one after another, each as a varint, in order. */
  function EncodeIds(ids: seq<int32>): (e: Bytes)
    ensures |e| >= |ids|
  {
    if |ids| == 0 then [] else EncodeIds(ids[..|ids| - 1]) + EncodeVarInt(ids[|ids| - 1])
  }

  /** `n` varints read one after another. */
  function DecodeIds(s: Bytes, pos: nat, n: nat): (r: Parsed<seq<int32>>)
    ensures r.Parsed? ==> |r.value| == n && r.next >= pos + n
  {
    if n == 0 then Parsed([], pos)
    else
      var (ids, p) :- DecodeIds(s, pos, n - 1);
      var (id, q) :- DecodeVarInt(s, p);
      Parsed(ids + [id], q)
  }

  /** write(): the length of the array, then the ids. */
  function Encode(ids: seq<int32>): (e: Bytes)
    requires |ids| < 0x8000_0000
  {
    EncodeVarInt(|ids|) + EncodeIds(ids)
  }

  /** read(): a count, refused when negative as `new int[count]` refuses
      it, then that many ids. */
  function Decode(s: Bytes, pos: nat): (r: Parsed<seq<int32>>)
  {
    var (count, p1) :- DecodeVarInt(s, pos);
    if count < 0 then Failed(NegativeLength) else DecodeIds(s, p1, count)
  }

  /** One more read after `n - 1` successful ones. */
  lemma DecodeIdsStep(s: Bytes, pos: nat, n: nat, ids: seq<int32>, p: nat, id: int32, q: nat)
    requires n > 0
    requires DecodeIds(s, pos, n - 1) == Parsed(ids, p) && DecodeVarInt(s, p) == Parsed(id, q)
    ensures DecodeIds(s, pos, n) == Parsed(ids + [id], q)
  {
  }

  /** The last id's read completes the list. */
  lemma DecodeIdsLast(s: Bytes, pos: nat, ids: seq<int32>, p: nat, q: nat)
    requires |ids| > 0
    requires DecodeIds(s, pos, |ids| - 1) == Parsed(ids[..|ids| - 1], p)
    requires DecodeVarInt(s, p) == Parsed(ids[|ids| - 1], q)
    ensures DecodeIds(s, pos, |ids|) == Parsed(ids, q)
  {
    DecodeIdsStep(s, pos, |ids|, ids[..|ids| - 1], p, ids[|ids| - 1], q);
    assert ids[..|ids| - 1] + [ids[|ids| - 1]] == ids;
  }

  /** Where write() put the earlier ids and the last one. */
  lemma IdsLayout(s: Bytes, pos: nat, ids: seq<int32>)
    requires |ids| > 0 && At(s, pos, EncodeIds(ids))
    ensures At(s, pos, EncodeIds(ids[..|ids| - 1]))
    ensures At(s, pos + |EncodeIds(ids[..|ids| - 1])|, EncodeVarInt(ids[|ids| - 1]))
    ensures |EncodeIds(ids)| == |EncodeIds(ids[..|ids| - 1])| + |EncodeVarInt(ids[|ids| - 1])|
  {
    AtConcat(s, pos, EncodeIds(ids[..|ids| - 1]), EncodeVarInt(ids[|ids| - 1]));
  }

  lemma {:induction false} IdsRoundTrip(s: Bytes, pos: nat, ids: seq<int32>)
    requires At(s, pos, EncodeIds(ids))
    ensures DecodeIds(s, pos, |ids|) == Parsed(ids, pos + |EncodeIds(ids)|)
  {
    if |ids| > 0 {
      var init, last := ids[..|ids| - 1], ids[|ids| - 1];
      var p := pos + |EncodeIds(init)|;
      IdsLayout(s, pos, ids);
      IdsRoundTrip(s, pos, init);
      VarIntRoundTrip(s, p, last);
      DecodeIdsLast(s, pos, ids, p, pos + |EncodeIds(ids)|);
    }
  }

  /** read() in order: the count, then that many ids. */
  lemma DecodeInOrder(s: Bytes, pos: nat, ids: seq<int32>, p1: nat, p2: nat)
    requires |ids| < 0x8000_0000
    requires DecodeVarInt(s, pos) == Parsed(|ids|, p1) && DecodeIds(s, p1, |ids|) == Parsed(ids, p2)
    ensures Decode(s, pos) == Parsed(ids, p2)
  {
  }

  /** read() after write() returns the same ids in the same order,
      whatever follows in the buffer. */
  lemma RoundTrip(ids: seq<int32>, s: Bytes, pos: nat)
    requires |ids| < 0x8000_0000
    requires At(s, pos, Encode(ids))
    ensures Decode(s, pos) == Parsed(ids, pos + |Encode(ids)|)
  {
    var p1 := pos + |EncodeVarInt(|ids|)|;
    AtConcat(s, pos, EncodeVarInt(|ids|), EncodeIds(ids));
    VarIntRoundTrip(s, pos, |ids|);
    IdsRoundTrip(s, p1, ids);
    DecodeInOrder(s, pos, ids, p1, pos + |Encode(ids)|);
  }

  /** Once one of the reads fails, so does every longer run of reads, with
      the same error. */
  lemma {:induction false} DecodeIdsFailed(s: Bytes, pos: nat, i: nat, n: nat)
    requires i <= n && DecodeIds(s, pos, i).Failed?
    ensures DecodeIds(s, pos, n) == Failed(DecodeIds(s, pos, i).error)
    decreases n
  {
    if n > i {
      DecodeIdsFailed(s, pos, i, n - 1);
    }
  }

  /** What a read that fails at an id leaves in the array: the `i` ids read
      before the failing one, then the zeros of `new int[count]`. */
  predicate FailedAt(s: Bytes, start: nat, a: seq<int32>, i: nat)
  {
    && i < |a|
    && DecodeIds(s, start, i).Parsed?
    && DecodeIds(s, start, i).value == a[..i]
    && DecodeVarInt(s, DecodeIds(s, start, i).next).Failed?
    && forall j :: i <= j < |a| ==> a[j] == 0
  }

  class WrapperPlayServerDestroyEntities {
    /** The running server's version, consulted by the transformation. */
    const serverVersion: Version
    var entityIDs: array<int32>

    /** The varargs constructor keeps the caller's array itself. */
    constructor (serverVersion: Version, entityIDs: array<int32>)
      ensures this.serverVersion == serverVersion && this.entityIDs == entityIDs
    {
      this.serverVersion := serverVersion;
      this.entityIDs := entityIDs;
    }

    /** The single-id constructor: a new one-element array. */
    constructor Single(serverVersion: Version, entityID: int32)
      ensures this.serverVersion == serverVersion
      ensures fresh(entityIDs) && entityIDs[..] == [entityID]
    {
      this.serverVersion := serverVersion;
      var ids := new int32[1];
      ids[0] := entityID;
      entityIDs := ids;
    }

    /** read(): a count, a new array of that size, then one varint per
        element, in order. */
    method Read(buf: ByteBuf) returns (r: Result<()>)
      modifies this, buf
      ensures buf.data == old(buf.data)
      ensures Reports(r, Decode(old(buf.data), old(buf.readerIndex)))
      ensures r.Ok? ==> fresh(entityIDs) &&
                        Parsed(entityIDs[..], buf.readerIndex) == Decode(old(buf.data), old(buf.readerIndex))
      ensures var c := DecodeVarInt(old(buf.data), old(buf.readerIndex));
              r.Err? && (c.Failed? || c.value < 0) ==> entityIDs == old(entityIDs)
      ensures var c := DecodeVarInt(old(buf.data), old(buf.readerIndex));
              r.Err? && c.Parsed? && c.value >= 0 ==>
                fresh(entityIDs) && entityIDs.Length == c.value &&
                exists i :: FailedAt(old(buf.data), c.next, entityIDs[..], i)
    {
      var count :- buf.ReadVarInt();
      if count < 0 {
        return Err(NegativeLength);
      }
      var start := buf.readerIndex;
      var ids := new int32[count](_ => 0);
      entityIDs := ids;
      var i := 0;
      while i < count
        invariant 0 <= i <= count && buf.data == old(buf.data) && entityIDs == ids && fresh(ids)
        invariant DecodeIds(buf.data, start, i) == Parsed(ids[..i], buf.readerIndex)
        invariant forall j :: i <= j < count ==> ids[j] == 0
      {
        var next := buf.ReadVarInt();
        if next.Err? {
          DecodeIdsFailed(buf.data, start, i + 1, count);
          assert FailedAt(buf.data, start, ids[..], i);
          return Err(next.error);
        }
        ids[i] := next.value;
        assert ids[..i + 1] == ids[..i] + [next.value];
        i := i + 1;
      }
      assert ids[..count] == ids[..];
      r := Ok(());
    }

    /** write(): the length, then each id in array order. A Java array
        holds fewer than 2^31 elements. */
    method Write(buf: ByteBuf)
      requires entityIDs.Length < 0x8000_0000
      modifies buf
      ensures buf.readerIndex == old(buf.readerIndex)
      ensures buf.data == old(buf.data) + Encode(entityIDs[..])
    {
      buf.WriteVarInt(entityIDs.Length);
      var i := 0;
      while i < entityIDs.Length
        invariant 0 <= i <= entityIDs.Length && buf.readerIndex == old(buf.readerIndex)
        invariant buf.data == old(buf.data) + EncodeVarInt(entityIDs.Length) + EncodeIds(entityIDs[..i])
      {
        buf.WriteVarInt(entityIDs[i]);
        assert entityIDs[..i + 1][..i] == entityIDs[..i];
        i := i + 1;
      }
      assert entityIDs[..entityIDs.Length] == entityIDs[..];
    }

    /** copy(): shares the other wrapper's array. */
    method Copy(w: WrapperPlayServerDestroyEntities)
      modifies this
      ensures entityIDs == w.entityIDs
    {
      entityIDs := w.entityIDs;
    }
  }
}
