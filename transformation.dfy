/** PacketTransformationUtil.transform: on a 1.17 server a destroy-entities
    packet carries a single id, so a wrapper holding several is split into
    one wrapper per id. Every other wrapper passes through alone. */
module PacketTransformation {
  import opened JavaTypes
  import opened Versions
  import opened DestroyEntities

  /** The wrappers transform() tells apart: destroy-entities, and any other
      wrapper (entity equipment included, whose branch does nothing),
      identified by a number. */
  datatype Wrapper = Destroy(destroy: WrapperPlayServerDestroyEntities) | Other(id: nat)

  /** The one case that is split: a destroy-entities wrapper on exactly
      1.17 with more than one id. */
  predicate Splits(w: Wrapper)
    reads if w.Destroy? then {w.destroy} else {}
  {
    w.Destroy? && w.destroy.serverVersion == V_1_17 && w.destroy.entityIDs.Length > 1
  }

  /** One single-element id list per id, in order. */
  function Singletons(ids: seq<int32>): (r: seq<seq<int32>>)
    ensures |r| == |ids|
    ensures forall i :: 0 <= i < |ids| ==> r[i] == [ids[i]]
  {
    if |ids| == 0 then [] else [[ids[0]]] + Singletons(ids[1..])
  }

  /** The id lists of several packets, one after another. */
  function Flatten(xss: seq<seq<int32>>): seq<int32>
  {
    if |xss| == 0 then [] else xss[0] + Flatten(xss[1..])
  }

  /** Concatenating the ids of the split packets, in order, gives back the
      ids of the packet that was split. */
  lemma {:induction false} FlattenSingletons(ids: seq<int32>)
    ensures Flatten(Singletons(ids)) == ids
  {
    if |ids| > 0 {
      assert Singletons(ids)[1..] == Singletons(ids[1..]);
      FlattenSingletons(ids[1..]);
      assert [ids[0]] + ids[1..] == ids;
    }
  }

  /** transform(): the split fills a new array, element i a new wrapper
      over a new one-element array holding id i; otherwise a one-element
      array holding the input itself. */
  method Transform(w: Wrapper) returns (output: array<Wrapper>)
    ensures fresh(output)
    ensures !Splits(w) ==> output[..] == [w]
    ensures Splits(w) ==> output.Length == w.destroy.entityIDs.Length
    ensures Splits(w) ==> forall i :: 0 <= i < output.Length ==>
              output[i].Destroy? && fresh(output[i].destroy) &&
              output[i].destroy.serverVersion == w.destroy.serverVersion &&
              output[i].destroy.entityIDs[..] == Singletons(w.destroy.entityIDs[..])[i]
  {
    if w.Destroy? {
      var ids := w.destroy.entityIDs;
      var len := ids.Length;
      if w.destroy.serverVersion == V_1_17 && len > 1 {
        output := new Wrapper[len](_ => w);
        for i := 0 to len
          invariant forall j :: 0 <= j < i ==>
                      output[j].Destroy? && fresh(output[j].destroy) && fresh(output[j].destroy.entityIDs) &&
                      output[j].destroy.serverVersion == w.destroy.serverVersion &&
                      output[j].destroy.entityIDs[..] == [ids[j]]
        {
          var d := new WrapperPlayServerDestroyEntities.Single(w.destroy.serverVersion, ids[i]);
          output[i] := Destroy(d);
        }
        return;
      }
    }
    output := new Wrapper[1](_ => w);
  }
}
