/** DimensionType: the four hard-coded dimensions with their numeric ids and
    names, looked up by position in values() or by name. */
module Dimensions {
  import opened JavaTypes

  datatype DimensionType = Nether | Overworld | End | Custom

  /** getId(). */
  function Id(t: DimensionType): int32
  {
    match t
    case Nether => -1
    case Overworld => 0
    case End => 1
    case Custom => -999
  }

  /** getName(). */
  function Name(t: DimensionType): string
  {
    match t
    case Nether => "minecraft:the_nether"
    case Overworld => "minecraft:overworld"
    case End => "minecraft:the_end"
    case Custom => "minecraft:custom"
  }

  /** VALUES: the constants in declaration order. */
  const Values: seq<DimensionType> := [Nether, Overworld, End, Custom]

  /** Every constant is in VALUES. */
  lemma ValuesComplete(t: DimensionType)
    ensures t in Values
  {
  }

  /** getById(id): `VALUES[id + 1]`, the position and not a search by id.
      An index outside the array throws, which is None here. */
  function GetById(id: int): (r: Option<DimensionType>)
    ensures r.Some? <==> -1 <= id <= 2
    ensures r.Some? ==> r.value == Values[id + 1]
  {
    if 0 <= id + 1 < |Values| then Some(Values[id + 1]) else None
  }

  /** The three game dimensions are found by their own ids, because each
      sits one place after its id. */
  lemma GetByOwnId(t: DimensionType)
    requires t != Custom
    ensures GetById(Id(t)) == Some(t)
  {
  }

  /** CUSTOM is not: its id -999 is out of range, and position 3, reached by
      id 2, holds it instead. */
  lemma CustomById()
    ensures GetById(Id(Custom)) == None
    ensures GetById(2) == Some(Custom)
    ensures forall t :: Id(t) != 2
  {
  }

  /** No two constants share a name. */
  lemma NamesDistinct(t: DimensionType, u: DimensionType)
    ensures Name(t) == Name(u) ==> t == u
  {
  }

  /** getByName(name): the first constant of VALUES whose name equals
      `name`, or null. */
  method GetByName(name: string) returns (r: Option<DimensionType>)
    ensures r.Some? <==> exists t :: Name(t) == name
    ensures r.Some? ==> Name(r.value) == name
    ensures forall t :: Name(t) == name ==> r == Some(t)
  {
    for i := 0 to |Values|
      invariant forall j :: 0 <= j < i ==> Name(Values[j]) != name
    {
      if Name(Values[i]) == name {
        NamesAreUnique(Values[i], name);
        return Some(Values[i]);
      }
    }
    forall t: DimensionType
      ensures Name(t) != name
    {
      ValuesComplete(t);
    }
    r := None;
  }

  lemma NamesAreUnique(t: DimensionType, name: string)
    requires Name(t) == name
    ensures forall u :: Name(u) == name ==> u == t
  {
    forall u | Name(u) == name
      ensures u == t
    {
      NamesDistinct(t, u);
    }
  }
}
