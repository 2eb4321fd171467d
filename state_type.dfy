/** StateType: an immutable description of a kind of block (its name, blast
    resistance, hardness, flags and material), with the replaceability
    classification by material and an equals() over the fields. */
module StateTypes {
  import opened JavaTypes
  import opened Wire

  /** MaterialType, which is not part of this model: the ten materials
      isReplaceable() names, and every other material as Other. */
  datatype MaterialType =
    | Air | StructuralAir
    | ReplaceablePlant | ReplaceableFireproofPlant | ReplaceableWaterPlant
    | Water | BubbleColumn | Lava | TopSnow | Fire
    | Other(name: string)

  /** isReplaceable(): the switch over the material. */
  predicate Replaceable(m: MaterialType)
  {
    match m
    case Air | StructuralAir => true
    case ReplaceablePlant | ReplaceableFireproofPlant | ReplaceableWaterPlant => true
    case Water | BubbleColumn | Lava | TopSnow | Fire => true
    case Other(_) => false
  }

  /** A float is NaN when its exponent bits are all ones and its fraction
      bits are not all zero. */
  predicate IsNaN(f: FloatBits)
  {
    (f / 0x80_0000) % 0x100 == 0xFF && f % 0x80_0000 != 0
  }

  /** floatToIntBits: every NaN collapses to the canonical 0x7fc00000; any
      other pattern is kept. */
  function CanonicalBits(f: FloatBits): (c: FloatBits)
  {
    if IsNaN(f) then 0x7fc0_0000 else f
  }

  /** `Float.compare(a, b) == 0`: equal after canonicalising NaNs, so all
      NaNs are equal to each other, while 0.0 and -0.0 differ. */
  predicate FloatSame(a: FloatBits, b: FloatBits)
  {
    CanonicalBits(a) == CanonicalBits(b)
  }

  lemma FloatSameCases(a: FloatBits, b: FloatBits)
    ensures IsNaN(a) && IsNaN(b) ==> FloatSame(a, b)
    ensures !IsNaN(a) ==> (FloatSame(a, b) <==> a == b)
    ensures !FloatSame(0x0000_0000, 0x8000_0000)
  {
  }

  class StateType {
    const name: string
    const blastResistance: FloatBits
    const hardness: FloatBits
    const isSolid: bool
    const isBlocking: bool
    const isAir: bool
    const requiresCorrectTool: bool
    const exceedsCube: bool
    const materialType: MaterialType

    constructor (name: string, blastResistance: FloatBits, hardness: FloatBits, isSolid: bool, isBlocking: bool,
                 isAir: bool, requiresCorrectTool: bool, isShapeExceedsCube: bool, materialType: MaterialType)
      ensures this.name == name && this.blastResistance == blastResistance && this.hardness == hardness
      ensures this.isSolid == isSolid && this.isBlocking == isBlocking && this.isAir == isAir
      ensures this.requiresCorrectTool == requiresCorrectTool && this.exceedsCube == isShapeExceedsCube
      ensures this.materialType == materialType
      ensures ToString() == name
    {
      this.name := name;
      this.blastResistance := blastResistance;
      this.hardness := hardness;
      this.isSolid := isSolid;
      this.isBlocking := isBlocking;
      this.isAir := isAir;
      this.requiresCorrectTool := requiresCorrectTool;
      this.exceedsCube := isShapeExceedsCube;
      this.materialType := materialType;
    }

    /** isReplaceable(). */
    predicate IsReplaceable()
    {
      Replaceable(materialType)
    }

    /** toString(): the name. */
    function ToString(): string
    {
      name
    }
  }

  /** The comparison equals() ends with: the same name, the same floats
      by Float.compare, and equal flags and material. */
  predicate SameFields(a: StateType, b: StateType)
  {
    a.name == b.name && FloatSame(a.blastResistance, b.blastResistance) && FloatSame(a.hardness, b.hardness) &&
    a.isSolid == b.isSolid && a.isBlocking == b.isBlocking && a.isAir == b.isAir &&
    a.requiresCorrectTool == b.requiresCorrectTool && a.exceedsCube == b.exceedsCube &&
    a.materialType == b.materialType
  }

  /** SameFields is an equivalence. */
  lemma SameFieldsEquivalence(a: StateType, b: StateType, c: StateType)
    ensures SameFields(a, a)
    ensures SameFields(a, b) ==> SameFields(b, a)
    ensures SameFields(a, b) && SameFields(b, c) ==> SameFields(a, c)
  {
  }

  /** The argument of equals(): null, a StateType (of exactly that class or
      of a subclass), or an object of an unrelated class. */
  datatype Arg = NullRef | State(s: StateType, exactClass: bool) | Unrelated

  /** equals(other) as written, on a receiver of class StateType: the
      same reference is equal; `other.getClass()` throws on null; then an
      argument of the SAME class is unequal, and only an argument of
      another class goes on to the cast (throwing for an unrelated class)
      and the comparison of fields. */
  function EqualsAsWritten(self: StateType, other: Arg): (r: Result<bool>)
    ensures other == State(self, true) ==> r == Ok(true)
    ensures other.State? && other.s != self && other.exactClass ==> r == Ok(false)
    ensures other.NullRef? ==> r == Err(NullValue)
    ensures other.Unrelated? ==> r == Err(WrongClass)
  {
    if other.State? && other.s == self then Ok(true)
    else if other.NullRef? then Err(NullValue)
    else if other.State? && other.exactClass then Ok(false)
    else if other.Unrelated? then Err(WrongClass)
    else Ok(SameFields(self, other.s))
  }

  /** equals(other) as evidently intended, with the class test negated:
      an argument of another class is unequal, one of the same class is
      compared field by field. */
  function Equals(self: StateType, other: Arg): (r: Result<bool>)
    ensures other.State? && other.exactClass ==> r == Ok(SameFields(self, other.s))
    ensures other.State? && !other.exactClass ==> r == Ok(other.s == self)
    ensures other.NullRef? ==> r == Err(NullValue)
    ensures other.Unrelated? ==> r == Ok(false)
  {
    if other.State? && other.s == self then Ok(true)
    else if other.NullRef? then Err(NullValue)
    else if !(other.State? && other.exactClass) then Ok(false)
    else Ok(SameFields(self, other.s))
  }

  /** As written, equals() between two StateType objects is reference
      identity: fields never decide. */
  lemma AsWrittenIsIdentity(a: StateType, b: StateType)
    ensures EqualsAsWritten(a, State(b, true)) == Ok(a == b)
  {
  }

  /** So two distinct StateType objects with every field equal are
      unequal as written, and equal as intended. */
  lemma AsWrittenMissesEqualFields(a: StateType, b: StateType)
    requires a != b && SameFields(a, b)
    ensures EqualsAsWritten(a, State(b, true)) == Ok(false)
    ensures Equals(a, State(b, true)) == Ok(true)
  {
  }

  /** The intended equals() is an equivalence on StateType objects that
      agrees with field equality. */
  lemma EqualsIsEquivalence(a: StateType, b: StateType, c: StateType)
    ensures Equals(a, State(a, true)) == Ok(true)
    ensures Equals(a, State(b, true)) == Equals(b, State(a, true))
    ensures Equals(a, State(b, true)) == Ok(true) && Equals(b, State(c, true)) == Ok(true) ==>
              Equals(a, State(c, true)) == Ok(true)
  {
    SameFieldsEquivalence(a, b, c);
  }
}
