/** WrapperPlayClientCraftRecipeRequest: the client asks to fill the crafting
    grid from a recipe book entry. The recipe is a numeric id up to 1.12.2
    and a recipe name after it; the packet is empty before 1.12. */
module CraftRecipeRequest {
  import opened JavaTypes
  import opened Wire
  import opened Versions
  import opened Buffers

  /** The recipe field is an Object: null, an Integer or a String. */
  datatype Recipe = NoRecipe | IntRecipe(id: int32) | NameRecipe(name: JString)

  datatype Request = Request(windowId: int32, recipe: Recipe, makeAll: bool)

  /** Versions whose packet carries anything. */
  predicate HasBody(v: Version)
  {
    AtLeast(v, V_1_12)
  }

  /** Versions whose recipe is a string rather than a varint. */
  predicate NamedRecipes(v: Version)
  {
    NewerThan(v, V_1_12_2)
  }

  /** `(String) recipe` as writeString uses it: a non-String throws
      ClassCastException, null a NullPointerException. */
  function AsString(recipe: Recipe): (r: Result<JString>)
    ensures r.Ok? <==> recipe.NameRecipe?
    ensures r.Ok? ==> r.value == recipe.name
    ensures recipe.NoRecipe? ==> r == Err(NullValue)
  {
    match recipe
    case NameRecipe(name) => Ok(name)
    case IntRecipe(_) => Err(WrongClass)
    case NoRecipe => Err(NullValue)
  }

  /** `(Integer) recipe` unboxed for writeVarInt. */
  function AsInteger(recipe: Recipe): (r: Result<int32>)
    ensures r.Ok? <==> recipe.IntRecipe?
    ensures r.Ok? ==> r.value == recipe.id
    ensures recipe.NoRecipe? ==> r == Err(NullValue)
  {
    match recipe
    case IntRecipe(id) => Ok(id)
    case NameRecipe(_) => Err(WrongClass)
    case NoRecipe => Err(NullValue)
  }

  /** The recipe as write() emits it in version `v`. */
  function EncodeRecipe(v: Version, recipe: Recipe): Result<Bytes>
  {
    if NamedRecipes(v) then
      var name :- AsString(recipe);
      EncodeString(name, MAX_STRING_LEN)
    else
      var id :- AsInteger(recipe);
      Ok(EncodeVarInt(id))
  }

  /** write() from 1.12: the window id as a byte, the recipe, makeAll. */
  function Encode(v: Version, q: Request): Result<Bytes>
    requires HasBody(v)
  {
    var recipe :- EncodeRecipe(v, q.recipe);
    Ok(EncodeByte(q.windowId) + recipe + EncodeBool(q.makeAll))
  }

  /** write() succeeds exactly when the recipe is of the version's kind (a
      String after 1.12.2, an Integer up to it) and a name fits
      writeString's limit; a null recipe throws a NullPointerException. */
  lemma EncodeFails(v: Version, q: Request)
    requires HasBody(v)
    ensures Encode(v, q).Ok? <==>
            if NamedRecipes(v) then q.recipe.NameRecipe? && |q.recipe.name| <= MAX_STRING_LEN
            else q.recipe.IntRecipe?
    ensures q.recipe.NoRecipe? ==> Encode(v, q) == Err(NullValue)
    ensures NamedRecipes(v) && q.recipe.IntRecipe? ==> Encode(v, q) == Err(WrongClass)
    ensures !NamedRecipes(v) && q.recipe.NameRecipe? ==> Encode(v, q) == Err(WrongClass)
  {
  }

  function DecodeRecipe(v: Version, s: Bytes, pos: nat): Parsed<Recipe>
  {
    if NamedRecipes(v) then
      var (name, p) :- DecodeString(s, pos, MAX_STRING_LEN);
      Parsed(NameRecipe(name), p)
    else
      var (id, p) :- DecodeVarInt(s, pos);
      Parsed(IntRecipe(id), p)
  }

  /** read() from 1.12: the same three fields in the same order. */
  function Decode(v: Version, s: Bytes, pos: nat): Parsed<Request>
    requires HasBody(v)
  {
    var (windowId, p1) :- DecodeByte(s, pos);
    var (recipe, p2) :- DecodeRecipe(v, s, p1);
    var (makeAll, p3) :- DecodeBool(s, p2);
    Parsed(Request(windowId, recipe, makeAll), p3)
  }

  lemma {:induction false} RecipeRoundTrip(v: Version, recipe: Recipe, s: Bytes, pos: nat, e: Bytes)
    requires EncodeRecipe(v, recipe) == Ok(e) && At(s, pos, e)
    requires recipe.NameRecipe? ==> FitsReadLimit(recipe.name, MAX_STRING_LEN)
    ensures DecodeRecipe(v, s, pos) == Parsed(recipe, pos + |e|)
  {
    if NamedRecipes(v) {
      StringRoundTrip(s, pos, recipe.name, MAX_STRING_LEN);
    } else {
      VarIntRoundTrip(s, pos, recipe.id);
    }
  }

  /** read() in order: three successful reads give the request. */
  lemma DecodeInOrder(v: Version, s: Bytes, pos: nat, q: Request, p1: nat, p2: nat, p3: nat)
    requires HasBody(v)
    requires DecodeByte(s, pos) == Parsed(q.windowId, p1)
    requires DecodeRecipe(v, s, p1) == Parsed(q.recipe, p2)
    requires DecodeBool(s, p2) == Parsed(q.makeAll, p3)
    ensures Decode(v, s, pos) == Parsed(q, p3)
  {
  }

  /** Where write() put each field: the window byte, the recipe after it,
      then the boolean. */
  lemma Layout(v: Version, q: Request, s: Bytes, pos: nat, e: Bytes)
    requires HasBody(v) && Encode(v, q) == Ok(e) && At(s, pos, e)
    ensures EncodeRecipe(v, q.recipe).Ok?
    ensures var b := EncodeRecipe(v, q.recipe).value;
            At(s, pos, EncodeByte(q.windowId)) && At(s, pos + 1, b) &&
            At(s, pos + 1 + |b|, EncodeBool(q.makeAll)) && |e| == |b| + 2
  {
    var b := EncodeRecipe(v, q.recipe).value;
    AtConcat3(s, pos, EncodeByte(q.windowId), b, EncodeBool(q.makeAll));
  }

  /** Each field's reader, at the place its writer used, returns it; the
      window id as the byte it was written as. */
  lemma FieldsRoundTrip(v: Version, q: Request, s: Bytes, pos: nat, b: Bytes)
    requires EncodeRecipe(v, q.recipe) == Ok(b)
    requires At(s, pos, EncodeByte(q.windowId)) && At(s, pos + 1, b) && At(s, pos + 1 + |b|, EncodeBool(q.makeAll))
    requires q.recipe.NameRecipe? ==> FitsReadLimit(q.recipe.name, MAX_STRING_LEN)
    ensures DecodeByte(s, pos) == Parsed(ToInt8(q.windowId), pos + 1)
    ensures DecodeRecipe(v, s, pos + 1) == Parsed(q.recipe, pos + 1 + |b|)
    ensures DecodeBool(s, pos + 1 + |b|) == Parsed(q.makeAll, pos + 2 + |b|)
  {
    ByteRoundTrip(s, pos, q.windowId);
    RecipeRoundTrip(v, q.recipe, s, pos + 1, b);
    BoolRoundTrip(s, pos + 1 + |b|, q.makeAll);
  }

  /** Within each version band, read() after a successful write() restores
      the request; the window id comes back as the byte it was written as,
      which is itself when it is in byte range. */
  lemma RoundTrip(v: Version, q: Request, s: Bytes, pos: nat, e: Bytes)
    requires HasBody(v) && Encode(v, q) == Ok(e) && At(s, pos, e)
    requires q.recipe.NameRecipe? ==> FitsReadLimit(q.recipe.name, MAX_STRING_LEN)
    ensures Decode(v, s, pos) == Parsed(q.(windowId := ToInt8(q.windowId)), pos + |e|)
  {
    Layout(v, q, s, pos, e);
    var b := EncodeRecipe(v, q.recipe).value;
    FieldsRoundTrip(v, q, s, pos, b);
    DecodeInOrder(v, s, pos, q.(windowId := ToInt8(q.windowId)), pos + 1, pos + 1 + |b|, pos + |e|);
  }

  /** A window id in byte range comes back unchanged. */
  lemma RoundTripInRange(v: Version, q: Request, s: Bytes, pos: nat, e: Bytes)
    requires HasBody(v) && Encode(v, q) == Ok(e) && At(s, pos, e)
    requires q.recipe.NameRecipe? ==> FitsReadLimit(q.recipe.name, MAX_STRING_LEN)
    requires -0x80 <= q.windowId < 0x80
    ensures Decode(v, s, pos) == Parsed(q, pos + |e|)
  {
    RoundTrip(v, q, s, pos, e);
    ToInt8Identity(q.windowId);
  }

  /** The fields read() leaves from 1.12 on, whether it completes or not:
      each field takes its value as soon as its own read succeeds, so a
      read that fails keeps the values read before it and the old values
      after. */
  function AfterRead(v: Version, q: Request, s: Bytes, pos: nat): Request
    requires HasBody(v)
  {
    match DecodeByte(s, pos)
    case Failed(_) => q
    case Parsed(windowId, p1) =>
      var q1 := q.(windowId := windowId);
      match DecodeRecipe(v, s, p1)
      case Failed(_) => q1
      case Parsed(recipe, p2) =>
        var q2 := q1.(recipe := recipe);
        match DecodeBool(s, p2)
        case Failed(_) => q2
        case Parsed(makeAll, _) => q2.(makeAll := makeAll)
  }

  /** A read that completes leaves exactly the decoded request, whatever
      the fields held before. */
  lemma AfterReadDecoded(v: Version, q: Request, s: Bytes, pos: nat)
    requires HasBody(v) && Decode(v, s, pos).Parsed?
    ensures AfterRead(v, q, s, pos) == Decode(v, s, pos).value
  {
  }

  /** A packet cut off before makeAll: the read fails there, with the
      window id and the recipe already taken and makeAll kept. */
  lemma TruncatedKeepsMakeAll(v: Version, q: Request, before: Request, e: Bytes)
    requires HasBody(v) && Encode(v, q) == Ok(e)
    requires q.recipe.NameRecipe? ==> FitsReadLimit(q.recipe.name, MAX_STRING_LEN)
    ensures Decode(v, e[..|e| - 1], 0).Failed?
    ensures AfterRead(v, before, e[..|e| - 1], 0) == before.(windowId := ToInt8(q.windowId), recipe := q.recipe)
  {
    var b := EncodeRecipe(v, q.recipe).value;
    var s := e[..|e| - 1];
    assert s == EncodeByte(q.windowId) + b;
    ByteRoundTrip(s, 0, q.windowId);
    RecipeRoundTrip(v, q.recipe, s, 1, b);
  }

  class WrapperPlayClientCraftRecipeRequest {
    const serverVersion: Version
    var windowId: int32
    var recipe: Recipe
    var makeAll: bool

    function Fields(): Request
      reads this
    {
      Request(windowId, recipe, makeAll)
    }

    constructor (serverVersion: Version, windowId: int32, recipe: Recipe, makeAll: bool)
      ensures this.serverVersion == serverVersion && Fields() == Request(windowId, recipe, makeAll)
    {
      this.serverVersion := serverVersion;
      this.windowId := windowId;
      this.recipe := recipe;
      this.makeAll := makeAll;
    }

    /** read(): nothing before 1.12; then byte, recipe, boolean. */
    method Read(buf: ByteBuf) returns (r: Result<()>)
      modifies this, buf
      ensures buf.data == old(buf.data)
      ensures !HasBody(serverVersion) ==> r.Ok? && Fields() == old(Fields()) && buf.readerIndex == old(buf.readerIndex)
      ensures HasBody(serverVersion) ==> Reports(r, Decode(serverVersion, old(buf.data), old(buf.readerIndex)))
      ensures HasBody(serverVersion) && r.Ok? ==>
                Parsed(Fields(), buf.readerIndex) == Decode(serverVersion, old(buf.data), old(buf.readerIndex))
      ensures HasBody(serverVersion) ==> Fields() == AfterRead(serverVersion, old(Fields()), old(buf.data), old(buf.readerIndex))
    {
      if HasBody(serverVersion) {
        windowId :- buf.ReadByte();
        if NamedRecipes(serverVersion) {
          var name :- buf.ReadString(MAX_STRING_LEN);
          recipe := NameRecipe(name);
        } else {
          var id :- buf.ReadVarInt();
          recipe := IntRecipe(id);
        }
        makeAll :- buf.ReadBool();
      }
      r := Ok(());
    }

    /** write(): nothing before 1.12; then byte, recipe, boolean. A recipe
        of the wrong kind throws after the window id byte is out. */
    method Write(buf: ByteBuf) returns (r: Result<()>)
      modifies buf
      ensures buf.readerIndex == old(buf.readerIndex)
      ensures !HasBody(serverVersion) ==> r.Ok? && buf.data == old(buf.data)
      ensures HasBody(serverVersion) ==> (r.Ok? <==> Encode(serverVersion, Fields()).Ok?)
      ensures HasBody(serverVersion) && r.Ok? ==> buf.data == old(buf.data) + Encode(serverVersion, Fields()).value
      ensures HasBody(serverVersion) && r.Err? ==>
                r.error == Encode(serverVersion, Fields()).error && buf.data == old(buf.data) + EncodeByte(windowId)
    {
      if HasBody(serverVersion) {
        buf.Write(EncodeByte(windowId));
        if NamedRecipes(serverVersion) {
          var name :- AsString(recipe);
          var e :- EncodeString(name, MAX_STRING_LEN);
          buf.Write(e);
        } else {
          var id :- AsInteger(recipe);
          buf.WriteVarInt(id);
        }
        buf.Write(EncodeBool(makeAll));
      }
      r := Ok(());
    }

    method Copy(w: WrapperPlayClientCraftRecipeRequest)
      modifies this
      ensures Fields() == w.Fields()
    {
      windowId := w.windowId;
      recipe := w.recipe;
      makeAll := w.makeAll;
    }
  }
}
