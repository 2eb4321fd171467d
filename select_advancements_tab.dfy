/** WrapperPlayServerSelectAdvancementsTab: the advancement tab the client
    should show, or none. The identifier travels as its text, written and
    read as a string of the default limit. */
module SelectAdvancementsTab {
  import opened JavaTypes
  import opened Wire
  import opened Buffers

  /** A nullable identifier: None stands for null. */
  type Identifier = Option<JString>

  /** writeOptional(identifier, writeIdentifier): a presence boolean, then
      the identifier when there is one. */
  function Encode(id: Identifier): Result<Bytes>
  {
    match id
    case None => Ok(EncodeBool(false))
    case Some(text) =>
      var e :- EncodeString(text, MAX_STRING_LEN);
      Ok(EncodeBool(true) + e)
  }

  /** readOptional(readIdentifier): false gives null without reading on;
      true reads the identifier. */
  function Decode(s: Bytes, pos: nat): Parsed<Identifier>
  {
    var (present, p1) :- DecodeBool(s, pos);
    if !present then Parsed(None, p1)
    else
      var (text, p2) :- DecodeString(s, p1, MAX_STRING_LEN);
      Parsed(Some(text), p2)
  }

  /** write() throws only for an identifier longer than writeString allows;
      null is always written, as the single byte false. */
  lemma EncodeFails(id: Identifier)
    ensures Encode(id).Ok? <==> id.None? || |id.value| <= MAX_STRING_LEN
    ensures id.None? ==> Encode(id) == Ok([0])
    ensures Encode(id).Err? ==> Encode(id).error == TooLong(|id.value|, MAX_STRING_LEN)
  {
  }

  /** Reading what write() produced gives the same identifier, or null for
      null, whatever follows in the buffer. */
  lemma RoundTrip(id: Identifier, s: Bytes, pos: nat, e: Bytes)
    requires Encode(id) == Ok(e) && At(s, pos, e)
    requires id.Some? ==> FitsReadLimit(id.value, MAX_STRING_LEN)
    ensures Decode(s, pos) == Parsed(id, pos + |e|)
  {
    if id.Some? {
      AtConcat(s, pos, EncodeBool(true), EncodeByteArray(id.value));
      BoolRoundTrip(s, pos, true);
      StringRoundTrip(s, pos + 1, id.value, MAX_STRING_LEN);
    } else {
      BoolRoundTrip(s, pos, false);
    }
  }

  class WrapperPlayServerSelectAdvancementsTab {
    var identifier: Identifier

    constructor (identifier: Identifier)
      ensures this.identifier == identifier
    {
      this.identifier := identifier;
    }

    method Read(buf: ByteBuf) returns (r: Result<()>)
      modifies this, buf
      ensures buf.data == old(buf.data)
      ensures Reports(r, Decode(old(buf.data), old(buf.readerIndex)))
      ensures r.Ok? ==> Parsed(identifier, buf.readerIndex) == Decode(old(buf.data), old(buf.readerIndex))
      ensures r.Err? ==> identifier == old(identifier)
    {
      var present :- buf.ReadBool();
      if present {
        var text :- buf.ReadString(MAX_STRING_LEN);
        identifier := Some(text);
      } else {
        identifier := None;
      }
      r := Ok(());
    }

    /** write(): an identifier that is too long throws after the presence
        byte is out. */
    method Write(buf: ByteBuf) returns (r: Result<()>)
      modifies buf
      ensures buf.readerIndex == old(buf.readerIndex)
      ensures r.Ok? <==> Encode(identifier).Ok?
      ensures r.Ok? ==> buf.data == old(buf.data) + Encode(identifier).value
      ensures r.Err? ==> r.error == Encode(identifier).error && buf.data == old(buf.data) + EncodeBool(true)
    {
      buf.Write(EncodeBool(identifier.Some?));
      if identifier.Some? {
        var e :- EncodeString(identifier.value, MAX_STRING_LEN);
        buf.Write(e);
      }
      r := Ok(());
    }

    method Copy(w: WrapperPlayServerSelectAdvancementsTab)
      modifies this
      ensures identifier == w.identifier
    {
      identifier := w.identifier;
    }
  }
}
