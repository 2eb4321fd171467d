/** WrapperLoginServerEncryptionRequest: the server's id string, its public
    key and the verify token the client must send back encrypted. */
module EncryptionRequest {
  import opened JavaTypes
  import opened Wire
  import opened Buffers

  /** The server id's limit, in both directions. */
  const SERVER_ID_MAX: nat := 20
  /** The public key's limit when read; write() does not check it. */
  const PUBLIC_KEY_MAX: nat := 512

  datatype Request = Request(serverId: JString, publicKey: ByteArray, verifyToken: ByteArray)

  /** write(): the id with writeString's limit of 20, then the two arrays,
      each with its varint length. */
  function Encode(q: Request): Result<Bytes>
  {
    var id :- EncodeString(q.serverId, SERVER_ID_MAX);
    Ok(id + EncodeByteArray(q.publicKey) + EncodeByteArray(q.verifyToken))
  }

  /** read(): the id limited to 20 characters, the key to 512 bytes and the
      token to the bytes readable when its read starts. */
  function Decode(s: Bytes, pos: nat): Parsed<Request>
  {
    var (serverId, p1) :- DecodeString(s, pos, SERVER_ID_MAX);
    var (publicKey, p2) :- DecodeByteArray(s, p1, PUBLIC_KEY_MAX);
    var (verifyToken, p3) :- DecodeByteArray(s, p2, Readable(s, p2));
    Parsed(Request(serverId, publicKey, verifyToken), p3)
  }

  /** write() refuses exactly an id of more than 20 bytes. */
  lemma EncodeFails(q: Request)
    ensures Encode(q).Ok? <==> |q.serverId| <= SERVER_ID_MAX
    ensures Encode(q).Err? ==> Encode(q).error == TooLong(|q.serverId|, SERVER_ID_MAX)
  {
  }

  /** read() in order: three successful reads give the request. */
  lemma DecodeInOrder(s: Bytes, pos: nat, q: Request, p1: nat, p2: nat, p3: nat)
    requires DecodeString(s, pos, SERVER_ID_MAX) == Parsed(q.serverId, p1)
    requires DecodeByteArray(s, p1, PUBLIC_KEY_MAX) == Parsed(q.publicKey, p2)
    requires DecodeByteArray(s, p2, Readable(s, p2)) == Parsed(q.verifyToken, p3)
    ensures Decode(s, pos) == Parsed(q, p3)
  {
  }

  /** read() in order: when the key's read fails, so does the packet's. */
  lemma DecodeKeyFails(s: Bytes, pos: nat, serverId: JString, p1: nat, err: Error)
    requires DecodeString(s, pos, SERVER_ID_MAX) == Parsed(serverId, p1)
    requires DecodeByteArray(s, p1, PUBLIC_KEY_MAX) == Failed(err)
    ensures Decode(s, pos) == Failed(err)
  {
  }

  /** Where write() put each field: the three encodings follow each other. */
  lemma Layout(q: Request, s: Bytes, pos: nat, e: Bytes)
    requires Encode(q) == Ok(e) && At(s, pos, e)
    ensures var p1 := pos + |EncodeByteArray(q.serverId)|;
            var p2 := p1 + |EncodeByteArray(q.publicKey)|;
            At(s, pos, EncodeByteArray(q.serverId)) && At(s, p1, EncodeByteArray(q.publicKey)) &&
            At(s, p2, EncodeByteArray(q.verifyToken)) && pos + |e| == p2 + |EncodeByteArray(q.verifyToken)|
  {
    AtConcat3(s, pos, EncodeByteArray(q.serverId), EncodeByteArray(q.publicKey), EncodeByteArray(q.verifyToken));
  }

  /** Each field's reader, at the place its writer used, returns it. */
  lemma FieldsRoundTrip(q: Request, s: Bytes, pos: nat, p1: nat, p2: nat)
    requires At(s, pos, EncodeByteArray(q.serverId)) && At(s, p1, EncodeByteArray(q.publicKey))
    requires At(s, p2, EncodeByteArray(q.verifyToken))
    requires FitsReadLimit(q.serverId, SERVER_ID_MAX) && |q.publicKey| <= PUBLIC_KEY_MAX
    ensures DecodeString(s, pos, SERVER_ID_MAX) == Parsed(q.serverId, pos + |EncodeByteArray(q.serverId)|)
    ensures DecodeByteArray(s, p1, PUBLIC_KEY_MAX) == Parsed(q.publicKey, p1 + |EncodeByteArray(q.publicKey)|)
    ensures DecodeByteArray(s, p2, Readable(s, p2)) == Parsed(q.verifyToken, p2 + |EncodeByteArray(q.verifyToken)|)
  {
    StringRoundTrip(s, pos, q.serverId, SERVER_ID_MAX);
    ByteArrayRoundTrip(s, p1, q.publicKey, PUBLIC_KEY_MAX);
    ByteArrayRoundTripReadable(s, p2, q.verifyToken);
  }

  /** read() after a successful write() restores all three fields when the
      id fits the read limit and the key the 512 bytes read() allows,
      whatever follows in the buffer. */
  lemma RoundTrip(q: Request, s: Bytes, pos: nat, e: Bytes)
    requires Encode(q) == Ok(e) && At(s, pos, e)
    requires FitsReadLimit(q.serverId, SERVER_ID_MAX) && |q.publicKey| <= PUBLIC_KEY_MAX
    ensures Decode(s, pos) == Parsed(q, pos + |e|)
  {
    Layout(q, s, pos, e);
    var p1 := pos + |EncodeByteArray(q.serverId)|;
    var p2 := p1 + |EncodeByteArray(q.publicKey)|;
    FieldsRoundTrip(q, s, pos, p1, p2);
    DecodeInOrder(s, pos, q, p1, p2, pos + |e|);
  }

  /** The first two fields of a request whose key is over 512 bytes. */
  lemma OversizedFields(q: Request, s: Bytes, pos: nat, p1: nat)
    requires At(s, pos, EncodeByteArray(q.serverId)) && At(s, p1, EncodeByteArray(q.publicKey))
    requires FitsReadLimit(q.serverId, SERVER_ID_MAX) && |q.publicKey| > PUBLIC_KEY_MAX
    ensures DecodeString(s, pos, SERVER_ID_MAX) == Parsed(q.serverId, pos + |EncodeByteArray(q.serverId)|)
    ensures DecodeByteArray(s, p1, PUBLIC_KEY_MAX) == Failed(TooLong(|q.publicKey|, PUBLIC_KEY_MAX))
  {
    StringRoundTrip(s, pos, q.serverId, SERVER_ID_MAX);
    ByteArrayLimit(s, p1, q.publicKey, PUBLIC_KEY_MAX);
  }

  /** write() does not check the key's length, so a key over 512 bytes is
      written, and read() refuses it. */
  lemma OversizedKey(q: Request, s: Bytes, pos: nat, e: Bytes)
    requires Encode(q) == Ok(e) && At(s, pos, e)
    requires FitsReadLimit(q.serverId, SERVER_ID_MAX) && |q.publicKey| > PUBLIC_KEY_MAX
    ensures Decode(s, pos) == Failed(TooLong(|q.publicKey|, PUBLIC_KEY_MAX))
  {
    Layout(q, s, pos, e);
    var p1 := pos + |EncodeByteArray(q.serverId)|;
    OversizedFields(q, s, pos, p1);
    DecodeKeyFails(s, pos, q.serverId, p1, TooLong(|q.publicKey|, PUBLIC_KEY_MAX));
  }

  /** The fields read() leaves, whether it completes or not: each field
      takes its value as soon as its own read succeeds, so a read that
      fails keeps the values read before it and the old values after. */
  function AfterRead(q: Request, s: Bytes, pos: nat): Request
  {
    match DecodeString(s, pos, SERVER_ID_MAX)
    case Failed(_) => q
    case Parsed(serverId, p1) =>
      var q1 := q.(serverId := serverId);
      match DecodeByteArray(s, p1, PUBLIC_KEY_MAX)
      case Failed(_) => q1
      case Parsed(publicKey, p2) =>
        var q2 := q1.(publicKey := publicKey);
        match DecodeByteArray(s, p2, Readable(s, p2))
        case Failed(_) => q2
        case Parsed(verifyToken, _) => q2.(verifyToken := verifyToken)
  }

  /** A read that completes leaves exactly the decoded request, whatever
      the fields held before. */
  lemma AfterReadDecoded(q: Request, s: Bytes, pos: nat)
    requires Decode(s, pos).Parsed?
    ensures AfterRead(q, s, pos) == Decode(s, pos).value
  {
  }

  /** A key over 512 bytes fails the read after the server id is taken:
      the wrapper keeps the new id next to its old key and token. */
  lemma OversizedKeyKeepsId(q: Request, before: Request, s: Bytes, pos: nat, e: Bytes)
    requires Encode(q) == Ok(e) && At(s, pos, e)
    requires FitsReadLimit(q.serverId, SERVER_ID_MAX) && |q.publicKey| > PUBLIC_KEY_MAX
    ensures AfterRead(before, s, pos) == before.(serverId := q.serverId)
  {
    Layout(q, s, pos, e);
    OversizedFields(q, s, pos, pos + |EncodeByteArray(q.serverId)|);
  }

  class WrapperLoginServerEncryptionRequest {
    var serverId: JString
    var publicKeyBytes: ByteArray
    var verifyToken: ByteArray

    function Fields(): Request
      reads this
    {
      Request(serverId, publicKeyBytes, verifyToken)
    }

    constructor (serverId: JString, publicKeyBytes: ByteArray, verifyToken: ByteArray)
      ensures Fields() == Request(serverId, publicKeyBytes, verifyToken)
    {
      this.serverId := serverId;
      this.publicKeyBytes := publicKeyBytes;
      this.verifyToken := verifyToken;
    }

    method Read(buf: ByteBuf) returns (r: Result<()>)
      modifies this, buf
      ensures buf.data == old(buf.data)
      ensures Reports(r, Decode(old(buf.data), old(buf.readerIndex)))
      ensures r.Ok? ==> Parsed(Fields(), buf.readerIndex) == Decode(old(buf.data), old(buf.readerIndex))
      ensures Fields() == AfterRead(old(Fields()), old(buf.data), old(buf.readerIndex))
    {
      serverId :- buf.ReadString(SERVER_ID_MAX);
      publicKeyBytes :- buf.ReadByteArray(PUBLIC_KEY_MAX);
      verifyToken :- buf.ReadByteArray(buf.ReadableBytes());
      r := Ok(());
    }

    /** write(): an id over the limit throws before anything is written. */
    method Write(buf: ByteBuf) returns (r: Result<()>)
      modifies buf
      ensures buf.readerIndex == old(buf.readerIndex)
      ensures r.Ok? <==> Encode(Fields()).Ok?
      ensures r.Ok? ==> buf.data == old(buf.data) + Encode(Fields()).value
      ensures r.Err? ==> r.error == Encode(Fields()).error && buf.data == old(buf.data)
    {
      var id :- EncodeString(serverId, SERVER_ID_MAX);
      buf.Write(id);
      buf.Write(EncodeByteArray(publicKeyBytes));
      buf.Write(EncodeByteArray(verifyToken));
      r := Ok(());
    }

    method Copy(w: WrapperLoginServerEncryptionRequest)
      modifies this
      ensures Fields() == w.Fields()
    {
      serverId := w.serverId;
      publicKeyBytes := w.publicKeyBytes;
      verifyToken := w.verifyToken;
    }
  }
}
