/** WrapperLoginClientEncryptionResponse: the client's encrypted shared
    secret, followed either by the encrypted verify token or, from 1.19 on,
    by a salt signature in its place. From 1.19 a boolean says which of the
    two follows: true for the token, false for the signature. */
module EncryptionResponse {
  import opened JavaTypes
  import opened Wire
  import opened Versions
  import opened Buffers
  import opened Signing

  /** The wrapper's three fields; None stands for null and Optional.empty. */
  datatype Response = Response(secret: Option<ByteArray>, verifyToken: Option<ByteArray>,
                               saltSignature: Option<SaltSignature>)

  /** What follows the secret on the wire. */
  datatype Payload = Token(token: ByteArray) | Salted(signature: SaltSignature)

  /** What read() takes from the buffer. */
  datatype Received = Received(secret: ByteArray, payload: Payload)

  /** Versions in which the boolean and the salt signature exist. */
  predicate Signed(v: Version)
  {
    AtLeast(v, V_1_19)
  }

  /** The payload write() chooses in version `v`: the salt signature when
      the version has one and it is present, otherwise the token, an empty
      one in place of none. */
  function Sent(v: Version, q: Response): (p: Payload)
    ensures p.Salted? <==> Signed(v) && q.saltSignature.Some?
    ensures p.Salted? ==> p.signature == q.saltSignature.value
    ensures p.Token? && q.verifyToken.Some? ==> p.token == q.verifyToken.value
    ensures p.Token? && q.verifyToken.None? ==> p.token == []
  {
    if Signed(v) && q.saltSignature.Some? then Salted(q.saltSignature.value)
    else Token(if q.verifyToken.Some? then q.verifyToken.value else [])
  }

  /** read(), after the secret: from 1.19 a boolean chooses between the
      signature (false) and the token (true); before 1.19 the token, with
      no boolean. The token is limited only by the readable bytes. */
  function DecodePayload(v: Version, s: Bytes, pos: nat): Parsed<Payload>
  {
    if Signed(v) then
      var (hasToken, p1) :- DecodeBool(s, pos);
      if !hasToken then
        var (g, p2) :- DecodeSaltSignature(s, p1);
        Parsed(Salted(g), p2)
      else
        var (t, p2) :- DecodeByteArray(s, p1, Readable(s, p1));
        Parsed(Token(t), p2)
    else
      var (t, p1) :- DecodeByteArray(s, pos, Readable(s, pos));
      Parsed(Token(t), p1)
  }

  /** read(): the secret, limited by the bytes readable before its length,
      then the payload. */
  function Decode(v: Version, s: Bytes, pos: nat): Parsed<Received>
  {
    var (secret, p1) :- DecodeByteArray(s, pos, Readable(s, pos));
    var (payload, p2) :- DecodePayload(v, s, p1);
    Parsed(Received(secret, payload), p2)
  }

  /** The payload as write() emits it: the token path never writes the
      boolean that read() expects from 1.19 on. */
  function EncodePayloadAsWritten(p: Payload): Bytes
  {
    match p
    case Salted(g) => EncodeBool(false) + EncodeSaltSignature(g)
    case Token(t) => EncodeByteArray(t)
  }

  /** write() as written: a null secret throws before anything is out. */
  function EncodeAsWritten(v: Version, q: Response): (r: Result<Bytes>)
    ensures r.Ok? <==> q.secret.Some?
    ensures r.Err? ==> r.error == NullValue
  {
    if q.secret.None? then Err(NullValue)
    else Ok(EncodeByteArray(q.secret.value) + EncodePayloadAsWritten(Sent(v, q)))
  }

  /** The payload as read() expects it: from 1.19 the token is preceded by
      true. */
  function EncodePayload(v: Version, p: Payload): Bytes
  {
    match p
    case Salted(g) => EncodeBool(false) + EncodeSaltSignature(g)
    case Token(t) => (if Signed(v) then EncodeBool(true) else []) + EncodeByteArray(t)
  }

  /** write() with the presence boolean on the token path. */
  function Encode(v: Version, q: Response): (r: Result<Bytes>)
    ensures r.Ok? <==> q.secret.Some?
    ensures r.Err? ==> r.error == NullValue
  {
    if q.secret.None? then Err(NullValue)
    else Ok(EncodeByteArray(q.secret.value) + EncodePayload(v, Sent(v, q)))
  }

  /** The two writes differ only on the token path from 1.19 on, and there
      by the single boolean. */
  lemma AsWrittenAgreement(v: Version, q: Response)
    requires q.secret.Some?
    ensures !Signed(v) || Sent(v, q).Salted? ==> EncodeAsWritten(v, q) == Encode(v, q)
    ensures Signed(v) && Sent(v, q).Token? ==>
              Encode(v, q).value ==
              EncodeByteArray(q.secret.value) + EncodeBool(true) + EncodePayloadAsWritten(Sent(v, q))
  {
    var a := EncodeByteArray(q.secret.value);
    if Signed(v) && Sent(v, q).Token? {
      var t := EncodeByteArray(Sent(v, q).token);
      assert EncodePayload(v, Sent(v, q)) == EncodeBool(true) + t;
      assert a + (EncodeBool(true) + t) == a + EncodeBool(true) + t;
    } else if Sent(v, q).Token? {
      var t := EncodeByteArray(Sent(v, q).token);
      assert EncodePayload(v, Sent(v, q)) == [] + t;
      assert [] + t == t;
    }
  }

  /** Each payload is read back from where it was written. */
  lemma PayloadRoundTrip(v: Version, p: Payload, s: Bytes, pos: nat)
    requires p.Salted? ==> Signed(v)
    requires At(s, pos, EncodePayload(v, p))
    ensures DecodePayload(v, s, pos) == Parsed(p, pos + |EncodePayload(v, p)|)
  {
    match p
    case Salted(g) =>
      AtConcat(s, pos, EncodeBool(false), EncodeSaltSignature(g));
      BoolRoundTrip(s, pos, false);
      SaltSignatureRoundTrip(s, pos + 1, g);
    case Token(t) =>
      if Signed(v) {
        AtConcat(s, pos, EncodeBool(true), EncodeByteArray(t));
        BoolRoundTrip(s, pos, true);
        ByteArrayRoundTripReadable(s, pos + 1, t);
      } else {
        assert EncodePayload(v, p) == EncodeByteArray(t);
        ByteArrayRoundTripReadable(s, pos, t);
      }
  }

  /** read() in order: the secret, then the payload. */
  lemma DecodeInOrder(v: Version, s: Bytes, pos: nat, d: Received, p1: nat, p2: nat)
    requires DecodeByteArray(s, pos, Readable(s, pos)) == Parsed(d.secret, p1)
    requires DecodePayload(v, s, p1) == Parsed(d.payload, p2)
    ensures Decode(v, s, pos) == Parsed(d, p2)
  {
  }

  /** read() after the corrected write() gives back the secret and the
      payload write() chose, whatever follows in the buffer. */
  lemma RoundTrip(v: Version, q: Response, s: Bytes, pos: nat, e: Bytes)
    requires Encode(v, q) == Ok(e) && At(s, pos, e)
    ensures Decode(v, s, pos) == Parsed(Received(q.secret.value, Sent(v, q)), pos + |e|)
  {
    var a := EncodeByteArray(q.secret.value);
    var b := EncodePayload(v, Sent(v, q));
    AtConcat(s, pos, a, b);
    ByteArrayRoundTripReadable(s, pos, q.secret.value);
    PayloadRoundTrip(v, Sent(v, q), s, pos + |a|);
    DecodeInOrder(v, s, pos, Received(q.secret.value, Sent(v, q)), pos + |a|, pos + |e|);
  }

  /** Before 1.19, and for the salt signature from 1.19 on, write() as
      written already round-trips. */
  lemma AsWrittenRoundTrip(v: Version, q: Response, s: Bytes, pos: nat, e: Bytes)
    requires EncodeAsWritten(v, q) == Ok(e) && At(s, pos, e)
    requires !Signed(v) || q.saltSignature.Some?
    ensures Decode(v, s, pos) == Parsed(Received(q.secret.value, Sent(v, q)), pos + |e|)
  {
    AsWrittenAgreement(v, q);
    RoundTrip(v, q, s, pos, e);
  }

  /** From 1.19, write() as written puts an empty token's length byte 0
      where read() expects the boolean, so read() takes it for false and
      looks for a salt signature that is not there. */
  lemma AsWrittenLosesEmptyToken(v: Version, q: Response, e: Bytes)
    requires Signed(v) && q.saltSignature.None?
    requires q.verifyToken.None? || q.verifyToken == Some([])
    requires EncodeAsWritten(v, q) == Ok(e)
    ensures Decode(v, e, 0) == Failed(EndOfBuffer)
  {
    var a := EncodeByteArray(q.secret.value);
    assert e == a + [0];
    assert At(e, 0, a + [0]);
    AtConcat(e, 0, a, [0]);
    ByteArrayRoundTripReadable(e, 0, q.secret.value);
    AtFirst(e, |a|, [0]);
    SaltSignatureTooShort(e, |a| + 1);
  }

  /** A one-byte token: its length 1 reads as true, and its byte 7 then
      reads as a length beyond the one byte left. */
  lemma AsWrittenMisreadsToken()
    ensures EncodeAsWritten(V_1_19, Response(Some([]), Some([7]), None)) == Ok([0, 1, 7])
    ensures Decode(V_1_19, [0, 1, 7], 0) == Failed(TooLong(7, 1))
  {
    var s: Bytes := [0, 1, 7];
    SmallVarInt(0);
    SmallVarInt(1);
    SmallVarInt(7);
    assert EncodeByteArray([]) == [0];
    assert EncodeByteArray([7]) == [1, 7];
    assert Sent(V_1_19, Response(Some([]), Some([7]), None)) == Token([7]);
    assert [0] + [1, 7] == s;
    assert At(s, 0, EncodeVarInt(0));
    VarIntRoundTrip(s, 0, 0);
    assert At(s, 2, EncodeVarInt(7));
    VarIntRoundTrip(s, 2, 7);
  }

  /** The fields after read() has taken `d`: the secret, and the one
      optional field the payload names; the other keeps its value. */
  function Apply(q: Response, d: Received): (r: Response)
    ensures r.secret == Some(d.secret)
    ensures d.payload.Token? ==> r.verifyToken == Some(d.payload.token) && r.saltSignature == q.saltSignature
    ensures d.payload.Salted? ==> r.saltSignature == Some(d.payload.signature) && r.verifyToken == q.verifyToken
  {
    match d.payload
    case Token(t) => q.(secret := Some(d.secret), verifyToken := Some(t))
    case Salted(g) => q.(secret := Some(d.secret), saltSignature := Some(g))
  }

  /** A wrapper filled by read() from empty fields writes what it read. */
  lemma ReadThenSent(v: Version, d: Received)
    requires d.payload.Salted? ==> Signed(v)
    ensures Sent(v, Apply(Response(None, None, None), d)) == d.payload
  {
  }

  /** The payload half of read(), in version `v`. */
  method ReadPayload(v: Version, buf: ByteBuf) returns (r: Result<Payload>)
    modifies buf
    ensures buf.data == old(buf.data)
    ensures r == DecodePayload(v, old(buf.data), old(buf.readerIndex)).ToResult()
    ensures r.Ok? ==> buf.readerIndex == DecodePayload(v, old(buf.data), old(buf.readerIndex)).next
  {
    if Signed(v) {
      var hasToken :- buf.ReadBool();
      if !hasToken {
        var g :- buf.Read(DecodeSaltSignature);
        r := Ok(Salted(g));
      } else {
        var t :- buf.ReadByteArray(buf.ReadableBytes());
        r := Ok(Token(t));
      }
    } else {
      var t :- buf.ReadByteArray(buf.ReadableBytes());
      r := Ok(Token(t));
    }
  }

  /** The payload half of write(), with the boolean before the token from
      1.19 on. */
  method WritePayload(v: Version, buf: ByteBuf, p: Payload)
    modifies buf
    ensures buf.data == old(buf.data) + EncodePayload(v, p)
    ensures buf.readerIndex == old(buf.readerIndex)
  {
    ghost var start := buf.data;
    match p
    case Salted(g) =>
      buf.Write(EncodeBool(false));
      buf.Write(EncodeSaltSignature(g));
      assert buf.data == start + (EncodeBool(false) + EncodeSaltSignature(g));
    case Token(t) =>
      var flag: Bytes := if Signed(v) then EncodeBool(true) else [];
      buf.Write(flag);
      buf.Write(EncodeByteArray(t));
      assert buf.data == start + (flag + EncodeByteArray(t));
  }

  /** The fields read() leaves, whether it completes or not: the secret as
      soon as it is read, then the payload's field once the payload is
      read; a read that fails keeps the values read before it and the old
      values after. */
  function AfterRead(v: Version, q: Response, s: Bytes, pos: nat): Response
  {
    match DecodeByteArray(s, pos, Readable(s, pos))
    case Failed(_) => q
    case Parsed(secret, p1) =>
      match DecodePayload(v, s, p1)
      case Failed(_) => q.(secret := Some(secret))
      case Parsed(payload, _) => Apply(q, Received(secret, payload))
  }

  /** A read that completes leaves what Apply gives for the decoded
      packet. */
  lemma AfterReadDecoded(v: Version, q: Response, s: Bytes, pos: nat)
    requires Decode(v, s, pos).Parsed?
    ensures AfterRead(v, q, s, pos) == Apply(q, Decode(v, s, pos).value)
  {
  }

  /** The bytes `[0, 1, 7]` that the write as written emits for a one-byte
      token: read() takes the empty secret, then fails on the token, so the
      wrapper holds the new secret next to its old token and signature. */
  lemma AsWrittenMisreadKeepsSecret(before: Response)
    ensures AfterRead(V_1_19, before, [0, 1, 7], 0) == before.(secret := Some([]))
  {
    var s: Bytes := [0, 1, 7];
    AsWrittenMisreadsToken();
    SmallVarInt(0);
    assert At(s, 0, EncodeVarInt(0));
    VarIntRoundTrip(s, 0, 0);
  }

  class WrapperLoginClientEncryptionResponse {
    /** The versions read() and write() consult: the running server's and
        the connection's. */
    const serverVersion: Version
    const clientVersion: Version
    var encryptedSharedSecret: Option<ByteArray>
    var encryptedVerifyToken: Option<ByteArray>
    var saltSignature: Option<SaltSignature>

    function Fields(): Response
      reads this
    {
      Response(encryptedSharedSecret, encryptedVerifyToken, saltSignature)
    }

    /** The token form: a secret and a token, no signature. */
    constructor WithToken(serverVersion: Version, clientVersion: Version, secret: ByteArray, token: ByteArray)
      ensures this.serverVersion == serverVersion && this.clientVersion == clientVersion
      ensures Fields() == Response(Some(secret), Some(token), None)
    {
      this.serverVersion := serverVersion;
      this.clientVersion := clientVersion;
      encryptedSharedSecret := Some(secret);
      encryptedVerifyToken := Some(token);
      saltSignature := None;
    }

    /** The signature form: the secret stays null. */
    constructor WithSignature(serverVersion: Version, clientVersion: Version, g: SaltSignature)
      ensures this.serverVersion == serverVersion && this.clientVersion == clientVersion
      ensures Fields() == Response(None, None, Some(g))
    {
      this.serverVersion := serverVersion;
      this.clientVersion := clientVersion;
      encryptedSharedSecret := None;
      encryptedVerifyToken := None;
      saltSignature := Some(g);
    }

    method Read(buf: ByteBuf) returns (r: Result<()>)
      modifies this, buf
      ensures buf.data == old(buf.data)
      ensures Reports(r, Decode(serverVersion, old(buf.data), old(buf.readerIndex)))
      ensures r.Ok? ==>
                var d := Decode(serverVersion, old(buf.data), old(buf.readerIndex));
                buf.readerIndex == d.next && Fields() == Apply(old(Fields()), d.value)
      ensures Fields() == AfterRead(serverVersion, old(Fields()), old(buf.data), old(buf.readerIndex))
    {
      var secret :- buf.ReadByteArray(buf.ReadableBytes());
      encryptedSharedSecret := Some(secret);
      var payload :- ReadPayload(serverVersion, buf);
      match payload {
        case Token(t) => encryptedVerifyToken := Some(t);
        case Salted(g) => saltSignature := Some(g);
      }
      r := Ok(());
    }

    /** write(), with the boolean before the token from 1.19 on. A null
        secret throws before anything is written. */
    method Write(buf: ByteBuf) returns (r: Result<()>)
      modifies buf
      ensures buf.readerIndex == old(buf.readerIndex)
      ensures r.Ok? <==> encryptedSharedSecret.Some?
      ensures r.Ok? ==> buf.data == old(buf.data) + Encode(clientVersion, Fields()).value
      ensures r.Err? ==> r.error == NullValue && buf.data == old(buf.data)
    {
      if encryptedSharedSecret.None? {
        r := Err(NullValue);
        return;
      }
      buf.Write(EncodeByteArray(encryptedSharedSecret.value));
      WritePayload(clientVersion, buf, Sent(clientVersion, Fields()));
      r := Ok(());
    }

    method Copy(w: WrapperLoginClientEncryptionResponse)
      modifies this
      ensures Fields() == w.Fields()
    {
      encryptedSharedSecret := w.encryptedSharedSecret;
      encryptedVerifyToken := w.encryptedVerifyToken;
      saltSignature := w.saltSignature;
    }
  }
}
