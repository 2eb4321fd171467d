/** The signing values the 1.19 login and chat packets carry. Their codecs
    live in PacketWrapper, which is not part of this model; they are
    modelled here as simple codecs with the round trip the wrappers rely
    on: a salt signature is the salt as a long followed by the signature
    as a byte array, a timestamp is its epoch milliseconds as a long, and
    a last-seen-messages update is an opaque block of bytes. */
module Signing {
  import opened JavaTypes
  import opened Wire

  datatype SaltSignature = SaltSignature(salt: int64, signature: ByteArray)

  /** writeSaltSignature: the salt, then the signature. */
  function EncodeSaltSignature(g: SaltSignature): (e: Bytes)
    ensures |e| > 8
  {
    EncodeLong(g.salt) + EncodeByteArray(g.signature)
  }

  /** readSaltSignature: the salt, then a signature limited only by the
      readable bytes. */
  function DecodeSaltSignature(s: Bytes, pos: nat): Parsed<SaltSignature>
  {
    var (salt, p1) :- DecodeLong(s, pos);
    var (signature, p2) :- DecodeByteArray(s, p1, Readable(s, p1));
    Parsed(SaltSignature(salt, signature), p2)
  }

  lemma SaltSignatureRoundTrip(s: Bytes, pos: nat, g: SaltSignature)
    requires At(s, pos, EncodeSaltSignature(g))
    ensures DecodeSaltSignature(s, pos) == Parsed(g, pos + |EncodeSaltSignature(g)|)
  {
    AtConcat(s, pos, EncodeLong(g.salt), EncodeByteArray(g.signature));
    LongRoundTrip(s, pos, g.salt);
    ByteArrayRoundTripReadable(s, pos + 8, g.signature);
  }

  /** A salt signature needs its eight salt bytes before anything else. */
  lemma SaltSignatureTooShort(s: Bytes, pos: nat)
    requires pos + 8 > |s|
    ensures DecodeSaltSignature(s, pos) == Failed(EndOfBuffer)
  {
  }

  /** The signature data a signed chat command carries. */
  datatype MessageSignData = MessageSignData(saltSignature: SaltSignature, timestamp: int64, signedPreview: bool)

  /** LastSeenMessages.Update, carried as its encoded bytes. */
  datatype LastSeenUpdate = LastSeenUpdate(raw: ByteArray)

  function EncodeLastSeen(u: LastSeenUpdate): (e: Bytes)
    ensures |e| > |u.raw|
  {
    EncodeByteArray(u.raw)
  }

  function DecodeLastSeen(s: Bytes, pos: nat): Parsed<LastSeenUpdate>
  {
    var (raw, p) :- DecodeByteArray(s, pos, Readable(s, pos));
    Parsed(LastSeenUpdate(raw), p)
  }

  lemma LastSeenRoundTrip(s: Bytes, pos: nat, u: LastSeenUpdate)
    requires At(s, pos, EncodeLastSeen(u))
    ensures DecodeLastSeen(s, pos) == Parsed(u, pos + |EncodeLastSeen(u)|)
  {
    ByteArrayRoundTripReadable(s, pos, u.raw);
  }
}
