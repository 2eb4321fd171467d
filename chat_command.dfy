/** WrapperPlayClientChatCommand: a command the client typed, without its
    slash. From 1.19 it carries the signing data (a timestamp, a salt
    signature and the signed-preview flag), and from 1.19.1 also the update
    of the messages the client has seen. */
module ChatCommand {
  import opened JavaTypes
  import opened Wire
  import opened Versions
  import opened Buffers
  import opened Signing

  /** The wrapper's fields; None stands for null. */
  datatype Chat = Chat(command: JString, signData: Option<MessageSignData>, lastSeen: Option<LastSeenUpdate>)

  /** What read() takes after the command: the signing data from 1.19 and
      the last-seen update from 1.19.1, None where the version has none. */
  datatype Tail = Tail(signData: Option<MessageSignData>, lastSeen: Option<LastSeenUpdate>)

  datatype Received = Received(command: JString, tail: Tail)

  /** read()'s limit on the command: 256 from 1.11, 100 before. */
  function MaxCommandLength(v: Version): (n: nat)
  {
    if AtLeast(v, V_1_11) then 256 else 100
  }

  /** The signing data: the timestamp, the salt signature, then the flag. */
  function EncodeSignData(d: MessageSignData): Bytes
  {
    EncodeLong(d.timestamp) + EncodeSaltSignature(d.saltSignature) + EncodeBool(d.signedPreview)
  }

  function DecodeSignData(s: Bytes, pos: nat): Parsed<MessageSignData>
  {
    var (timestamp, p1) :- DecodeLong(s, pos);
    var (g, p2) :- DecodeSaltSignature(s, p1);
    var (signedPreview, p3) :- DecodeBool(s, p2);
    Parsed(MessageSignData(g, timestamp, signedPreview), p3)
  }

  lemma SignDataRoundTrip(s: Bytes, pos: nat, d: MessageSignData)
    requires At(s, pos, EncodeSignData(d))
    ensures DecodeSignData(s, pos) == Parsed(d, pos + |EncodeSignData(d)|)
  {
    var a, b, c := EncodeLong(d.timestamp), EncodeSaltSignature(d.saltSignature), EncodeBool(d.signedPreview);
    AtConcat3(s, pos, a, b, c);
    LongRoundTrip(s, pos, d.timestamp);
    SaltSignatureRoundTrip(s, pos + 8, d.saltSignature);
    BoolRoundTrip(s, pos + 8 + |b|, d.signedPreview);
  }

  /** write() after the command: nothing before 1.19; from 1.19 the
      signing data, whose absence throws; from 1.19.1 also the last-seen
      update, whose absence throws as well. */
  function EncodeTail(v: Version, q: Chat): (r: Result<Bytes>)
    ensures r.Ok? <==> (AtLeast(v, V_1_19) ==> q.signData.Some?) && (AtLeast(v, V_1_19_1) ==> q.lastSeen.Some?)
    ensures r.Err? ==> r.error == NullValue
    ensures !AtLeast(v, V_1_19) ==> r == Ok([])
  {
    if !AtLeast(v, V_1_19) then Ok([])
    else if q.signData.None? then Err(NullValue)
    else if !AtLeast(v, V_1_19_1) then Ok(EncodeSignData(q.signData.value))
    else if q.lastSeen.None? then Err(NullValue)
    else Ok(EncodeSignData(q.signData.value) + EncodeLastSeen(q.lastSeen.value))
  }

  /** write(): the command with writeString's default limit, then the tail. */
  function Encode(v: Version, q: Chat): (r: Result<Bytes>)
  {
    var c :- EncodeString(q.command, MAX_STRING_LEN);
    var t :- EncodeTail(v, q);
    Ok(c + t)
  }

  /** write() throws exactly for a command over the write limit or for a
      field the version needs that is null; the command is checked first. */
  lemma EncodeFails(v: Version, q: Chat)
    ensures Encode(v, q).Ok? <==>
              |q.command| <= MAX_STRING_LEN && (AtLeast(v, V_1_19) ==> q.signData.Some?) &&
              (AtLeast(v, V_1_19_1) ==> q.lastSeen.Some?)
    ensures |q.command| > MAX_STRING_LEN ==> Encode(v, q) == Err(TooLong(|q.command|, MAX_STRING_LEN))
    ensures |q.command| <= MAX_STRING_LEN && Encode(v, q).Err? ==> Encode(v, q) == Err(NullValue)
  {
  }

  /** read() after the command. */
  function DecodeTail(v: Version, s: Bytes, pos: nat): Parsed<Tail>
  {
    if !AtLeast(v, V_1_19) then Parsed(Tail(None, None), pos)
    else
      var (d, p1) :- DecodeSignData(s, pos);
      if !AtLeast(v, V_1_19_1) then Parsed(Tail(Some(d), None), p1)
      else
        var (u, p2) :- DecodeLastSeen(s, p1);
        Parsed(Tail(Some(d), Some(u)), p2)
  }

  /** read(): the command under the version's limit, then the tail. */
  function Decode(v: Version, s: Bytes, pos: nat): Parsed<Received>
  {
    var (command, p1) :- DecodeString(s, pos, MaxCommandLength(v));
    var (tail, p2) :- DecodeTail(v, s, p1);
    Parsed(Received(command, tail), p2)
  }

  /** The tail read() gives back for a wrapper's fields: the fields its
      version carries. */
  function Expected(v: Version, q: Chat): (t: Tail)
    ensures t.signData.Some? <==> AtLeast(v, V_1_19) && q.signData.Some?
    ensures t.lastSeen.Some? <==> AtLeast(v, V_1_19_1) && q.lastSeen.Some?
  {
    Tail(if AtLeast(v, V_1_19) then q.signData else None,
         if AtLeast(v, V_1_19_1) then q.lastSeen else None)
  }

  lemma TailRoundTrip(v: Version, q: Chat, s: Bytes, pos: nat, e: Bytes)
    requires EncodeTail(v, q) == Ok(e) && At(s, pos, e)
    ensures DecodeTail(v, s, pos) == Parsed(Expected(v, q), pos + |e|)
  {
    if AtLeast(v, V_1_19_1) {
      var a, b := EncodeSignData(q.signData.value), EncodeLastSeen(q.lastSeen.value);
      AtConcat(s, pos, a, b);
      SignDataRoundTrip(s, pos, q.signData.value);
      LastSeenRoundTrip(s, pos + |a|, q.lastSeen.value);
    } else if AtLeast(v, V_1_19) {
      SignDataRoundTrip(s, pos, q.signData.value);
    }
  }

  /** read() in order: the command, then the tail. */
  lemma DecodeInOrder(v: Version, s: Bytes, pos: nat, d: Received, p1: nat, p2: nat)
    requires DecodeString(s, pos, MaxCommandLength(v)) == Parsed(d.command, p1)
    requires DecodeTail(v, s, p1) == Parsed(d.tail, p2)
    ensures Decode(v, s, pos) == Parsed(d, p2)
  {
  }

  /** Where write() put the command and the tail. */
  lemma Layout(v: Version, q: Chat, s: Bytes, pos: nat, e: Bytes)
    requires Encode(v, q) == Ok(e) && At(s, pos, e)
    ensures EncodeTail(v, q).Ok?
    ensures At(s, pos, EncodeByteArray(q.command))
    ensures At(s, pos + |EncodeByteArray(q.command)|, EncodeTail(v, q).value)
    ensures |e| == |EncodeByteArray(q.command)| + |EncodeTail(v, q).value|
  {
    AtConcat(s, pos, EncodeByteArray(q.command), EncodeTail(v, q).value);
  }

  /** read() after write() gives back the command and the fields the
      version carries, when the command fits the read limit of the
      version, whatever follows in the buffer. */
  lemma RoundTrip(v: Version, q: Chat, s: Bytes, pos: nat, e: Bytes)
    requires Encode(v, q) == Ok(e) && At(s, pos, e)
    requires FitsReadLimit(q.command, MaxCommandLength(v))
    ensures Decode(v, s, pos) == Parsed(Received(q.command, Expected(v, q)), pos + |e|)
  {
    Layout(v, q, s, pos, e);
    var p1 := pos + |EncodeByteArray(q.command)|;
    StringRoundTrip(s, pos, q.command, MaxCommandLength(v));
    TailRoundTrip(v, q, s, p1, EncodeTail(v, q).value);
    DecodeInOrder(v, s, pos, Received(q.command, Expected(v, q)), p1, pos + |e|);
  }

  /** write() accepts commands up to 32767 bytes, read() only up to the
      version's 256 or 100 characters: a longer command is written and
      then refused. */
  lemma OversizedCommand(v: Version, q: Chat, s: Bytes, pos: nat, e: Bytes)
    requires Encode(v, q) == Ok(e) && At(s, pos, e)
    requires !FitsReadLimit(q.command, MaxCommandLength(v))
    ensures Decode(v, s, pos).Failed?
  {
    Layout(v, q, s, pos, e);
    StringRoundTrip(s, pos, q.command, MaxCommandLength(v));
  }

  /** The fields after read() has taken `d`: the command, and the
      optional fields the version carried; the others keep their values. */
  function Apply(q: Chat, d: Received): (r: Chat)
    ensures r.command == d.command
    ensures r.signData == if d.tail.signData.Some? then d.tail.signData else q.signData
    ensures r.lastSeen == if d.tail.lastSeen.Some? then d.tail.lastSeen else q.lastSeen
  {
    Chat(d.command,
         if d.tail.signData.Some? then d.tail.signData else q.signData,
         if d.tail.lastSeen.Some? then d.tail.lastSeen else q.lastSeen)
  }

  /** Reading back what a wrapper wrote into the same wrapper changes no
      field. */
  lemma RereadKeepsFields(v: Version, q: Chat)
    ensures Apply(q, Received(q.command, Expected(v, q))) == q
  {
  }

  /** The fields read() leaves, whether it completes or not: the command
      as soon as it is read, the signing data once its three parts are
      read, the last-seen update once it is read; a read that fails keeps
      the values read before it and the old values after. */
  function AfterRead(v: Version, q: Chat, s: Bytes, pos: nat): Chat
  {
    match DecodeString(s, pos, MaxCommandLength(v))
    case Failed(_) => q
    case Parsed(command, p1) =>
      var q1 := q.(command := command);
      if !AtLeast(v, V_1_19) then q1
      else
        match DecodeSignData(s, p1)
        case Failed(_) => q1
        case Parsed(d, p2) =>
          var q2 := q1.(signData := Some(d));
          if !AtLeast(v, V_1_19_1) then q2
          else
            match DecodeLastSeen(s, p2)
            case Failed(_) => q2
            case Parsed(u, _) => q2.(lastSeen := Some(u))
  }

  /** A read that completes leaves what Apply gives for the decoded
      packet. */
  lemma AfterReadDecoded(v: Version, q: Chat, s: Bytes, pos: nat)
    requires Decode(v, s, pos).Parsed?
    ensures AfterRead(v, q, s, pos) == Apply(q, Decode(v, s, pos).value)
  {
  }

  /** From 1.19, a packet holding only the command: the read fails at the
      signing data with the command already taken and the rest kept. */
  lemma CommandOnlyKeepsRest(v: Version, q: Chat, before: Chat, e: Bytes)
    requires AtLeast(v, V_1_19) && FitsReadLimit(q.command, MaxCommandLength(v))
    requires EncodeString(q.command, MAX_STRING_LEN) == Ok(e)
    ensures Decode(v, e, 0).Failed?
    ensures AfterRead(v, before, e, 0) == before.(command := q.command)
  {
    StringRoundTrip(e, 0, q.command, MaxCommandLength(v));
  }

  class WrapperPlayClientChatCommand {
    const serverVersion: Version
    var command: JString
    var messageSignData: Option<MessageSignData>
    var lastSeenMessages: Option<LastSeenUpdate>

    function Fields(): Chat
      reads this
    {
      Chat(command, messageSignData, lastSeenMessages)
    }

    constructor (serverVersion: Version, command: JString, signData: Option<MessageSignData>,
                 lastSeen: Option<LastSeenUpdate>)
      ensures this.serverVersion == serverVersion && Fields() == Chat(command, signData, lastSeen)
    {
      this.serverVersion := serverVersion;
      this.command := command;
      messageSignData := signData;
      lastSeenMessages := lastSeen;
    }

    method Read(buf: ByteBuf) returns (r: Result<()>)
      modifies this, buf
      ensures buf.data == old(buf.data)
      ensures Reports(r, Decode(serverVersion, old(buf.data), old(buf.readerIndex)))
      ensures r.Ok? ==>
                var d := Decode(serverVersion, old(buf.data), old(buf.readerIndex));
                buf.readerIndex == d.next && Fields() == Apply(old(Fields()), d.value)
      ensures Fields() == AfterRead(serverVersion, old(Fields()), old(buf.data), old(buf.readerIndex))
    {
      command :- buf.ReadString(MaxCommandLength(serverVersion));
      if AtLeast(serverVersion, V_1_19) {
        var d :- ReadSignData(buf);
        messageSignData := Some(d);
        if AtLeast(serverVersion, V_1_19_1) {
          var u :- buf.Read(DecodeLastSeen);
          lastSeenMessages := Some(u);
        }
      }
      r := Ok(());
    }

    /** write(): a command over the limit throws before anything is
        written; a missing field throws after what precedes it. */
    method Write(buf: ByteBuf) returns (r: Result<()>)
      modifies buf
      ensures buf.readerIndex == old(buf.readerIndex)
      ensures r.Ok? <==> Encode(serverVersion, Fields()).Ok?
      ensures r.Ok? ==> buf.data == old(buf.data) + Encode(serverVersion, Fields()).value
      ensures r.Err? ==> r.error == Encode(serverVersion, Fields()).error
      ensures r.Err? && |command| > MAX_STRING_LEN ==> buf.data == old(buf.data)
      ensures r.Err? && |command| <= MAX_STRING_LEN && messageSignData.None? ==>
                buf.data == old(buf.data) + EncodeByteArray(command)
      ensures r.Err? && |command| <= MAX_STRING_LEN && messageSignData.Some? ==>
                buf.data == old(buf.data) + EncodeByteArray(command) + EncodeSignData(messageSignData.value)
    {
      var c :- EncodeString(command, MAX_STRING_LEN);
      buf.Write(c);
      r := WriteTail(serverVersion, buf, Fields());
    }

    method Copy(w: WrapperPlayClientChatCommand)
      modifies this
      ensures Fields() == w.Fields()
    {
      command := w.command;
      messageSignData := w.messageSignData;
      lastSeenMessages := w.lastSeenMessages;
    }
  }

  /** The signing data's three reads: the timestamp, the salt signature,
      then the signed-preview flag. */
  method ReadSignData(buf: ByteBuf) returns (r: Result<MessageSignData>)
    modifies buf
    ensures buf.data == old(buf.data)
    ensures r == DecodeSignData(old(buf.data), old(buf.readerIndex)).ToResult()
    ensures r.Ok? ==> buf.readerIndex == DecodeSignData(old(buf.data), old(buf.readerIndex)).next
  {
    var timestamp :- buf.Read(DecodeLong);
    var g :- buf.Read(DecodeSaltSignature);
    var signedPreview :- buf.ReadBool();
    r := Ok(MessageSignData(g, timestamp, signedPreview));
  }

  /** The tail half of write(), in version `v`. */
  method WriteTail(v: Version, buf: ByteBuf, q: Chat) returns (r: Result<()>)
    modifies buf
    ensures buf.readerIndex == old(buf.readerIndex)
    ensures r.Ok? <==> EncodeTail(v, q).Ok?
    ensures r.Ok? ==> buf.data == old(buf.data) + EncodeTail(v, q).value
    ensures r.Err? ==> r.error == NullValue
    ensures r.Err? && q.signData.None? ==> buf.data == old(buf.data)
    ensures r.Err? && q.signData.Some? ==> buf.data == old(buf.data) + EncodeSignData(q.signData.value)
  {
    if !AtLeast(v, V_1_19) {
      return Ok(());
    }
    if q.signData.None? {
      return Err(NullValue);
    }
    ghost var start := buf.data;
    var d := q.signData.value;
    buf.Write(EncodeLong(d.timestamp));
    buf.Write(EncodeSaltSignature(d.saltSignature));
    buf.Write(EncodeBool(d.signedPreview));
    assert buf.data == start + EncodeSignData(d);
    if AtLeast(v, V_1_19_1) {
      if q.lastSeen.None? {
        return Err(NullValue);
      }
      buf.Write(EncodeLastSeen(q.lastSeen.value));
      assert buf.data == start + (EncodeSignData(d) + EncodeLastSeen(q.lastSeen.value));
    }
    r := Ok(());
  }
}
