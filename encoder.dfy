/** PacketEncoderModern: the encoder the injector puts into a player's
    pipeline. encode() copies the outgoing packet into a working buffer,
    lets read() raise the send event on it and act on the listeners'
    decision (forward as is, replace by the last used wrapper, or drop),
    then passes what is left through the further encoders and the wrapped
    encoder, and releases the working buffer whatever happens. */
module EncoderModern {
  import opened JavaTypes
  import opened Wire
  import opened Versions
  import opened Buffers
  import opened Events

  /** A MessageToByteEncoder of the pipeline, known by its identity. */
  datatype EncoderRef = EncoderRef(id: nat)

  /** One call of an encoder on the working buffer: the bytes it writes to
      out, and how many of the readable bytes it reads. */
  datatype Step = Step(output: Bytes, consumed: nat)

  /** The encoders' behaviour, which is not part of this model. */
  type Apply = (EncoderRef, Bytes) -> Step

  /** The vanilla encoder on a server packet object: its bytes. */
  type Serialize = (EncoderRef, nat) -> Bytes

  /** What encode() receives: a ByteBuf, or a server packet object. */
  datatype Message = BufferMessage(buf: ByteBuf) | PacketObject(id: nat)

  /** What the send event's listeners leave behind: the cancel flag, the
      last used wrapper, the post-task list, and how many bytes their
      reads advanced the buffer past the packet id. */
  datatype Decision = Decision(cancel: bool, wrapper: Option<Wrapper>, tasks: Option<seq<Task>>, consumed: nat)

  /** How a method of the encoder ended: normally, or by a throw. */
  datatype Completion = Normal | Abrupt(thrown: Thrown)

  /** The reader index after reading `n` of the bytes readable from `pos`
      (never past the writer index). */
  function Advance(s: Bytes, pos: nat, n: nat): (r: nat)
    ensures pos <= |s| ==> pos <= r <= |s|
    ensures pos > |s| ==> r == pos
  {
    if pos > |s| then pos
    else if n <= |s| - pos then pos + n
    else |s|
  }

  /** The working buffer and out: bytes and reader index of each. */
  datatype Pipe = Pipe(work: Bytes, workRead: nat, out: Bytes, outRead: nat)

  /** The encoder loop on a pipe: each encoder writes into out; when out
      has readable bytes they become the whole working buffer and out is
      emptied, and the loop goes on; when it has none, the loop stops. */
  function Chain(apply: Apply, encoders: seq<EncoderRef>, p: Pipe): Pipe
    decreases |encoders|
  {
    if |encoders| == 0 then p
    else
      var step := apply(encoders[0], Unread(p.work, p.workRead));
      var out := p.out + step.output;
      if p.outRead < |out| then Chain(apply, encoders[1..], Pipe(Unread(out, p.outRead), 0, [], 0))
      else Pipe(p.work, Advance(p.work, p.workRead, step.consumed), out, p.outRead)
  }

  /** The last stage: the wrapped encoder when it is not the vanilla one
      (a null wrapped encoder then throws), else a copy of the readable
      working bytes. The result is out's new bytes. */
  function Finish(apply: Apply, wrapped: Option<EncoderRef>, vanilla: Option<EncoderRef>, p: Pipe): Result<Bytes>
  {
    if wrapped != vanilla then
      if wrapped.None? then Err(NullValue)
      else Ok(p.out + apply(wrapped.value, Unread(p.work, p.workRead)).output)
    else Ok(p.out + Unread(p.work, p.workRead))
  }

  /** The working bytes read() leaves for the rest of encode(): nothing
      when cancelled, the packet id and the wrapper's data when a wrapper
      was used, else the packet as it came. */
  function AfterRead(input: Bytes, d: Decision): Bytes
  {
    var id := DecodeVarInt(input, 0);
    if d.cancel || id.Failed? then []
    else if d.wrapper.Some? then EncodeVarInt(id.value) + d.wrapper.value.payload
    else input
  }

  /** A readable varint takes at least one byte. */
  lemma ParsedVarIntNonEmpty(s: Bytes)
    requires DecodeVarInt(s, 0).Parsed?
    ensures |s| > 0
  {
  }

  /** The listeners of the event, with the reset callback run after them:
      they set the cancel flag, the last used wrapper and the post tasks,
      and may have read the buffer; the callback puts the reader index
      back to just after the packet id. */
  method CallEvent(event: ProtocolPacketEvent, buffer: ByteBuf, processIndex: nat, d: Decision)
    requires event.byteBuf == buffer
    modifies event, buffer
    ensures event.cancel == d.cancel && event.lastUsedWrapper == d.wrapper && event.postTasks == d.tasks
    ensures event.byteBuf == buffer && event.serverVersion == old(event.serverVersion)
    ensures buffer.data == old(buffer.data) && buffer.readerIndex == processIndex
  {
    event.cancel := d.cancel;
    event.lastUsedWrapper := d.wrapper;
    event.postTasks := d.tasks;
    buffer.readerIndex := Advance(buffer.data, buffer.readerIndex, d.consumed);
    buffer.readerIndex := processIndex;
  }

  /** The forward / replace / drop decision of read(): a cancelled event
      leaves the buffer cleared; a kept one with a last used wrapper has the
      buffer cleared and refilled with the packet id and the wrapper's
      data; then the reader index of a kept one goes back to `pre`. */
  method Decide(event: ProtocolPacketEvent, buffer: ByteBuf, pre: nat) returns (r: Completion)
    requires event.byteBuf == buffer
    modifies buffer
    ensures event.cancel ==> r == Normal && buffer.data == [] && buffer.readerIndex == 0
    ensures !event.cancel ==>
              && buffer.data == (if event.lastUsedWrapper.Some?
                                 then EncodeVarInt(event.packetId) + event.lastUsedWrapper.value.payload
                                 else old(buffer.data))
              && (r == Normal <==> pre <= |buffer.data|)
              && (r == Normal ==> buffer.readerIndex == pre)
              && (r != Normal ==> r == Abrupt(RuntimeError(IndexOutOfBounds)))
  {
    if !event.IsCancelled() {
      if event.lastUsedWrapper.Some? {
        var target := event.GetByteBuf();
        target.Clear();
        target.WriteVarInt(event.packetId);
        target.Write(event.lastUsedWrapper.value.payload);
      }
      var reset := buffer.SetReaderIndex(pre);
      r := if reset.Err? then Abrupt(RuntimeError(reset.error)) else Normal;
    } else {
      buffer.Clear();
      r := Normal;
    }
  }

  /** The post tasks of an event, run in list order. */
  method RunPostTasks(event: ProtocolPacketEvent) returns (ran: seq<Task>)
    ensures ran == (if event.HasPostTasks() then event.postTasks.value else [])
  {
    ran := [];
    if event.HasPostTasks() {
      var tasks := event.postTasks.value;
      for k := 0 to |tasks|
        invariant ran == tasks[..k]
      {
        ran := ran + [tasks[k]];
      }
    }
  }

  /** One encoder on the working buffer: its output goes to out, and the
      working buffer's reader index moves past what it read. */
  method CallEncode(work: ByteBuf, out: ByteBuf, apply: Apply, encoder: EncoderRef)
    requires work != out
    modifies work, out
    ensures out.data == old(out.data) + apply(encoder, old(work.Remaining())).output
    ensures out.readerIndex == old(out.readerIndex) && work.data == old(work.data)
    ensures work.readerIndex == Advance(work.data, old(work.readerIndex), apply(encoder, old(work.Remaining())).consumed)
  {
    var step := apply(encoder, work.Remaining());
    out.Write(step.output);
    work.readerIndex := Advance(work.data, work.readerIndex, step.consumed);
  }

  function State(work: ByteBuf, out: ByteBuf): Pipe
    reads work, out
  {
    Pipe(work.data, work.readerIndex, out.data, out.readerIndex)
  }

  /** The loop over the further encoders, with its break. */
  method RunChain(work: ByteBuf, out: ByteBuf, apply: Apply, encoders: seq<EncoderRef>)
    requires work != out
    modifies work, out
    ensures State(work, out) == Chain(apply, encoders, old(State(work, out)))
  {
    var i := 0;
    while i < |encoders|
      invariant 0 <= i <= |encoders|
      invariant Chain(apply, encoders, old(State(work, out))) == Chain(apply, encoders[i..], State(work, out))
    {
      ghost var before := State(work, out);
      CallEncode(work, out, apply, encoders[i]);
      if out.IsReadable() {
        work.Clear();
        work.WriteBytes(out);
        out.Clear();
      } else {
        assert Chain(apply, encoders[i..], before) == State(work, out);
        break;
      }
      assert encoders[i..][1..] == encoders[i + 1..];
      i := i + 1;
    }
  }

  /** The further encoders, then the last stage, on a readable working
      buffer. */
  method Forward(work: ByteBuf, out: ByteBuf, apply: Apply, encoders: seq<EncoderRef>,
                 wrapped: Option<EncoderRef>, vanilla: Option<EncoderRef>) returns (r: Completion)
    requires work != out
    modifies work, out
    ensures var p := Chain(apply, encoders, old(State(work, out)));
            var f := Finish(apply, wrapped, vanilla, p);
            && out.readerIndex == p.outRead
            && (f.Ok? ==> r == Normal && out.data == f.value)
            && (f.Err? ==> r == Abrupt(RuntimeError(f.error)) && out.data == p.out)
  {
    RunChain(work, out, apply, encoders);
    r := Normal;
    if wrapped != vanilla {
      if wrapped.None? {
        r := Abrupt(RuntimeError(NullValue));
      } else {
        CallEncode(work, out, apply, wrapped.value);
      }
    } else {
      out.WriteBytes(work);
    }
  }

  /** The start of encode(): a packet object goes through the vanilla
      encoder into the empty working buffer, a ByteBuf's readable bytes are
      copied into it; false when encode() returns at once. */
  method Load(msg: Message, work: ByteBuf, serialize: Serialize, vanilla: Option<EncoderRef>) returns (proceed: bool)
    requires work.data == [] && work.readerIndex == 0
    requires msg.BufferMessage? ==> msg.buf != work
    modifies work, if msg.BufferMessage? then {msg.buf} else {}
    ensures work.readerIndex == 0
    ensures proceed <==> if msg.PacketObject? then vanilla.Some? else old(msg.buf.ReadableBytes()) > 0
    ensures proceed ==> work.data == if msg.PacketObject? then serialize(vanilla.value, msg.id) else old(msg.buf.Remaining())
  {
    proceed := true;
    if msg.PacketObject? {
      if vanilla.None? {
        proceed := false;
      } else {
        work.Write(serialize(vanilla.value, msg.id));
      }
    } else {
      var source := msg.buf;
      if source.ReadableBytes() == 0 {
        proceed := false;
      } else {
        work.WriteBytes(source);
      }
    }
  }

  /** The encoder as the injector leaves it: its user and player, the
      wrapped and the vanilla encoder, and the further encoders. */
  class PacketEncoderModern {
    const user: User
    var player: nat
    var wrappedEncoder: Option<EncoderRef>
    var vanillaEncoder: Option<EncoderRef>
    var encoders: seq<EncoderRef>

    constructor (user: User)
      ensures this.user == user && player == 0
      ensures wrappedEncoder == None && vanillaEncoder == None && encoders == []
    {
      this.user := user;
      player := 0;
      wrappedEncoder := None;
      vanillaEncoder := None;
      encoders := [];
    }

    /** read(ctx, buffer): raises the send event on the buffer, then
        - cancelled: the buffer is cleared, so nothing is readable;
        - not cancelled, with a wrapper: the buffer is cleared and gets
          the packet id and the wrapper's data, and the reader index goes
          back to where it was before the event;
        - not cancelled, without a wrapper: the bytes stay and only the
          reader index goes back.
        The post tasks then run in order, whichever way it went. */
    method Read(buffer: ByteBuf, eventClass: EventClass, channel: nat, serverVersion: Version,
                resolve: Resolver, d: Decision)
      returns (r: Completion, ran: seq<Task>)
      requires IsSend(eventClass)
      modifies buffer
      ensures var id := DecodeVarInt(old(buffer.data), old(buffer.readerIndex));
              && (id.Failed? ==> r == Abrupt(PacketProcessException(PacketIdReason, Server,
                                               Readable(old(buffer.data), old(buffer.readerIndex))))
                                 && buffer.data == old(buffer.data) && ran == [])
              && (id.Parsed? && d.cancel ==> r == Normal && buffer.data == [] && buffer.readerIndex == 0)
              && (id.Parsed? && !d.cancel && d.wrapper.None? ==>
                    r == Normal && buffer.data == old(buffer.data) && buffer.readerIndex == old(buffer.readerIndex))
              && (id.Parsed? && !d.cancel && d.wrapper.Some? ==>
                    && buffer.data == EncodeVarInt(id.value) + d.wrapper.value.payload
                    && (r == Normal <==> old(buffer.readerIndex) <= |buffer.data|)
                    && (r == Normal ==> buffer.readerIndex == old(buffer.readerIndex))
                    && (r != Normal ==> r == Abrupt(RuntimeError(IndexOutOfBounds)) && ran == []))
              && (r == Normal ==> ran == (if d.tasks.Some? then d.tasks.value else []))
    {
      var preProcessIndex := buffer.readerIndex;
      var created := ReadSendEvent(eventClass, channel, user, player, buffer, serverVersion, resolve);
      if created.Threw? {
        return Abrupt(created.thrown), [];
      }
      var packetSendEvent := created.event;
      var processIndex := buffer.readerIndex;
      CallEvent(packetSendEvent, buffer, processIndex, d);
      r := Decide(packetSendEvent, buffer, preProcessIndex);
      if r != Normal {
        return r, [];
      }
      ran := RunPostTasks(packetSendEvent);
      r := Normal;
    }

    /** The part of encode() after the packet is in the working buffer:
        read(), then, when something is left to read, the encoders. */
    method Process(work: ByteBuf, out: ByteBuf, apply: Apply, eventClass: EventClass,
                   channel: nat, serverVersion: Version, resolve: Resolver, d: Decision)
      returns (r: Completion, ran: seq<Task>)
      requires IsSend(eventClass) && work != out && work.readerIndex == 0
      modifies work, out
      ensures Effect(r, out.data, out.readerIndex, ran) ==
              ProcessSpec(apply, encoders, wrappedEncoder, vanillaEncoder, old(work.data), old(out.data), old(out.readerIndex), d)
    {
      r, ran := Read(work, eventClass, channel, serverVersion, resolve, d);
      if r == Normal && work.IsReadable() {
        ParsedVarIntNonEmpty(old(work.data));
        r := Forward(work, out, apply, encoders, wrappedEncoder, vanillaEncoder);
      }
    }

    /** encode(ctx, o, out): the working buffer is allocated with a count
        of one and released exactly once on every path, early returns and
        throws included; out ends as EncodeSpec says. */
    method Encode(msg: Message, out: ByteBuf, apply: Apply, serialize: Serialize, eventClass: EventClass,
                  channel: nat, serverVersion: Version, resolve: Resolver, d: Decision)
      returns (r: Completion, transformed: ByteBuf, ran: seq<Task>)
      requires IsSend(eventClass)
      requires msg.BufferMessage? ==> msg.buf != out
      modifies out, if msg.BufferMessage? then {msg.buf} else {}
      ensures fresh(transformed) && fresh(transformed.refCnt) && transformed.refCnt.count == 0
      ensures Effect(r, out.data, out.readerIndex, ran) ==
              EncodeSpec(apply, encoders, wrappedEncoder, vanillaEncoder, serialize, msg,
                         if msg.BufferMessage? then old(msg.buf.Remaining()) else [], old(out.data), old(out.readerIndex), d)
    {
      transformed := new ByteBuf([]);
      r, ran := Normal, [];
      var proceed := Load(msg, transformed, serialize, vanillaEncoder);
      if proceed {
        r, ran := Process(transformed, out, apply, eventClass, channel, serverVersion, resolve, d);
      }
      var released := transformed.Release();
    }
  }

  /** What a call leaves behind: how it ended, out's bytes and reader
      index, and the post tasks run. */
  datatype Effect = Effect(r: Completion, out: Bytes, outRead: nat, ran: seq<Task>)

  /** The post tasks read() runs once the event exists. */
  function TasksOf(d: Decision): seq<Task>
  {
    if d.tasks.Some? then d.tasks.value else []
  }

  /** read() and what follows it in encode(), on a working buffer holding
      `input` from index 0: a packet id that cannot be read throws before
      any task runs; a dropped packet leaves out alone; a kept one goes
      through Chain and Finish. */
  function ProcessSpec(apply: Apply, encoders: seq<EncoderRef>, wrapped: Option<EncoderRef>,
                       vanilla: Option<EncoderRef>, input: Bytes, out: Bytes, outRead: nat, d: Decision): Effect
  {
    var id := DecodeVarInt(input, 0);
    if id.Failed? then Effect(Abrupt(PacketProcessException(PacketIdReason, Server, |input|)), out, outRead, [])
    else if d.cancel then Effect(Normal, out, outRead, TasksOf(d))
    else
      var p := Chain(apply, encoders, Pipe(AfterRead(input, d), 0, out, outRead));
      match Finish(apply, wrapped, vanilla, p)
      case Ok(bytes) => Effect(Normal, bytes, p.outRead, TasksOf(d))
      case Err(e) => Effect(Abrupt(RuntimeError(e)), p.out, p.outRead, TasksOf(d))
  }

  /** encode(): a packet object without a vanilla encoder, or a ByteBuf
      with nothing readable, returns at once; anything else is processed. */
  function EncodeSpec(apply: Apply, encoders: seq<EncoderRef>, wrapped: Option<EncoderRef>,
                      vanilla: Option<EncoderRef>, serialize: Serialize, msg: Message, readable: Bytes,
                      out: Bytes, outRead: nat, d: Decision): Effect
  {
    if msg.PacketObject? && vanilla.None? then Effect(Normal, out, outRead, [])
    else if msg.BufferMessage? && |readable| == 0 then Effect(Normal, out, outRead, [])
    else
      var input := if msg.PacketObject? then serialize(vanilla.value, msg.id) else readable;
      ProcessSpec(apply, encoders, wrapped, vanilla, input, out, outRead, d)
  }

  /** A dropped packet adds nothing to out, whatever the message, the
      encoders and the wrapper. */
  lemma DroppedPacketWritesNothing(apply: Apply, encoders: seq<EncoderRef>, wrapped: Option<EncoderRef>,
                                   vanilla: Option<EncoderRef>, serialize: Serialize, msg: Message,
                                   readable: Bytes, out: Bytes, outRead: nat, d: Decision)
    requires d.cancel
    ensures var e := EncodeSpec(apply, encoders, wrapped, vanilla, serialize, msg, readable, out, outRead, d);
            e.out == out && e.outRead == outRead && (e.r.Abrupt? ==> e.r.thrown.PacketProcessException?)
  {
  }

  /** The reference for the encoder loop on an empty out: an encoder's
      output, when there is any, is the next encoder's input; the first
      encoder that outputs nothing stops the loop and leaves what it did
      not read. */
  function Pipeline(apply: Apply, encoders: seq<EncoderRef>, w: Bytes): Bytes
    decreases |encoders|
  {
    if |encoders| == 0 then w
    else
      var step := apply(encoders[0], w);
      if |step.output| > 0 then Pipeline(apply, encoders[1..], step.output)
      else w[(if step.consumed <= |w| then step.consumed else |w|)..]
  }

  /** The loop agrees with the reference, and leaves out empty. */
  lemma {:induction false} ChainIsPipeline(apply: Apply, encoders: seq<EncoderRef>, w: Bytes)
    ensures var p := Chain(apply, encoders, Pipe(w, 0, [], 0));
            p.out == [] && p.outRead == 0 && Unread(p.work, p.workRead) == Pipeline(apply, encoders, w)
    decreases |encoders|
  {
    if |encoders| > 0 {
      assert Unread(w, 0) == w;
      var step := apply(encoders[0], w);
      if |step.output| > 0 {
        assert Unread([] + step.output, 0) == step.output;
        ChainIsPipeline(apply, encoders[1..], step.output);
      }
    }
  }

  /** A kept packet, on an empty out: what reaches out is the packet as
      it came, or the packet id and the wrapper's data, through the
      further encoders and then the last stage; the post tasks run. */
  lemma KeptPacketReachesOut(apply: Apply, encoders: seq<EncoderRef>, wrapped: Option<EncoderRef>,
                             vanilla: Option<EncoderRef>, input: Bytes, d: Decision)
    requires DecodeVarInt(input, 0).Parsed? && !d.cancel
    ensures var e := ProcessSpec(apply, encoders, wrapped, vanilla, input, [], 0, d);
            var w := Pipeline(apply, encoders, AfterRead(input, d));
            && (wrapped == vanilla ==> e == Effect(Normal, w, 0, TasksOf(d)))
            && (wrapped != vanilla && wrapped.Some? ==> e == Effect(Normal, apply(wrapped.value, w).output, 0, TasksOf(d)))
            && (wrapped != vanilla && wrapped.None? ==> e == Effect(Abrupt(RuntimeError(NullValue)), [], 0, TasksOf(d)))
  {
    ChainIsPipeline(apply, encoders, AfterRead(input, d));
  }

  /** With no further encoder and the vanilla encoder as the last stage,
      a kept packet is forwarded as it came when no wrapper was used, and
      replaced by the packet id and the wrapper's data when one was. */
  lemma ForwardOrReplace(vanilla: Option<EncoderRef>, apply: Apply, input: Bytes, d: Decision)
    requires DecodeVarInt(input, 0).Parsed? && !d.cancel
    ensures d.wrapper.None? ==> ProcessSpec(apply, [], vanilla, vanilla, input, [], 0, d).out == input
    ensures d.wrapper.Some? ==> ProcessSpec(apply, [], vanilla, vanilla, input, [], 0, d).out ==
                                  EncodeVarInt(DecodeVarInt(input, 0).value) + d.wrapper.value.payload
  {
    KeptPacketReachesOut(apply, [], vanilla, vanilla, input, d);
  }

  /** The rewritten packet still starts with the packet id read from the
      original, which a decoder reads back. */
  lemma {:induction false} ReplacedPacketKeepsId(input: Bytes, d: Decision)
    requires DecodeVarInt(input, 0).Parsed? && !d.cancel && d.wrapper.Some?
    ensures var id := DecodeVarInt(input, 0).value;
            DecodeVarInt(AfterRead(input, d), 0) == Parsed(id, |EncodeVarInt(id)|)
  {
    var id := DecodeVarInt(input, 0).value;
    var e := EncodeVarInt(id);
    var s := e + d.wrapper.value.payload;
    assert forall i :: 0 <= i < |e| ==> s[0 + i] == e[i];
    VarIntRoundTrip(s, 0, id);
  }
}
