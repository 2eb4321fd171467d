/** The state of one packet event: ProtocolPacketEvent with its cancel flag,
    replacement wrapper, lazily allocated post-task list and buffer, and the
    two ways to build one. The wire constructor reads the packet id off the
    buffer; the copying constructor, which clones use, marks the event as a
    clone, and only a clone releases its buffer in cleanUp(). */
module Events {
  import opened JavaTypes
  import opened Wire
  import opened Versions
  import opened Buffers

  datatype PacketSide = Client | Server

  datatype ConnectionState = Handshaking | Status | Login | Play

  /** The group of a PacketTypeCommon: the enum its constant belongs to. */
  datatype TypeGroup =
    | HandshakingClient | StatusClient | StatusServer
    | LoginClient | LoginServer | PlayClient | PlayServer

  /** A packet type constant: its enum and its position in it. */
  datatype PacketType = PacketType(group: TypeGroup, ordinal: nat)

  /** PacketType.getById, which is not part of this model: the type of an
      id for a side, a connection state and a server version, or null. */
  type Resolver = (PacketSide, ConnectionState, Version, int32) -> Option<PacketType>

  /** The concrete class of an event. */
  datatype EventClass =
    | PlainSend | StatusSend | LoginSend | PlaySend
    | LoginReceive | OtherReceive

  predicate IsSend(c: EventClass)
  {
    c in {PlainSend, StatusSend, LoginSend, PlaySend}
  }

  /** PacketProcessExceptionReason; the packet id is the one read here. */
  datatype ProcessReason = PacketIdReason

  /** What an event operation can throw: a PacketProcessException with its
      reason, side and the readable size of the buffer, or a runtime
      exception of the buffer. */
  datatype Thrown =
    | PacketProcessException(reason: ProcessReason, side: PacketSide, size: nat)
    | RuntimeError(error: Error)

  /** A post task, known by its identity; running it is its own business. */
  type Task = nat

  /** The last used wrapper: the bytes its writeData() appends. */
  datatype Wrapper = Wrapper(payload: Bytes)

  /** The User of a connection, of which an event reads the state. */
  class User {
    var connectionState: ConnectionState

    constructor (state: ConnectionState)
      ensures connectionState == state
    {
      connectionState := state;
    }
  }

  class ProtocolPacketEvent {
    const eventClass: EventClass
    const channel: nat
    const connectionState: ConnectionState
    const user: User
    const player: nat
    var byteBuf: ByteBuf
    const packetId: int32
    const packetType: Option<PacketType>
    var serverVersion: Version
    var cancel: bool
    var lastUsedWrapper: Option<Wrapper>
    var postTasks: Option<seq<Task>>
    const cloned: bool

    /** The fields the wire constructor sets once the id is read. */
    constructor FromWire(eventClass: EventClass, channel: nat, user: User, player: nat, byteBuf: ByteBuf,
                         serverVersion: Version, packetId: int32, packetType: Option<PacketType>)
      ensures this.eventClass == eventClass && this.channel == channel && this.user == user
      ensures this.player == player && this.byteBuf == byteBuf && this.serverVersion == serverVersion
      ensures this.packetId == packetId && this.packetType == packetType
      ensures connectionState == user.connectionState
      ensures !cancel && lastUsedWrapper == None && postTasks == None && !IsClone()
    {
      this.eventClass := eventClass;
      this.channel := channel;
      this.user := user;
      this.player := player;
      this.serverVersion := serverVersion;
      this.byteBuf := byteBuf;
      this.packetId := packetId;
      this.packetType := packetType;
      this.connectionState := user.connectionState;
      cancel := false;
      lastUsedWrapper := None;
      postTasks := None;
      cloned := false;
    }

    /** The copying constructor: every field given, the connection state
        read from the user again, and the event marked as a clone. */
    constructor Copying(eventClass: EventClass, packetId: int32, packetType: Option<PacketType>,
                        serverVersion: Version, channel: nat, user: User, player: nat, byteBuf: ByteBuf)
      ensures this.eventClass == eventClass && this.channel == channel && this.user == user
      ensures this.player == player && this.byteBuf == byteBuf && this.serverVersion == serverVersion
      ensures this.packetId == packetId && this.packetType == packetType
      ensures connectionState == user.connectionState
      ensures !cancel && lastUsedWrapper == None && postTasks == None && IsClone()
    {
      this.eventClass := eventClass;
      this.channel := channel;
      this.user := user;
      this.player := player;
      this.serverVersion := serverVersion;
      this.byteBuf := byteBuf;
      this.packetId := packetId;
      this.packetType := packetType;
      this.connectionState := user.connectionState;
      cancel := false;
      lastUsedWrapper := None;
      postTasks := None;
      cloned := true;
    }

    predicate IsClone()
    {
      cloned
    }

    function GetByteBuf(): ByteBuf
      reads this
    {
      byteBuf
    }

    /** setByteBuf: what getByteBuf() returns from now on. */
    method SetByteBuf(b: ByteBuf)
      modifies this
      ensures GetByteBuf() == b
      ensures serverVersion == old(serverVersion) && cancel == old(cancel)
      ensures lastUsedWrapper == old(lastUsedWrapper) && postTasks == old(postTasks)
    {
      byteBuf := b;
    }

    predicate IsCancelled()
      reads this
    {
      cancel
    }

    /** setCancelled(v): isCancelled() is v, and nothing else changes. */
    method SetCancelled(v: bool)
      modifies this
      ensures IsCancelled() == v
      ensures byteBuf == old(byteBuf) && serverVersion == old(serverVersion)
      ensures lastUsedWrapper == old(lastUsedWrapper) && postTasks == old(postTasks)
    {
      cancel := v;
    }

    method SetLastUsedWrapper(w: Option<Wrapper>)
      modifies this
      ensures lastUsedWrapper == w
      ensures byteBuf == old(byteBuf) && serverVersion == old(serverVersion)
      ensures cancel == old(cancel) && postTasks == old(postTasks)
    {
      lastUsedWrapper := w;
    }

    /** getPostTasks(): the list, allocated empty on the first call; every
        later call returns the same list. */
    method GetPostTasks() returns (tasks: seq<Task>)
      modifies this
      ensures old(postTasks) == None ==> tasks == [] && postTasks == Some([])
      ensures old(postTasks) != None ==> tasks == old(postTasks).value && postTasks == old(postTasks)
      ensures byteBuf == old(byteBuf) && serverVersion == old(serverVersion)
      ensures cancel == old(cancel) && lastUsedWrapper == old(lastUsedWrapper)
    {
      if postTasks == None {
        postTasks := Some([]);
      }
      tasks := postTasks.value;
    }

    /** getPostTasks().add(task): `task` goes to the end of the list. */
    method AddPostTask(task: Task)
      modifies this
      ensures postTasks == Some((if old(postTasks) == None then [] else old(postTasks).value) + [task])
      ensures HasPostTasks()
      ensures byteBuf == old(byteBuf) && serverVersion == old(serverVersion)
      ensures cancel == old(cancel) && lastUsedWrapper == old(lastUsedWrapper)
    {
      var tasks := GetPostTasks();
      postTasks := Some(tasks + [task]);
    }

    /** hasPostTasks(): the list exists and is not empty. */
    predicate HasPostTasks()
      reads this
    {
      postTasks != None && |postTasks.value| > 0
    }

    /** cleanUp(): a clone releases its buffer once, and an original leaves
        the count alone. Releasing a freed buffer throws. */
    method CleanUp() returns (r: Result<()>)
      modifies byteBuf.refCnt
      ensures !IsClone() ==> r == Ok(()) && byteBuf.refCnt.count == old(byteBuf.refCnt.count)
      ensures IsClone() && old(byteBuf.refCnt.count) > 0 ==>
                r == Ok(()) && byteBuf.refCnt.count == old(byteBuf.refCnt.count) - 1
      ensures IsClone() && old(byteBuf.refCnt.count) == 0 ==> r == Err(Released)
    {
      r := Ok(());
      if IsClone() {
        var released := byteBuf.Release();
        if released.Err? {
          r := Err(released.error);
        }
      }
    }
  }

  /** The outcome of the wire constructor: the event, or what it threw. */
  datatype Creation = Created(event: ProtocolPacketEvent) | Threw(thrown: Thrown)

  /** The wire constructor: the readable size is taken first, then exactly
      one varint, the packet id, is read. A failed read throws
      PacketProcessException(PACKET_ID) with that size; otherwise the type
      is resolved from the side, the user's connection state, the server
      version and the id, and the state is kept as it was then. */
  method ReadEvent(side: PacketSide, eventClass: EventClass, channel: nat, user: User, player: nat,
                   buf: ByteBuf, serverVersion: Version, resolve: Resolver) returns (r: Creation)
    modifies buf
    ensures buf.data == old(buf.data)
    ensures r.Threw? <==> DecodeVarInt(old(buf.data), old(buf.readerIndex)).Failed?
    ensures r.Threw? ==> r.thrown == PacketProcessException(PacketIdReason, side, Readable(old(buf.data), old(buf.readerIndex)))
    ensures r.Created? ==>
              var id := DecodeVarInt(old(buf.data), old(buf.readerIndex));
              && fresh(r.event) && buf.readerIndex == id.next
              && r.event.packetId == id.value
              && r.event.packetType == resolve(side, user.connectionState, serverVersion, r.event.packetId)
              && r.event.connectionState == user.connectionState
              && r.event.byteBuf == buf && r.event.user == user && r.event.eventClass == eventClass
              && r.event.channel == channel && r.event.player == player && r.event.serverVersion == serverVersion
              && !r.event.IsClone() && !r.event.cancel && r.event.postTasks == None && r.event.lastUsedWrapper == None
  {
    var size := buf.ReadableBytes();
    var id := buf.ReadVarInt();
    if id.Err? {
      return Threw(PacketProcessException(PacketIdReason, side, size));
    }
    var packetType := resolve(side, user.connectionState, serverVersion, id.value);
    var event := new ProtocolPacketEvent.FromWire(eventClass, channel, user, player, buf, serverVersion, id.value, packetType);
    r := Created(event);
  }

  /** PacketSendEvent's wire constructor: the id is read and the type
      resolved on the SERVER side, and a failure reports that side. */
  method ReadSendEvent(eventClass: EventClass, channel: nat, user: User, player: nat,
                       buf: ByteBuf, serverVersion: Version, resolve: Resolver) returns (r: Creation)
    requires IsSend(eventClass)
    modifies buf
    ensures buf.data == old(buf.data)
    ensures r.Threw? <==> DecodeVarInt(old(buf.data), old(buf.readerIndex)).Failed?
    ensures r.Threw? ==> r.thrown == PacketProcessException(PacketIdReason, Server, Readable(old(buf.data), old(buf.readerIndex)))
    ensures r.Created? ==>
              && fresh(r.event) && !r.event.IsClone() && r.event.eventClass == eventClass
              && buf.readerIndex == DecodeVarInt(old(buf.data), old(buf.readerIndex)).next
              && r.event.packetId == DecodeVarInt(old(buf.data), old(buf.readerIndex)).value
              && r.event.packetType == resolve(Server, user.connectionState, serverVersion, r.event.packetId)
              && r.event.byteBuf == buf && r.event.user == user && r.event.channel == channel
              && !r.event.cancel && r.event.postTasks == None && r.event.lastUsedWrapper == None
  {
    r := ReadEvent(Server, eventClass, channel, user, player, buf, serverVersion, resolve);
  }

  /** PacketSendEvent's copying constructor delegates to the copying
      constructor, so the event is a clone. */
  method NewSendCopy(eventClass: EventClass, packetId: int32, packetType: Option<PacketType>,
                     serverVersion: Version, channel: nat, user: User, player: nat, byteBuf: ByteBuf)
    returns (e: ProtocolPacketEvent)
    requires IsSend(eventClass)
    ensures fresh(e) && e.IsClone() && e.eventClass == eventClass && e.byteBuf == byteBuf
    ensures e.packetId == packetId && e.packetType == packetType && e.serverVersion == serverVersion
  {
    e := new ProtocolPacketEvent.Copying(eventClass, packetId, packetType, serverVersion, channel, user, player, byteBuf);
  }

  /** The callbacks of a PacketListenerCommon an event can invoke. */
  datatype Invocation = OnPacketSend(listener: nat) | OnPacketReceive(listener: nat)

  /** PacketSendEvent.call(listener): only the send callback, only on that
      listener. */
  function SendCall(listener: nat): (r: Invocation)
    ensures r.OnPacketSend? && r.listener == listener
  {
    OnPacketSend(listener)
  }

  /** PacketSendEvent.clone(): which subclass's clone() runs; null (None)
      for a send event of any other class. */
  function SendCloneTarget(c: EventClass): (r: Option<EventClass>)
    requires IsSend(c)
    ensures r.Some? <==> c in {StatusSend, LoginSend, PlaySend}
    ensures r.Some? ==> r.value == c
  {
    match c
    case StatusSend => Some(StatusSend)
    case LoginSend => Some(LoginSend)
    case PlaySend => Some(PlaySend)
    case _ => None
  }

  /** The clone of an event of a class with a clone(): a copy built by the
      copying constructor over a retained duplicate of the buffer, so the
      copy is a clone with its own buffer object sharing the count, which
      goes up by one, and carries the same id, type, server version,
      channel, user and player. Duplicating a released buffer throws before
      anything is built. The copying constructor throws nothing, so the null
      result of the catch is never reached. */
  method CloneWithDuplicate(e: ProtocolPacketEvent) returns (r: Result<ProtocolPacketEvent>)
    modifies e.byteBuf.refCnt
    ensures r.Err? <==> old(e.byteBuf.refCnt.count) == 0
    ensures r.Err? ==> r.error == Released && e.byteBuf.refCnt.count == 0
    ensures r.Ok? ==> var c := r.value;
              && fresh(c) && fresh(c.byteBuf) && c.byteBuf != e.byteBuf && c.IsClone()
              && c.byteBuf.data == e.byteBuf.data && c.byteBuf.readerIndex == e.byteBuf.readerIndex
              && c.byteBuf.refCnt == e.byteBuf.refCnt && e.byteBuf.refCnt.count == old(e.byteBuf.refCnt.count) + 1
              && c.eventClass == e.eventClass && c.packetId == e.packetId && c.packetType == e.packetType
              && c.serverVersion == e.serverVersion && c.channel == e.channel && c.user == e.user && c.player == e.player
              && c.connectionState == e.user.connectionState
  {
    var clonedBuffer := e.byteBuf.RetainedDuplicate();
    if clonedBuffer.Err? {
      return Err(clonedBuffer.error);
    }
    var c := new ProtocolPacketEvent.Copying(e.eventClass, e.packetId, e.packetType, e.serverVersion,
                                             e.channel, e.user, e.player, clonedBuffer.value);
    r := Ok(c);
  }

  /** PacketLoginReceiveEvent.clone(): the duplicate is retained first, then
      the overriding getPacketType() casts the stored type. A type of another
      group throws a ClassCastException, which the catch of a
      PacketProcessException does not stop, and the count stays raised by
      the retain: the duplicate leaks. */
  method LoginReceiveClone(e: ProtocolPacketEvent) returns (r: Result<ProtocolPacketEvent>)
    requires e.eventClass == LoginReceive
    modifies e.byteBuf.refCnt
    ensures r.Err? <==> old(e.byteBuf.refCnt.count) == 0 || LoginPacketType(e).Err?
    ensures old(e.byteBuf.refCnt.count) == 0 ==> r == Err(Released) && e.byteBuf.refCnt.count == 0
    ensures old(e.byteBuf.refCnt.count) > 0 ==> e.byteBuf.refCnt.count == old(e.byteBuf.refCnt.count) + 1
    ensures old(e.byteBuf.refCnt.count) > 0 && LoginPacketType(e).Err? ==> r == Err(WrongClass)
    ensures r.Ok? ==> var c := r.value;
              && fresh(c) && fresh(c.byteBuf) && c.byteBuf != e.byteBuf && c.IsClone()
              && c.byteBuf.data == e.byteBuf.data && c.byteBuf.refCnt == e.byteBuf.refCnt
              && c.eventClass == LoginReceive && c.packetId == e.packetId && c.packetType == e.packetType
              && c.serverVersion == e.serverVersion && c.channel == e.channel && c.user == e.user && c.player == e.player
  {
    var clonedBuffer := e.byteBuf.RetainedDuplicate();
    if clonedBuffer.Err? {
      return Err(clonedBuffer.error);
    }
    var packetType := LoginPacketType(e);
    if packetType.Err? {
      return Err(packetType.error);
    }
    var c := new ProtocolPacketEvent.Copying(LoginReceive, e.packetId, packetType.value, e.serverVersion,
                                             e.channel, e.user, e.player, clonedBuffer.value);
    r := Ok(c);
  }

  /** PacketSendEvent.clone(): the subclass's clone for a Status, Login or
      Play send event, null for any other. */
  method SendClone(e: ProtocolPacketEvent) returns (r: Result<Option<ProtocolPacketEvent>>)
    requires IsSend(e.eventClass)
    modifies e.byteBuf.refCnt
    ensures SendCloneTarget(e.eventClass).None? ==> r == Ok(None) && e.byteBuf.refCnt.count == old(e.byteBuf.refCnt.count)
    ensures SendCloneTarget(e.eventClass).Some? ==> (r.Err? <==> old(e.byteBuf.refCnt.count) == 0)
    ensures SendCloneTarget(e.eventClass).Some? && r.Ok? ==> r.value.Some?
    ensures r.Ok? && r.value.Some? ==>
              && SendCloneTarget(e.eventClass).Some?
              && fresh(r.value.value) && r.value.value.IsClone() && r.value.value.byteBuf != e.byteBuf
              && r.value.value.eventClass == e.eventClass && r.value.value.packetId == e.packetId
              && r.value.value.byteBuf.refCnt == e.byteBuf.refCnt
              && e.byteBuf.refCnt.count == old(e.byteBuf.refCnt.count) + 1
  {
    if SendCloneTarget(e.eventClass).None? {
      return Ok(None);
    }
    var copy := CloneWithDuplicate(e);
    if copy.Err? {
      return Err(copy.error);
    }
    r := Ok(Some(copy.value));
  }

  /** PacketLoginReceiveEvent.getPacketType(): the stored type cast to a
      login client type. A null type casts to null; a type of another
      group throws. */
  function LoginPacketType(e: ProtocolPacketEvent): (r: Result<Option<PacketType>>)
    ensures r.Err? <==> e.packetType.Some? && e.packetType.value.group != LoginClient
    ensures r.Err? ==> r.error == WrongClass
    ensures r.Ok? ==> r.value == e.packetType && (r.value.Some? ==> r.value.value.group == LoginClient)
  {
    match e.packetType
    case None => Ok(None)
    case Some(t) => if t.group == LoginClient then Ok(Some(t)) else Err(WrongClass)
  }
}
