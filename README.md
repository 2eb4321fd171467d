# packetevents, modelled in Dafny

This project models the packet path of packetevents, a Minecraft protocol
library: what happens to a packet once it has been intercepted, and the
codecs and tables that path relies on. It covers five areas.

- **Listener dispatch** (`event_manager.dfy`). `EventManagerDynamic` keeps
  listeners in a map from priority to a list. `callEvent` walks the
  priorities from LOWEST to MONITOR and runs the inline listeners of each
  list in order. It folds the cancel flag through them and routes
  worker-pool listeners away.
- **Packet events** (`events.dfy`). `ProtocolPacketEvent` holds the cancel
  flag, the replacement wrapper, the lazily allocated post-task list and the
  buffer. The wire constructor reads the packet id. A clone (built by the
  copying constructor over a retained duplicate) is the only kind of event
  whose `cleanUp` releases its buffer. The file also covers the dispatch of
  `PacketSendEvent` and `PacketLoginReceiveEvent`.
- **The encoder** (`encoder.dfy`). `PacketEncoderModern.read` forwards,
  replaces or drops a packet after its send event. `encode` chains the
  further encoders and releases the working buffer on every path. Both
  methods are proved against reference functions (`ProcessSpec`,
  `EncodeSpec`, `Pipeline`).
- **Id tables**:
  - the particle registry filled by `define`, in `particle_types.dfy`;
  - the 1.19.1 serverbound packet table, in `serverbound_types.dfy`;
  - `DimensionType`, in `dimension_type.dfy`.
- **Packet wrappers and small value logic**:
  - one file per wrapper class, each a class whose `Read`/`Write` methods
    work on a buffer and are tied to pure `Decode`/`Encode` functions, with
    round-trip lemmas on those functions;
  - `TileEntity` nibble packing;
  - `StateType` equality;
  - the destroy-entities split of `PacketTransformationUtil`.

The codec layer of `PacketWrapper`/`ByteBufHelper` is not part of this
model. It is defined here from the protocol's conventions:
- `wire.dfy`:
  - varints in base 128, least significant group first, at most 5 bytes, read
    by the vanilla loop;
  - big-endian fixed-width integers;
  - booleans as one byte;
  - floats and doubles as bit patterns;
  - byte arrays and strings as a varint length followed by the bytes, with
    the read limit checked.
- `buffers.dfy`: a `ByteBuf` class with bytes, a reader index and a shared
  reference count.
- `java_types.dfy`: Java's fixed-width integers and their wrap-around.

Strings are modelled by their UTF-8 bytes. A string's length in characters
is its number of UTF-16 units, computed from those bytes. `readString`'s
limit counts those characters, while `writeString`'s limit counts the
UTF-8 bytes.
`ServerVersion` and `ClientVersion` are both the release's protocol number
(`versions.dfy`), and `toClientVersion` is the identity.

## Model

| member | source | states |
|---|---|---|
| ParticleTypes.SharedIndexSharesId | api/src/main/java/com/github/retrooper/packetevents/protocol/particle/type/ParticleTypes.java:49-52 | two versions that share a data index see the same id for every type |
| ParticleTypes.EqualsByName | api/src/main/java/com/github/retrooper/packetevents/protocol/particle/type/ParticleTypes.java:64-70 | equals() is an equivalence decided by the name alone, whatever the ids and data functions |
| ParticleTypes.Put | api/src/main/java/com/github/retrooper/packetevents/protocol/particle/type/ParticleTypes.java:76-77 | after computeIfAbsent(...).put(id, t) the bucket exists and maps the id to the type |
| ParticleTypes.FiledFinds | api/src/main/java/com/github/retrooper/packetevents/protocol/particle/type/ParticleTypes.java:73-78 | after define's loop over the versions, each version's bucket maps the type's id in that version to the type, unless a later version of the loop reused that bucket and id |
| ParticleTypes.FiledKeeps | api/src/main/java/com/github/retrooper/packetevents/protocol/particle/type/ParticleTypes.java:73-78 | define's loop only adds: an entry whose bucket and id it does not write keeps its type |
| ParticleTypes.LookupId | api/src/main/java/com/github/retrooper/packetevents/protocol/particle/type/ParticleTypes.java:97-101 | getById fails with a null bucket exactly when no type was filed for the version's data index, and otherwise returns the filed type or null |
| ParticleTypes.ParticleRegistry.constructor | api/src/main/java/com/github/retrooper/packetevents/protocol/particle/type/ParticleTypes.java:34-36 | the registry starts with empty name and id maps |
| ParticleTypes.ParticleRegistry.Define | api/src/main/java/com/github/retrooper/packetevents/protocol/particle/type/ParticleTypes.java:38-80 | define(key, read, write) puts the type under its name (replacing an earlier one) and files it under its id in every version's bucket, keeping the registry's invariant that each filed type has an id for every data index |
| ParticleTypes.ParticleRegistry.GetByName | api/src/main/java/com/github/retrooper/packetevents/protocol/particle/type/ParticleTypes.java:93-95 | getByName returns the type stored under the name, and null exactly when there is none |
| ParticleTypes.DefineFinds | api/src/main/java/com/github/retrooper/packetevents/protocol/particle/type/ParticleTypes.java:73-78 | once define() has run, getById with the type's own id in any version finds the type |
| ParticleTypes.LaterDefineWins | api/src/main/java/com/github/retrooper/packetevents/protocol/particle/type/ParticleTypes.java:73-78 | a later define that takes the same bucket and id replaces the earlier type there |
| ParticleTypes.EarlierDefineKept | api/src/main/java/com/github/retrooper/packetevents/protocol/particle/type/ParticleTypes.java:73-78 | a later define that takes none of a type's bucket and id pairs leaves it findable |
| ParticleTypes.NoDataIsEmpty | api/src/main/java/com/github/retrooper/packetevents/protocol/particle/type/ParticleTypes.java:82-90 | a type defined with the one-argument define reads empty data without consuming bytes and writes nothing |
| ParticleTypes.EncodeData | api/src/main/java/com/github/retrooper/packetevents/protocol/particle/data/ParticleBlockStateData.java:47-49 | the block-state write function throws a class-cast error exactly when given data that is not block-state data |
| ParticleTypes.DataRoundTrip | api/src/main/java/com/github/retrooper/packetevents/protocol/particle/data/ParticleBlockStateData.java:40-49 | a type's read function gives back the data its write function produced (empty data for a type without data functions), consuming exactly those bytes |
| ParticleTypes.IsEmpty | api/src/main/java/com/github/retrooper/packetevents/protocol/particle/data/ParticleBlockStateData.java:51-54 | block-state data is never empty |
| ParticleTypes.LegacyIsWireValue | api/src/main/java/com/github/retrooper/packetevents/protocol/particle/data/ParticleBlockStateData.java:40-59 | the legacy value, whatever the version, is the global id that write() puts on the wire as a varint, and read() turns those bytes back into the same block state |
| ParticleTypes.ReadBlockStateData | api/src/main/java/com/github/retrooper/packetevents/protocol/particle/data/ParticleBlockStateData.java:40-45 | reading block-state data consumes one varint and agrees with the data decoder, failing when it fails |
| ParticleTypes.WriteBlockStateData | api/src/main/java/com/github/retrooper/packetevents/protocol/particle/data/ParticleBlockStateData.java:47-49 | writing block-state data appends the global id's varint and moves nothing else |
| ParticlePacket.BodyLength | api/src/main/java/com/github/retrooper/packetevents/wrapper/play/server/WrapperPlayServerParticle.java:77-85 | the fields between the type id and the data always take 45 bytes |
| ParticlePacket.BodyRoundTrip | api/src/main/java/com/github/retrooper/packetevents/wrapper/play/server/WrapperPlayServerParticle.java:63-85 | reading the body fields back gives every field bit for bit and consumes 45 bytes |
| ParticlePacket.Encode | api/src/main/java/com/github/retrooper/packetevents/wrapper/play/server/WrapperPlayServerParticle.java:74-87 | write() fails exactly when the type's data function refuses the data; otherwise it emits the type's id for the client version, the body, then the data |
| ParticlePacket.RoundTrip | api/src/main/java/com/github/retrooper/packetevents/wrapper/play/server/WrapperPlayServerParticle.java:57-87 | read() after write() gives back the particle type, the data as that type reads it and the body, provided the registry finds the type under its id, and consumes exactly what was written |
| ParticlePacket.UnknownId | api/src/main/java/com/github/retrooper/packetevents/wrapper/play/server/WrapperPlayServerParticle.java:61-69 | an id that the registry does not know in the client's version makes read() fail with a null type, after the body has been read |
| ParticlePacket.BodyAfterReadDecoded | api/src/main/java/com/github/retrooper/packetevents/wrapper/play/server/WrapperPlayServerParticle.java:63-67 | a body read that completes leaves exactly the decoded body, whatever the fields held before |
| ParticlePacket.AfterReadDecoded | api/src/main/java/com/github/retrooper/packetevents/wrapper/play/server/WrapperPlayServerParticle.java:57-71 | a read that completes leaves exactly the decoded particle and body, whatever the fields held before |
| ParticlePacket.UnknownIdKeepsParticle | api/src/main/java/com/github/retrooper/packetevents/wrapper/play/server/WrapperPlayServerParticle.java:61-69 | with an unknown id, the failed read has already overwritten the whole body and keeps the old particle |
| ParticlePacket.WrapperPlayServerParticle.ReadBody | api/src/main/java/com/github/retrooper/packetevents/wrapper/play/server/WrapperPlayServerParticle.java:63-67 | the body's reads agree with the body decoder; the flag, the position (three doubles), the offset (three floats), the speed and the count are each assigned once their reads succeed, and the particle is untouched |
| ParticlePacket.WriteBody | api/src/main/java/com/github/retrooper/packetevents/wrapper/play/server/WrapperPlayServerParticle.java:77-85 | the body's writes append its encoding |
| ParticlePacket.WrapperPlayServerParticle.constructor | api/src/main/java/com/github/retrooper/packetevents/wrapper/play/server/WrapperPlayServerParticle.java:46-55 | the wrapper holds the given particle and body |
| ParticlePacket.WrapperPlayServerParticle.Read | api/src/main/java/com/github/retrooper/packetevents/wrapper/play/server/WrapperPlayServerParticle.java:57-71 | read() on a buffer agrees with the decoder, reports its failure, and leaves the reader index after the packet on success; whether it completes or fails, the fields are those AfterRead gives: each takes its value as soon as its own read succeeds, so a failed read keeps what it already assigned and the old values after, with the particle assigned only at the end |
| ParticlePacket.WrapperPlayServerParticle.Write | api/src/main/java/com/github/retrooper/packetevents/wrapper/play/server/WrapperPlayServerParticle.java:73-87 | write() appends the packet's encoding; when the data function throws, what was written before it stays in the buffer |
| ParticlePacket.WrapperPlayServerParticle.Copy | api/src/main/java/com/github/retrooper/packetevents/wrapper/play/server/WrapperPlayServerParticle.java:89-97 | copy() takes over every field of the other wrapper |
| EventManager.InlineOf | src/main/java/io/github/retrooper/packetevents/event/manager/EventManagerDynamic.java:70-77 | the listeners run on Netty's thread are exactly those of the list that are not worker-pool listeners with the pool running |
| EventManager.PooledOf | src/main/java/io/github/retrooper/packetevents/event/manager/EventManagerDynamic.java:70-77 | the listeners handed to the worker pool are exactly the worker-pool listeners when the pool runs |
| EventManager.RoutingSplits | src/main/java/io/github/retrooper/packetevents/event/manager/EventManagerDynamic.java:68-77 | every listener of a priority's list goes to exactly one of the two lists, once |
| EventManager.EventManagerDynamic.constructor | src/main/java/io/github/retrooper/packetevents/event/manager/EventManagerDynamic.java:45-45 | a new manager has no listener |
| EventManager.EventManagerDynamic.RegisterListener | src/main/java/io/github/retrooper/packetevents/event/manager/EventManagerDynamic.java:121-124 | the listener is appended to the list of its own priority, creating the list if absent, and every listener stays filed under its own priority |
| EventManager.EventManagerDynamic.RegisterListeners | src/main/java/io/github/retrooper/packetevents/event/manager/EventManagerDynamic.java:129-133 | registering several listeners registers each in order |
| EventManager.EventManagerDynamic.UnregisterListener | src/main/java/io/github/retrooper/packetevents/event/manager/EventManagerDynamic.java:138-144 | the first occurrence of the listener leaves its priority's list; an absent list is left alone |
| EventManager.EventManagerDynamic.UnregisterListeners | src/main/java/io/github/retrooper/packetevents/event/manager/EventManagerDynamic.java:150-154 | unregistering several listeners unregisters each in order |
| EventManager.EventManagerDynamic.UnregisterAllListeners | src/main/java/io/github/retrooper/packetevents/event/manager/EventManagerDynamic.java:159-161 | the map is emptied |
| EventManager.EventManagerDynamic.CallEvent | src/main/java/io/github/retrooper/packetevents/event/manager/EventManagerDynamic.java:57-115 | the inline listeners run priority by priority from LOWEST to MONITOR, each list in its order; the worker-pool listeners are collected; the highest priority with a list is reported; a cancellable event ends with the flag the inline listeners left, starting from its own |
| EventManager.Route | src/main/java/io/github/retrooper/packetevents/event/manager/EventManagerDynamic.java:68-77 | the split of one list into the inline and the pooled listeners |
| EventManager.RunInline | src/main/java/io/github/retrooper/packetevents/event/manager/EventManagerDynamic.java:78-88 | each inline listener runs in order, and the running flag follows the event's flag after each |
| EventManager.IndexOf | src/main/java/io/github/retrooper/packetevents/event/manager/EventManagerDynamic.java:143-143 | the position of the first occurrence of a listener in a list |
| EventManager.RemoveFirstSubset | src/main/java/io/github/retrooper/packetevents/event/manager/EventManagerDynamic.java:143-143 | remove(listener) adds no listener |
| EventManager.RemoveFirstCounts | src/main/java/io/github/retrooper/packetevents/event/manager/EventManagerDynamic.java:143-143 | remove(listener) takes out exactly one occurrence when there is one |
| EventManager.RemoveFirstKeepsOrder | src/main/java/io/github/retrooper/packetevents/event/manager/EventManagerDynamic.java:143-143 | it is the first occurrence that goes, and the rest keep their order; an absent listener leaves the list as it is |
| EventManager.RegisterAllAppends | src/main/java/io/github/retrooper/packetevents/event/manager/EventManagerDynamic.java:129-133 | after registering several listeners each priority's list is its old list followed by the new listeners of that priority in argument order |
| EventManager.UnregisterAllShrinks | src/main/java/io/github/retrooper/packetevents/event/manager/EventManagerDynamic.java:150-154 | unregistering never adds or removes a priority and only shortens lists |
| EventManager.ByPriorityConcat | src/main/java/io/github/retrooper/packetevents/event/manager/EventManagerDynamic.java:64-64 | two listener sequences ordered by priority, the first below the second, concatenate to one |
| EventManager.ScheduleOrder | src/main/java/io/github/retrooper/packetevents/event/manager/EventManagerDynamic.java:64-88 | callEvent runs lower priorities before higher ones, and only priorities it has walked |
| EventManager.ScheduleKeepsListOrder | src/main/java/io/github/retrooper/packetevents/event/manager/EventManagerDynamic.java:64-88 | within one priority the listeners run in their registration order, those routed inline and no others |
| EventManager.OfPriorityConcat | src/main/java/io/github/retrooper/packetevents/event/manager/EventManagerDynamic.java:64-88 | picking one priority's listeners distributes over concatenation |
| EventManager.OfPriorityNone | src/main/java/io/github/retrooper/packetevents/event/manager/EventManagerDynamic.java:64-88 | a sequence without listeners of a priority has none to pick |
| EventManager.OfPriorityAll | src/main/java/io/github/retrooper/packetevents/event/manager/EventManagerDynamic.java:64-88 | a sequence of one priority's listeners is all picked |
| EventManager.EmptyMapRunsNothing | src/main/java/io/github/retrooper/packetevents/event/manager/EventManagerDynamic.java:159-161 | after unregisterAllListeners callEvent runs and pools nothing and reports LOWEST |
| EventManager.MaxIsHighestKey | src/main/java/io/github/retrooper/packetevents/event/manager/EventManagerDynamic.java:62-67 | the priority passed on to the legacy manager is the highest one with a list, or LOWEST when there is none |
| Events.ProtocolPacketEvent.FromWire | api/src/main/java/com/github/retrooper/packetevents/event/ProtocolPacketEvent.java:54-74 | the wire constructor keeps the channel, user, player, buffer, version, id and type, takes the user's connection state, and is not a clone |
| Events.ProtocolPacketEvent.Copying | api/src/main/java/com/github/retrooper/packetevents/event/ProtocolPacketEvent.java:76-87 | the copying constructor keeps every field given and marks the event as a clone |
| Events.ProtocolPacketEvent.SetByteBuf | api/src/main/java/com/github/retrooper/packetevents/event/ProtocolPacketEvent.java:135-141 | getByteBuf() returns the buffer set, and nothing else changes |
| Events.ProtocolPacketEvent.SetCancelled | api/src/main/java/com/github/retrooper/packetevents/event/ProtocolPacketEvent.java:157-165 | isCancelled() returns the value set, and nothing else changes |
| Events.ProtocolPacketEvent.SetLastUsedWrapper | api/src/main/java/com/github/retrooper/packetevents/event/ProtocolPacketEvent.java:167-174 | the last used wrapper is the one set, and nothing else changes |
| Events.ProtocolPacketEvent.GetPostTasks | api/src/main/java/com/github/retrooper/packetevents/event/ProtocolPacketEvent.java:176-181 | the list is allocated empty on the first call and the same list is returned later |
| Events.ProtocolPacketEvent.AddPostTask | api/src/main/java/com/github/retrooper/packetevents/event/ProtocolPacketEvent.java:176-185 | a task added through getPostTasks() goes to the end of the list, after which hasPostTasks() holds |
| Events.ProtocolPacketEvent.CleanUp | api/src/main/java/com/github/retrooper/packetevents/event/ProtocolPacketEvent.java:193-197 | a clone releases its buffer once (failing on a buffer already released); an original leaves the count alone |
| Events.ReadEvent | api/src/main/java/com/github/retrooper/packetevents/event/ProtocolPacketEvent.java:54-74 | the readable size is taken first; a failed packet-id read throws a packet-id PacketProcessException carrying the side and that size; otherwise the event holds the id read, the type resolved for the user's state and the version, and the buffer's reader index sits after the id |
| Events.ReadSendEvent | api/src/main/java/com/github/retrooper/packetevents/event/PacketSendEvent.java:32-34 | a send event's wire constructor reads the id on the server side, with every other field at its default |
| Events.NewSendCopy | api/src/main/java/com/github/retrooper/packetevents/event/PacketSendEvent.java:36-43 | a send event's copying constructor gives a clone holding the given id, type, version and buffer |
| Events.SendCall | api/src/main/java/com/github/retrooper/packetevents/event/PacketSendEvent.java:45-48 | call(listener) invokes that listener's send callback only |
| Events.SendCloneTarget | api/src/main/java/com/github/retrooper/packetevents/event/PacketSendEvent.java:50-64 | clone() has a result exactly for the status, login and play send classes, and is null otherwise |
| Events.CloneWithDuplicate | api/src/main/java/com/github/retrooper/packetevents/event/simple/PacketLoginReceiveEvent.java:42-52 | a clone holds a new retained duplicate with the buffer's bytes and reader index, sharing its reference count, which goes up by one, and copies id, type, version, channel, user and player; a released buffer throws and builds nothing |
| Events.LoginReceiveClone | api/src/main/java/com/github/retrooper/packetevents/event/simple/PacketLoginReceiveEvent.java:42-57 | a login receive event's clone is a login receive clone over a retained duplicate; it throws exactly when the buffer is released or the stored type is not a login client type, and in the second case the count stays raised by the retain |
| Events.SendClone | api/src/main/java/com/github/retrooper/packetevents/event/PacketSendEvent.java:50-64 | a send event's clone exists exactly for the three subclasses, and no buffer is retained otherwise; for those it throws exactly when the buffer is released |
| Events.LoginPacketType | api/src/main/java/com/github/retrooper/packetevents/event/simple/PacketLoginReceiveEvent.java:55-57 | the cast of the stored type fails exactly for a type that is not a login client type; null stays null |
| EncoderModern.Advance | spigot/src/main/java/io/github/retrooper/packetevents/handlers/modern/PacketEncoderModern.java:101-116 | an encoder's read moves the reader index forward within the readable bytes |
| EncoderModern.CallEvent | spigot/src/main/java/io/github/retrooper/packetevents/handlers/modern/PacketEncoderModern.java:62-64 | the listeners' decision is applied to the event and then the reset callback puts the reader index back after the id |
| EncoderModern.Decide | spigot/src/main/java/io/github/retrooper/packetevents/handlers/modern/PacketEncoderModern.java:65-75 | a cancelled packet empties the buffer; a kept one is rewritten from the last used wrapper when there is one, and its reader index goes back to where it was before the event |
| EncoderModern.RunPostTasks | spigot/src/main/java/io/github/retrooper/packetevents/handlers/modern/PacketEncoderModern.java:76-80 | the post tasks run in list order, and none when there are none |
| EncoderModern.CallEncode | spigot/src/main/java/io/github/retrooper/packetevents/handlers/modern/PacketEncoderModern.java:102-102 | one encoder appends its output to out and consumes from the working buffer |
| EncoderModern.RunChain | spigot/src/main/java/io/github/retrooper/packetevents/handlers/modern/PacketEncoderModern.java:101-110 | the loop over the encoders, with its break on an empty output, ends in the state the chain function gives |
| EncoderModern.Forward | spigot/src/main/java/io/github/retrooper/packetevents/handlers/modern/PacketEncoderModern.java:101-116 | the loop and then the last stage: the wrapped encoder when it differs from the vanilla one, a failing call when it is null, and a plain copy otherwise |
| EncoderModern.Load | spigot/src/main/java/io/github/retrooper/packetevents/handlers/modern/PacketEncoderModern.java:85-95 | a packet object is serialised by the vanilla encoder, or dropped when there is none; a buffer with nothing readable is dropped; otherwise the readable bytes are copied |
| EncoderModern.PacketEncoderModern.constructor | spigot/src/main/java/io/github/retrooper/packetevents/handlers/modern/PacketEncoderModern.java:50-52 | a new encoder holds its user and no encoders |
| EncoderModern.PacketEncoderModern.Read | spigot/src/main/java/io/github/retrooper/packetevents/handlers/modern/PacketEncoderModern.java:58-81 | a failed id read throws the packet-id exception and changes no byte; a cancelled packet leaves the buffer empty; a kept packet keeps its bytes and its reader index from before the event; a replaced one holds the id and the wrapper's bytes, and its old reader index is restored, or it throws when that index lies beyond them; after a normal end the post tasks run, in order |
| EncoderModern.PacketEncoderModern.Process | spigot/src/main/java/io/github/retrooper/packetevents/handlers/modern/PacketEncoderModern.java:96-116 | what follows the working buffer's load agrees with the reference function on the completion, out's bytes and index, and the post tasks that ran |
| EncoderModern.PacketEncoderModern.Encode | spigot/src/main/java/io/github/retrooper/packetevents/handlers/modern/PacketEncoderModern.java:84-121 | encode() agrees with its reference function, and the working buffer is released on every path |
| EncoderModern.DroppedPacketWritesNothing | spigot/src/main/java/io/github/retrooper/packetevents/handlers/modern/PacketEncoderModern.java:87-100 | a packet object without vanilla encoder, an empty buffer, or a cancelled packet adds nothing to out |
| EncoderModern.ChainIsPipeline | spigot/src/main/java/io/github/retrooper/packetevents/handlers/modern/PacketEncoderModern.java:101-110 | on an empty out the encoder loop equals feeding each encoder's output to the next until one writes nothing, and leaves out empty |
| EncoderModern.KeptPacketReachesOut | spigot/src/main/java/io/github/retrooper/packetevents/handlers/modern/PacketEncoderModern.java:96-116 | a packet that is kept reaches the last stage as the encoders transform it |
| EncoderModern.ForwardOrReplace | spigot/src/main/java/io/github/retrooper/packetevents/handlers/modern/PacketEncoderModern.java:65-71 | with no further encoder and the vanilla encoder last, out receives the packet unchanged, or the id followed by the wrapper's bytes when a wrapper was used |
| EncoderModern.ReplacedPacketKeepsId | spigot/src/main/java/io/github/retrooper/packetevents/handlers/modern/PacketEncoderModern.java:66-69 | a rewritten packet starts with the packet id read from the original |
| EncryptionRequest.EncodeFails | api/src/main/java/com/github/retrooper/packetevents/wrapper/login/server/WrapperLoginServerEncryptionRequest.java:68-72 | write() throws exactly for a server id whose UTF-8 encoding is over 20 bytes |
| EncryptionRequest.RoundTrip | api/src/main/java/com/github/retrooper/packetevents/wrapper/login/server/WrapperLoginServerEncryptionRequest.java:61-72 | read() after write() restores id, key and token when the key fits 512 bytes |
| EncryptionRequest.OversizedKey | api/src/main/java/com/github/retrooper/packetevents/wrapper/login/server/WrapperLoginServerEncryptionRequest.java:61-71 | write() does not check the key, so a key over 512 bytes makes read() fail |
| EncryptionRequest.AfterReadDecoded | api/src/main/java/com/github/retrooper/packetevents/wrapper/login/server/WrapperLoginServerEncryptionRequest.java:61-65 | a read that completes leaves exactly the decoded request, whatever the fields held before |
| EncryptionRequest.OversizedKeyKeepsId | api/src/main/java/com/github/retrooper/packetevents/wrapper/login/server/WrapperLoginServerEncryptionRequest.java:61-65 | a key over 512 bytes fails the read after the server id is assigned, so the wrapper holds the new id next to its old key and token |
| EncryptionRequest.WrapperLoginServerEncryptionRequest.constructor | api/src/main/java/com/github/retrooper/packetevents/wrapper/login/server/WrapperLoginServerEncryptionRequest.java:46-51 | the wrapper holds the given fields |
| EncryptionRequest.WrapperLoginServerEncryptionRequest.Read | api/src/main/java/com/github/retrooper/packetevents/wrapper/login/server/WrapperLoginServerEncryptionRequest.java:61-65 | read() agrees with the decoder; whether it completes or fails, the fields are those AfterRead gives: each takes its value as soon as its own read succeeds, so a failed read keeps what it already assigned and the old values after |
| EncryptionRequest.WrapperLoginServerEncryptionRequest.Write | api/src/main/java/com/github/retrooper/packetevents/wrapper/login/server/WrapperLoginServerEncryptionRequest.java:68-72 | write() appends the encoding, or throws before writing |
| EncryptionRequest.WrapperLoginServerEncryptionRequest.Copy | api/src/main/java/com/github/retrooper/packetevents/wrapper/login/server/WrapperLoginServerEncryptionRequest.java:75-79 | copy() takes every field |
| EncryptionResponse.Sent | api/src/main/java/com/github/retrooper/packetevents/wrapper/login/client/WrapperLoginClientEncryptionResponse.java:75-85 | the payload write() chooses is the salt signature when signed and present, otherwise the token or an empty one |
| EncryptionResponse.EncodeAsWritten | api/src/main/java/com/github/retrooper/packetevents/wrapper/login/client/WrapperLoginClientEncryptionResponse.java:75-85 | write() as written throws exactly for a null secret |
| EncryptionResponse.Encode | api/src/main/java/com/github/retrooper/packetevents/wrapper/login/client/WrapperLoginClientEncryptionResponse.java:75-85 | write() with the presence boolean throws exactly for a null secret |
| EncryptionResponse.AsWrittenAgreement | api/src/main/java/com/github/retrooper/packetevents/wrapper/login/client/WrapperLoginClientEncryptionResponse.java:75-85 | the two writes agree except on the token path from 1.19 on, where only the boolean differs |
| EncryptionResponse.PayloadRoundTrip | api/src/main/java/com/github/retrooper/packetevents/wrapper/login/client/WrapperLoginClientEncryptionResponse.java:58-66 | each payload is read back from where it was written |
| EncryptionResponse.RoundTrip | api/src/main/java/com/github/retrooper/packetevents/wrapper/login/client/WrapperLoginClientEncryptionResponse.java:57-85 | read() after the corrected write() gives back the secret and the payload sent |
| EncryptionResponse.AsWrittenRoundTrip | api/src/main/java/com/github/retrooper/packetevents/wrapper/login/client/WrapperLoginClientEncryptionResponse.java:57-85 | before 1.19, and for a salt signature, the write as written already round-trips |
| EncryptionResponse.AsWrittenLosesEmptyToken | api/src/main/java/com/github/retrooper/packetevents/wrapper/login/client/WrapperLoginClientEncryptionResponse.java:75-85 | from 1.19 the write as written of an empty token cannot be read back |
| EncryptionResponse.AsWrittenMisreadsToken | api/src/main/java/com/github/retrooper/packetevents/wrapper/login/client/WrapperLoginClientEncryptionResponse.java:75-85 | a one-byte token written as written is misread as a length of 7 |
| EncryptionResponse.AfterReadDecoded | api/src/main/java/com/github/retrooper/packetevents/wrapper/login/client/WrapperLoginClientEncryptionResponse.java:57-66 | a read that completes leaves the secret and the payload's field read, and the other field as it was |
| EncryptionResponse.AsWrittenMisreadKeepsSecret | api/src/main/java/com/github/retrooper/packetevents/wrapper/login/client/WrapperLoginClientEncryptionResponse.java:57-66 | on the bytes `[0, 1, 7]` the read fails after assigning the empty secret, keeping the old token and signature |
| EncryptionResponse.Apply | api/src/main/java/com/github/retrooper/packetevents/wrapper/login/client/WrapperLoginClientEncryptionResponse.java:57-66 | read() sets the secret and the payload's field and keeps the other |
| EncryptionResponse.ReadThenSent | api/src/main/java/com/github/retrooper/packetevents/wrapper/login/client/WrapperLoginClientEncryptionResponse.java:57-85 | a wrapper filled by read() sends what it read |
| EncryptionResponse.ReadPayload | api/src/main/java/com/github/retrooper/packetevents/wrapper/login/client/WrapperLoginClientEncryptionResponse.java:60-65 | the payload half of read() agrees with its decoder |
| EncryptionResponse.WritePayload | api/src/main/java/com/github/retrooper/packetevents/wrapper/login/client/WrapperLoginClientEncryptionResponse.java:78-84 | the payload half of write() appends its encoding |
| EncryptionResponse.WrapperLoginClientEncryptionResponse.WithToken | api/src/main/java/com/github/retrooper/packetevents/wrapper/login/client/WrapperLoginClientEncryptionResponse.java:46-50 | the token form holds the secret and the token |
| EncryptionResponse.WrapperLoginClientEncryptionResponse.WithSignature | api/src/main/java/com/github/retrooper/packetevents/wrapper/login/client/WrapperLoginClientEncryptionResponse.java:52-55 | the signature form holds the salt signature and a null secret |
| EncryptionResponse.WrapperLoginClientEncryptionResponse.Read | api/src/main/java/com/github/retrooper/packetevents/wrapper/login/client/WrapperLoginClientEncryptionResponse.java:57-66 | read() agrees with the decoder; whether it completes or fails, the fields are those AfterRead gives: each takes its value as soon as its own read succeeds, so a failed read keeps what it already assigned and the old values after, the secret before the payload |
| EncryptionResponse.WrapperLoginClientEncryptionResponse.Write | api/src/main/java/com/github/retrooper/packetevents/wrapper/login/client/WrapperLoginClientEncryptionResponse.java:75-85 | write() appends the corrected encoding, or throws on a null secret before writing |
| EncryptionResponse.WrapperLoginClientEncryptionResponse.Copy | api/src/main/java/com/github/retrooper/packetevents/wrapper/login/client/WrapperLoginClientEncryptionResponse.java:68-73 | copy() takes every field |
| ChatCommand.SignDataRoundTrip | api/src/main/java/com/github/retrooper/packetevents/wrapper/play/client/WrapperPlayClientChatCommand.java:35-38 | the signing data reads back as written |
| ChatCommand.EncodeTail | api/src/main/java/com/github/retrooper/packetevents/wrapper/play/client/WrapperPlayClientChatCommand.java:48-55 | the tail throws exactly when a field its version writes is null |
| ChatCommand.EncodeFails | api/src/main/java/com/github/retrooper/packetevents/wrapper/play/client/WrapperPlayClientChatCommand.java:45-56 | write() throws exactly for an overlong command or a null field its version writes |
| ChatCommand.Expected | api/src/main/java/com/github/retrooper/packetevents/wrapper/play/client/WrapperPlayClientChatCommand.java:31-43 | the tail read back carries exactly the fields the version writes |
| ChatCommand.TailRoundTrip | api/src/main/java/com/github/retrooper/packetevents/wrapper/play/client/WrapperPlayClientChatCommand.java:34-55 | the tail reads back as written |
| ChatCommand.RoundTrip | api/src/main/java/com/github/retrooper/packetevents/wrapper/play/client/WrapperPlayClientChatCommand.java:30-56 | read() after write() gives the command and the fields the version carries |
| ChatCommand.OversizedCommand | api/src/main/java/com/github/retrooper/packetevents/wrapper/play/client/WrapperPlayClientChatCommand.java:32-47 | a command longer than read()'s limit but accepted by write() makes read() fail |
| ChatCommand.Apply | api/src/main/java/com/github/retrooper/packetevents/wrapper/play/client/WrapperPlayClientChatCommand.java:31-43 | read() sets the command and the fields it read, keeping the others |
| ChatCommand.RereadKeepsFields | api/src/main/java/com/github/retrooper/packetevents/wrapper/play/client/WrapperPlayClientChatCommand.java:30-56 | reading back what a wrapper wrote changes none of its fields |
| ChatCommand.AfterReadDecoded | api/src/main/java/com/github/retrooper/packetevents/wrapper/play/client/WrapperPlayClientChatCommand.java:30-43 | a read that completes leaves the command and the fields its version carries, and the others as they were |
| ChatCommand.CommandOnlyKeepsRest | api/src/main/java/com/github/retrooper/packetevents/wrapper/play/client/WrapperPlayClientChatCommand.java:30-43 | from 1.19, a packet holding only the command fails at the signing data with the command already assigned and the rest kept |
| ChatCommand.WrapperPlayClientChatCommand.constructor | api/src/main/java/com/github/retrooper/packetevents/wrapper/play/client/WrapperPlayClientChatCommand.java:23-28 | the wrapper holds the given fields |
| ChatCommand.WrapperPlayClientChatCommand.Read | api/src/main/java/com/github/retrooper/packetevents/wrapper/play/client/WrapperPlayClientChatCommand.java:30-43 | read() agrees with the decoder; whether it completes or fails, the fields are those AfterRead gives: each takes its value as soon as its own read succeeds, so a failed read keeps what it already assigned and the old values after, the signing data once its three parts are read |
| ChatCommand.WrapperPlayClientChatCommand.Write | api/src/main/java/com/github/retrooper/packetevents/wrapper/play/client/WrapperPlayClientChatCommand.java:45-56 | write() appends the encoding, or throws leaving what was written before the null field |
| ChatCommand.WrapperPlayClientChatCommand.Copy | api/src/main/java/com/github/retrooper/packetevents/wrapper/play/client/WrapperPlayClientChatCommand.java:58-63 | copy() takes every field |
| ChatCommand.ReadSignData | api/src/main/java/com/github/retrooper/packetevents/wrapper/play/client/WrapperPlayClientChatCommand.java:35-37 | the signing data's three reads agree with its decoder |
| ChatCommand.WriteTail | api/src/main/java/com/github/retrooper/packetevents/wrapper/play/client/WrapperPlayClientChatCommand.java:48-55 | the tail half of write() appends its encoding or throws on a null field |
| Signing.SaltSignatureRoundTrip | api/src/main/java/com/github/retrooper/packetevents/wrapper/play/client/WrapperPlayClientChatCommand.java:36-36 | a salt signature reads back as written |
| Signing.SaltSignatureTooShort | api/src/main/java/com/github/retrooper/packetevents/wrapper/play/client/WrapperPlayClientChatCommand.java:36-36 | fewer than eight bytes cannot hold a salt |
| Signing.LastSeenRoundTrip | api/src/main/java/com/github/retrooper/packetevents/wrapper/play/client/WrapperPlayClientChatCommand.java:40-40 | a last-seen update reads back as written |
| CraftRecipeRequest.AsString | api/src/main/java/com/github/retrooper/packetevents/wrapper/play/client/WrapperPlayClientCraftRecipeRequest.java:67-67 | the String cast of the recipe succeeds exactly for a string recipe |
| CraftRecipeRequest.AsInteger | api/src/main/java/com/github/retrooper/packetevents/wrapper/play/client/WrapperPlayClientCraftRecipeRequest.java:69-69 | the Integer cast of the recipe succeeds exactly for an integer recipe |
| CraftRecipeRequest.EncodeFails | api/src/main/java/com/github/retrooper/packetevents/wrapper/play/client/WrapperPlayClientCraftRecipeRequest.java:63-73 | write() throws exactly when the recipe is null or of the other version band's kind |
| CraftRecipeRequest.RecipeRoundTrip | api/src/main/java/com/github/retrooper/packetevents/wrapper/play/client/WrapperPlayClientCraftRecipeRequest.java:46-50 | the recipe reads back as written in its version band |
| CraftRecipeRequest.RoundTrip | api/src/main/java/com/github/retrooper/packetevents/wrapper/play/client/WrapperPlayClientCraftRecipeRequest.java:43-73 | read() after write() restores the request, with the window id truncated to a byte |
| CraftRecipeRequest.RoundTripInRange | api/src/main/java/com/github/retrooper/packetevents/wrapper/play/client/WrapperPlayClientCraftRecipeRequest.java:43-73 | a window id in byte range comes back unchanged |
| CraftRecipeRequest.AfterReadDecoded | api/src/main/java/com/github/retrooper/packetevents/wrapper/play/client/WrapperPlayClientCraftRecipeRequest.java:43-53 | a read that completes leaves exactly the decoded request, whatever the fields held before |
| CraftRecipeRequest.TruncatedKeepsMakeAll | api/src/main/java/com/github/retrooper/packetevents/wrapper/play/client/WrapperPlayClientCraftRecipeRequest.java:43-53 | a packet cut off before makeAll fails with the window id and the recipe already assigned and makeAll kept |
| CraftRecipeRequest.WrapperPlayClientCraftRecipeRequest.constructor | api/src/main/java/com/github/retrooper/packetevents/wrapper/play/client/WrapperPlayClientCraftRecipeRequest.java:35-40 | the wrapper holds the given fields |
| CraftRecipeRequest.WrapperPlayClientCraftRecipeRequest.Read | api/src/main/java/com/github/retrooper/packetevents/wrapper/play/client/WrapperPlayClientCraftRecipeRequest.java:43-53 | read() reads nothing before 1.12 and otherwise agrees with the decoder; whether it completes or fails, the fields are those AfterRead gives: each takes its value as soon as its own read succeeds, so a failed read keeps what it already assigned and the old values after |
| CraftRecipeRequest.WrapperPlayClientCraftRecipeRequest.Write | api/src/main/java/com/github/retrooper/packetevents/wrapper/play/client/WrapperPlayClientCraftRecipeRequest.java:63-73 | write() writes nothing before 1.12 and otherwise appends the encoding or throws on the cast |
| CraftRecipeRequest.WrapperPlayClientCraftRecipeRequest.Copy | api/src/main/java/com/github/retrooper/packetevents/wrapper/play/client/WrapperPlayClientCraftRecipeRequest.java:56-60 | copy() takes every field |
| PlayerAbilities.FlyingIsBitOne | api/src/main/java/com/github/retrooper/packetevents/wrapper/play/client/WrapperPlayClientPlayerAbilities.java:58-58 | the flying flag is bit 1 of the mask byte |
| PlayerAbilities.FlyingRoundTrip | api/src/main/java/com/github/retrooper/packetevents/wrapper/play/client/WrapperPlayClientPlayerAbilities.java:56-70 | the flag reads back as written |
| PlayerAbilities.WrapperPlayClientPlayerAbilities.constructor | api/src/main/java/com/github/retrooper/packetevents/wrapper/play/client/WrapperPlayClientPlayerAbilities.java:39-49 | the wrapper holds the given fields |
| PlayerAbilities.WrapperPlayClientPlayerAbilities.Flying | api/src/main/java/com/github/retrooper/packetevents/wrapper/play/client/WrapperPlayClientPlayerAbilities.java:51-53 | the one-argument constructor leaves every optional ability empty |
| PlayerAbilities.WrapperPlayClientPlayerAbilities.Read | api/src/main/java/com/github/retrooper/packetevents/wrapper/play/client/WrapperPlayClientPlayerAbilities.java:56-64 | read() takes one byte, sets the flag from it and empties the optional abilities; when the byte is missing no field changes |
| PlayerAbilities.WrapperPlayClientPlayerAbilities.Write | api/src/main/java/com/github/retrooper/packetevents/wrapper/play/client/WrapperPlayClientPlayerAbilities.java:67-70 | write() appends the mask byte alone |
| PlayerAbilities.WrapperPlayClientPlayerAbilities.Copy | api/src/main/java/com/github/retrooper/packetevents/wrapper/play/client/WrapperPlayClientPlayerAbilities.java:73-80 | copy() takes every field |
| SpawnExperienceOrb.EncodedLength | api/src/main/java/com/github/retrooper/packetevents/wrapper/play/server/WrapperPlayServerSpawnExperienceOrb.java:55-61 | the packet is the entity id's varint plus 26 bytes |
| SpawnExperienceOrb.RoundTrip | api/src/main/java/com/github/retrooper/packetevents/wrapper/play/server/WrapperPlayServerSpawnExperienceOrb.java:46-61 | read() after write() restores all five fields |
| SpawnExperienceOrb.AfterReadDecoded | api/src/main/java/com/github/retrooper/packetevents/wrapper/play/server/WrapperPlayServerSpawnExperienceOrb.java:46-52 | a read that completes leaves exactly the decoded orb, whatever the fields held before |
| SpawnExperienceOrb.IdOnlyBuffer | api/src/main/java/com/github/retrooper/packetevents/wrapper/play/server/WrapperPlayServerSpawnExperienceOrb.java:46-52 | a buffer holding only the entity id fails at the first coordinate with the entity id already assigned and the rest kept |
| SpawnExperienceOrb.WrapperPlayServerSpawnExperienceOrb.constructor | api/src/main/java/com/github/retrooper/packetevents/wrapper/play/server/WrapperPlayServerSpawnExperienceOrb.java:36-43 | the wrapper holds the given fields |
| SpawnExperienceOrb.WrapperPlayServerSpawnExperienceOrb.Read | api/src/main/java/com/github/retrooper/packetevents/wrapper/play/server/WrapperPlayServerSpawnExperienceOrb.java:46-52 | read() agrees with the decoder; whether it completes or fails, the fields are those AfterRead gives: each takes its value as soon as its own read succeeds, so a failed read keeps what it already assigned and the old values after |
| SpawnExperienceOrb.WrapperPlayServerSpawnExperienceOrb.Write | api/src/main/java/com/github/retrooper/packetevents/wrapper/play/server/WrapperPlayServerSpawnExperienceOrb.java:55-61 | write() appends the encoding |
| SpawnExperienceOrb.WrapperPlayServerSpawnExperienceOrb.Copy | api/src/main/java/com/github/retrooper/packetevents/wrapper/play/server/WrapperPlayServerSpawnExperienceOrb.java:64-70 | copy() takes every field |
| SelectAdvancementsTab.EncodeFails | api/src/main/java/com/github/retrooper/packetevents/wrapper/play/server/WrapperPlayServerSelectAdvancementsTab.java:45-47 | write() throws exactly for an identifier over the string limit, and writes a single false byte for null |
| SelectAdvancementsTab.RoundTrip | api/src/main/java/com/github/retrooper/packetevents/wrapper/play/server/WrapperPlayServerSelectAdvancementsTab.java:40-47 | read() after write() gives the identifier back, or null |
| SelectAdvancementsTab.WrapperPlayServerSelectAdvancementsTab.constructor | api/src/main/java/com/github/retrooper/packetevents/wrapper/play/server/WrapperPlayServerSelectAdvancementsTab.java:34-37 | the wrapper holds the identifier |
| SelectAdvancementsTab.WrapperPlayServerSelectAdvancementsTab.Read | api/src/main/java/com/github/retrooper/packetevents/wrapper/play/server/WrapperPlayServerSelectAdvancementsTab.java:40-42 | read() agrees with the decoder; on a failed read the identifier is left as it was |
| SelectAdvancementsTab.WrapperPlayServerSelectAdvancementsTab.Write | api/src/main/java/com/github/retrooper/packetevents/wrapper/play/server/WrapperPlayServerSelectAdvancementsTab.java:45-47 | write() appends the encoding, or throws after the presence boolean |
| SelectAdvancementsTab.WrapperPlayServerSelectAdvancementsTab.Copy | api/src/main/java/com/github/retrooper/packetevents/wrapper/play/server/WrapperPlayServerSelectAdvancementsTab.java:50-52 | copy() takes the identifier |
| SetCompression.WrapperLoginServerSetCompression.constructor | api/src/main/java/com/github/retrooper/packetevents/wrapper/login/server/WrapperLoginServerSetCompression.java:32-35 | the wrapper holds the threshold |
| SetCompression.WrapperLoginServerSetCompression.Read | api/src/main/java/com/github/retrooper/packetevents/wrapper/login/server/WrapperLoginServerSetCompression.java:38-40 | read() takes one varint as the threshold; on a failed read the threshold is left as it was |
| SetCompression.WrapperLoginServerSetCompression.Write | api/src/main/java/com/github/retrooper/packetevents/wrapper/login/server/WrapperLoginServerSetCompression.java:48-50 | write() appends the threshold's varint alone |
| SetCompression.WrapperLoginServerSetCompression.Copy | api/src/main/java/com/github/retrooper/packetevents/wrapper/login/server/WrapperLoginServerSetCompression.java:43-45 | copy() takes the threshold |
| DestroyEntities.EncodeIds | api/src/main/java/com/github/retrooper/packetevents/wrapper/play/server/WrapperPlayServerDestroyEntities.java:51-57 | the ids written one varint each take at least one byte per id |
| DestroyEntities.DecodeIds | api/src/main/java/com/github/retrooper/packetevents/wrapper/play/server/WrapperPlayServerDestroyEntities.java:42-49 | reading n ids gives n ids |
| DestroyEntities.IdsRoundTrip | api/src/main/java/com/github/retrooper/packetevents/wrapper/play/server/WrapperPlayServerDestroyEntities.java:42-57 | the ids read back as written, in order |
| DestroyEntities.RoundTrip | api/src/main/java/com/github/retrooper/packetevents/wrapper/play/server/WrapperPlayServerDestroyEntities.java:42-57 | read() after write() gives the same ids in the same order |
| DestroyEntities.DecodeIdsFailed | api/src/main/java/com/github/retrooper/packetevents/wrapper/play/server/WrapperPlayServerDestroyEntities.java:44-48 | once one id's read fails every longer read fails with the same error |
| DestroyEntities.WrapperPlayServerDestroyEntities.constructor | api/src/main/java/com/github/retrooper/packetevents/wrapper/play/server/WrapperPlayServerDestroyEntities.java:32-35 | the varargs constructor keeps the caller's array |
| DestroyEntities.WrapperPlayServerDestroyEntities.Single | api/src/main/java/com/github/retrooper/packetevents/wrapper/play/server/WrapperPlayServerDestroyEntities.java:37-40 | the single-id constructor makes a new one-element array |
| DestroyEntities.WrapperPlayServerDestroyEntities.Read | api/src/main/java/com/github/retrooper/packetevents/wrapper/play/server/WrapperPlayServerDestroyEntities.java:42-49 | read() agrees with the decoder and fills a new array; a failed count read or a negative count leaves the old array, a failed id read leaves a new zero-filled array of the count's length holding the ids read before the failure |
| DestroyEntities.WrapperPlayServerDestroyEntities.Write | api/src/main/java/com/github/retrooper/packetevents/wrapper/play/server/WrapperPlayServerDestroyEntities.java:51-57 | write() appends the length and then each id in array order |
| DestroyEntities.WrapperPlayServerDestroyEntities.Copy | api/src/main/java/com/github/retrooper/packetevents/wrapper/play/server/WrapperPlayServerDestroyEntities.java:59-62 | copy() shares the other wrapper's array |
| PacketTransformation.Singletons | api/src/main/java/com/github/retrooper/packetevents/util/PacketTransformationUtil.java:30-47 | one single-element list per id, in order |
| PacketTransformation.FlattenSingletons | api/src/main/java/com/github/retrooper/packetevents/util/PacketTransformationUtil.java:30-47 | the split packets together carry the original ids in order |
| PacketTransformation.Transform | api/src/main/java/com/github/retrooper/packetevents/util/PacketTransformationUtil.java:30-47 | at exactly 1.17 a destroy-entities wrapper with more than one id is split into one new wrapper per id in order; any other wrapper comes back alone |
| StateTypes.FloatSameCases | api/src/main/java/com/github/retrooper/packetevents/protocol/world/states/type/StateType.java:128-129 | all NaNs compare equal, 0.0 and -0.0 differ, other floats compare by bits |
| StateTypes.StateType.constructor | api/src/main/java/com/github/retrooper/packetevents/protocol/world/states/type/StateType.java:39-49 | the state type holds the given fields and its name is its string form |
| StateTypes.SameFieldsEquivalence | api/src/main/java/com/github/retrooper/packetevents/protocol/world/states/type/StateType.java:127-135 | the field comparison is an equivalence |
| StateTypes.EqualsAsWritten | api/src/main/java/com/github/retrooper/packetevents/protocol/world/states/type/StateType.java:118-136 | equals() as written: the same reference is equal, null throws, a same-class argument is unequal, an unrelated class throws |
| StateTypes.Equals | api/src/main/java/com/github/retrooper/packetevents/protocol/world/states/type/StateType.java:118-136 | equals() as intended: another class is unequal, the same class compares fields |
| StateTypes.AsWrittenIsIdentity | api/src/main/java/com/github/retrooper/packetevents/protocol/world/states/type/StateType.java:118-136 | as written, equals() between two state types is reference identity |
| StateTypes.AsWrittenMissesEqualFields | api/src/main/java/com/github/retrooper/packetevents/protocol/world/states/type/StateType.java:118-136 | two distinct state types with equal fields are unequal as written and equal as intended |
| StateTypes.EqualsIsEquivalence | api/src/main/java/com/github/retrooper/packetevents/protocol/world/states/type/StateType.java:118-136 | the intended equals() is reflexive, symmetric and transitive |
| Dimensions.ValuesComplete | api/src/main/java/com/github/retrooper/packetevents/protocol/world/DimensionType.java:25-28 | every constant is in VALUES |
| Dimensions.GetById | api/src/main/java/com/github/retrooper/packetevents/protocol/world/DimensionType.java:40-42 | getById returns VALUES[id + 1] and fails for an index outside the array |
| Dimensions.GetByOwnId | api/src/main/java/com/github/retrooper/packetevents/protocol/world/DimensionType.java:25-42 | the three game dimensions are found by their own ids |
| Dimensions.CustomById | api/src/main/java/com/github/retrooper/packetevents/protocol/world/DimensionType.java:25-42 | CUSTOM is not found by its id, and id 2 finds it |
| Dimensions.NamesDistinct | api/src/main/java/com/github/retrooper/packetevents/protocol/world/DimensionType.java:25-28 | no two constants share a name |
| Dimensions.GetByName | api/src/main/java/com/github/retrooper/packetevents/protocol/world/DimensionType.java:44-52 | getByName returns the constant with that name, and null exactly when there is none |
| Dimensions.NamesAreUnique | api/src/main/java/com/github/retrooper/packetevents/protocol/world/DimensionType.java:44-52 | a name determines its constant |
| ServerboundPacketTypes.ValueAt | api/src/main/java/com/github/retrooper/packetevents/protocol/packettype/serverbound/ServerboundPacketType_1_19_1.java:21-82 | a constant exists exactly at positions 0 to 50 |
| ServerboundPacketTypes.Ordinal | api/src/main/java/com/github/retrooper/packetevents/protocol/packettype/serverbound/ServerboundPacketType_1_19_1.java:21-82 | a constant's ordinal is its declared position |
| ServerboundPacketTypes.OrdinalOfValueAt | api/src/main/java/com/github/retrooper/packetevents/protocol/packettype/serverbound/ServerboundPacketType_1_19_1.java:21-82 | every position holds the constant whose ordinal it is |
| ServerboundPacketTypes.Bijection | api/src/main/java/com/github/retrooper/packetevents/protocol/packettype/serverbound/ServerboundPacketType_1_19_1.java:21-82 | ordinal and position are inverse bijections |
| ServerboundPacketTypes.ValuesDistinct | api/src/main/java/com/github/retrooper/packetevents/protocol/packettype/serverbound/ServerboundPacketType_1_19_1.java:21-82 | no constant appears twice in values() |
| ServerboundPacketTypes.Bounds | api/src/main/java/com/github/retrooper/packetevents/protocol/packettype/serverbound/ServerboundPacketType_1_19_1.java:22-81 | there are 51 constants, TELEPORT_CONFIRM first and USE_ITEM last |
| ServerboundPacketTypes.KnownPositions | api/src/main/java/com/github/retrooper/packetevents/protocol/packettype/serverbound/ServerboundPacketType_1_19_1.java:27-59 | the chat and ability packets sit at their declared positions |
| TileEntities.Unsigned8 | api/src/main/java/com/github/retrooper/packetevents/protocol/world/chunk/TileEntity.java:49-55 | the packed byte's unsigned reading is its eight bits |
| TileEntities.HighNibble | api/src/main/java/com/github/retrooper/packetevents/protocol/world/chunk/TileEntity.java:49-51 | getX() is between 0 and 15 |
| TileEntities.LowNibble | api/src/main/java/com/github/retrooper/packetevents/protocol/world/chunk/TileEntity.java:53-55 | getZ() is between 0 and 15 |
| TileEntities.Low4 | api/src/main/java/com/github/retrooper/packetevents/protocol/world/chunk/TileEntity.java:61-71 | `v & 0xF` is the low four bits of the int |
| TileEntities.WithHighNibble | api/src/main/java/com/github/retrooper/packetevents/protocol/world/chunk/TileEntity.java:61-63 | setX changes getX() to x's low four bits and keeps getZ() |
| TileEntities.WithLowNibble | api/src/main/java/com/github/retrooper/packetevents/protocol/world/chunk/TileEntity.java:69-71 | setZ changes getZ() to z's low four bits and keeps getX() |
| TileEntities.MaskReadings | api/src/main/java/com/github/retrooper/packetevents/protocol/world/chunk/TileEntity.java:49-71 | the arithmetic readings agree with the bit operations |
| TileEntities.Packing | api/src/main/java/com/github/retrooper/packetevents/protocol/world/chunk/TileEntity.java:49-55 | the byte is getX() in the high and getZ() in the low nibble |
| TileEntities.NibblesDetermine | api/src/main/java/com/github/retrooper/packetevents/protocol/world/chunk/TileEntity.java:49-55 | two bytes with the same x and z are the same byte |
| TileEntities.SetToSame | api/src/main/java/com/github/retrooper/packetevents/protocol/world/chunk/TileEntity.java:61-71 | setting a coordinate to its current value keeps the byte |
| TileEntities.SetsCommute | api/src/main/java/com/github/retrooper/packetevents/protocol/world/chunk/TileEntity.java:61-71 | setX and setZ commute and together determine the byte |
| TileEntities.TileEntity.FromNbt | api/src/main/java/com/github/retrooper/packetevents/protocol/world/chunk/TileEntity.java:38-40 | the pre-1.18 constructor keeps the NBT and zeroes the rest |
| TileEntities.TileEntity.constructor | api/src/main/java/com/github/retrooper/packetevents/protocol/world/chunk/TileEntity.java:42-47 | the constructor keeps every field |
| TileEntities.TileEntity.GetX | api/src/main/java/com/github/retrooper/packetevents/protocol/world/chunk/TileEntity.java:49-51 | getX() is the high nibble |
| TileEntities.TileEntity.GetZ | api/src/main/java/com/github/retrooper/packetevents/protocol/world/chunk/TileEntity.java:53-55 | getZ() is the low nibble |
| TileEntities.TileEntity.SetX | api/src/main/java/com/github/retrooper/packetevents/protocol/world/chunk/TileEntity.java:61-63 | setX changes getX() only |
| TileEntities.TileEntity.SetZ | api/src/main/java/com/github/retrooper/packetevents/protocol/world/chunk/TileEntity.java:69-71 | setZ changes getZ() only |
| TileEntities.TileEntity.SetY | api/src/main/java/com/github/retrooper/packetevents/protocol/world/chunk/TileEntity.java:65-67 | setY truncates to a short and changes nothing else |
| Wire.VarIntRoundTrip | api/src/main/java/com/github/retrooper/packetevents/wrapper/login/server/WrapperLoginServerSetCompression.java:38-50 | a varint reads back as the int32 that was written, consuming exactly its bytes |
| Wire.VarIntSizeMinimal | api/src/main/java/com/github/retrooper/packetevents/wrapper/login/server/WrapperLoginServerSetCompression.java:48-50 | a varint takes one byte exactly for 0..127 and five bytes for any negative value |
| Wire.ByteArrayRoundTrip | api/src/main/java/com/github/retrooper/packetevents/wrapper/login/server/WrapperLoginServerEncryptionRequest.java:63-71 | a length-prefixed byte array within the read limit reads back as written |
| Wire.ByteArrayLimit | api/src/main/java/com/github/retrooper/packetevents/wrapper/login/server/WrapperLoginServerEncryptionRequest.java:63-70 | a byte array longer than the read limit makes the read fail with its length and the limit |
| Wire.StringRoundTrip | api/src/main/java/com/github/retrooper/packetevents/wrapper/login/server/WrapperLoginServerEncryptionRequest.java:62-69 | a string reads back as written when it fits the read limit, and the read fails otherwise |
| Buffers.ByteBuf.ReadVarInt | api/src/main/java/com/github/retrooper/packetevents/event/ProtocolPacketEvent.java:65-65 | reading a varint from a buffer agrees with the decoder and moves the reader index past it |
| Buffers.ByteBuf.SetReaderIndex | spigot/src/main/java/io/github/retrooper/packetevents/handlers/modern/PacketEncoderModern.java:63-71 | setting the reader index succeeds exactly within the written bytes and changes no byte |
| Buffers.ByteBuf.Clear | spigot/src/main/java/io/github/retrooper/packetevents/handlers/modern/PacketEncoderModern.java:67-74 | clear() leaves nothing readable |
| Buffers.ByteBuf.WriteBytes | spigot/src/main/java/io/github/retrooper/packetevents/handlers/modern/PacketEncoderModern.java:94-115 | writeBytes(src) appends src's readable bytes and consumes them from src |
| Buffers.ByteBuf.RetainedDuplicate | api/src/main/java/com/github/retrooper/packetevents/event/simple/PacketLoginReceiveEvent.java:45-45 | a retained duplicate is a new buffer with the same bytes and reader index sharing the count, which goes up by one; a released buffer throws and nothing changes |
| Buffers.ByteBuf.Release | api/src/main/java/com/github/retrooper/packetevents/event/ProtocolPacketEvent.java:195-195 | release() lowers the count by one and reports when it reaches zero; a released buffer throws |

## Left out

- PacketWrapper, ByteBufHelper and Netty's ByteBuf are not part of this model. The codecs in `wire.dfy` and the buffer in `buffers.dfy` follow the protocol's conventions. A buffer has one reader index and appends at its end; the writer index is its length.
- The wrapper constructors that take an event (`new Wrapper(event)`) read through PacketWrapper, which is not part of this model. Each wrapper's `serverVersion` and `clientVersion` are fields that the caller sets.
- Wrapper getters and setters are plain field accesses on the classes' fields, so they are not separate members.
- `ResourceLocation` is carried as its string form. The salt signature, the timestamp and the last-seen update are treated as round-tripping codecs (`signing.dfy`), and an update is carried as its encoded bytes.
- NBT compounds are opaque values (`TileEntities.Nbt`).
- `WrappedBlockState` is carried as its global id, so `getByGlobalId` is the identity.
- Floating point is left out: floats and doubles are bit patterns, and no arithmetic is done on them. `Float.compare` is modelled only as far as equality, with NaN canonicalisation and the sign of zero.
- Crypto is left out: `getSecretKey`, `setSharedKey`, `getPublicKey` and the `PublicKey` constructor of the encryption request.
- EncryptionRequest.WrapperLoginServerEncryptionRequest.Write: the server id, key and token are non-null values in the model, so the NullPointerException `write()` raises on a null field (api/src/main/java/com/github/retrooper/packetevents/wrapper/login/server/WrapperLoginServerEncryptionRequest.java:69-71) is not modelled.
- The ParticleTypes constant table and the mapping file behind `TypesBuilder` are left out. The registry takes the builder's versions and data-index function as parameters, and `define` is proved for any of them.
- Only block-state particle data and the one-argument `define` without data are modelled. The other `ParticleData` kinds are outside this model.
- `ParticleBlockStateData.setBlockState` and the accessors of ParticleBlockStateData are left out, because they are plain field accesses.
- `StateType.isReplaceable` is the definition `StateTypes.Replaceable`, a transcription of its switch. Nothing further is proved about it.
- `MaterialType` is not part of this model. Only the ten replaceable materials are named, and every other material is `Other`.
- `StateType`'s accessors are the class's constant fields.
- `DimensionType.isFlat` and `isDebug` compare with `WorldType`, which is not part of this model.
- The worker-pool branch of `callEvent` (EventManagerDynamic.java:90-106) is modelled only as the routing decision: `CallEvent` returns the pooled listeners without running them. The executor's shutdown state is a parameter.
- The legacy manager call (line 114) is opaque. `CallEvent` returns the priority it would be given.
- EventManager.EventManagerDynamic.CallEvent: a listener's two callbacks (`callPacketEvent` and `call`) are one function from listener and flag to the new flag, given as a parameter.
- The newer event manager of `PacketEvents.getAPI().getEventManager()` is not part of this model. In the encoder, its listeners are given as a `Decision` (cancel flag, wrapper, post tasks, bytes read), which is applied before the reset callback.
- `EventCreationUtil.createSendEvent` is not part of this model. The event's class is a parameter of `Read`.
- `PacketType.getById` is not part of this model and is a `Resolver` parameter.
- The server version the wire constructor fetches from the API is a parameter.
- The Status, Login and Play send-event subclasses are not part of this model. Their `clone()` is taken to be the retained-duplicate copy that `PacketLoginReceiveEvent.clone` performs (`Events.CloneWithDuplicate`).
- Events.LoginReceiveClone: the `catch` branch that returns null (PacketLoginReceiveEvent.java:48-51) cannot be reached, because the copying constructor does not throw. No null result is modelled.
- Buffers.ByteBuf.RetainedDuplicate: the duplicate's bytes are a snapshot taken at the call, not storage shared with the original, so a later write to one buffer is not seen by the other. The shared reference count is modelled; shared content is not. No operation in the model writes to an event's buffer after cloning it.
- Events.CloneWithDuplicate: the clone's buffer is such a snapshot of the event's bytes, for the same reason.
- The receive branch of `ProtocolPacketEvent.clone()` and PacketReceiveEvent are not part of this model.
- `getPacketName`, `getSocketAddress`, `setServerVersion` and `setClientVersion` are left out, because they are plain accessors or name lookups through reflection.
- `PacketEncoderModern.exceptionCaught` and `writeMessage` are Netty glue and logging.
- `ctx.alloc()` is a fresh buffer.
- `CustomPipelineUtil.callEncode` is an abstract function from an encoder and the readable bytes to its output and the number of bytes it reads (`Apply`).
- The vanilla encoder on a packet object is an abstract serialiser (`Serialize`).
- The last used wrapper's `writeData()` is modelled as the bytes it appends.
- EncoderModern.PacketEncoderModern.Read: listeners are taken not to replace the event's buffer with `setByteBuf`, so the buffer that `read()` clears (PacketEncoderModern.java:67) and the one whose reader index it resets (line 71) are the same object. The `Decision` a listener returns has no buffer field.
- EncoderModern.PacketEncoderModern.Encode: a throw from an encoder or the serialiser is not modelled. Only these throws are: a null wrapped encoder, a failed packet-id read, and a reader index beyond a rewritten buffer. The release after each of them is modelled too.
- Concurrency, Netty's event loop and the reference-count leak detector are left out.

## Findings

| source | as written | input that shows it | evidently intended | confidence | as-written member | corrected member |
|---|---|---|---|---|---|---|
| api/src/main/java/com/github/retrooper/packetevents/wrapper/login/client/WrapperLoginClientEncryptionResponse.java:82-84 | from 1.19, write() on the token path emits the token without the boolean `true` that read() (line 60) expects before it | client and server 1.19, secret `[]`, token `[7]`: written as `[0, 1, 7]`; read() takes `1` as `true` and then reads a token of length 7 from one remaining byte, failing; with an empty token the bytes are `[0, 0]`: read() takes the token's length 0 for `false` and fails looking for a salt signature | write `writeBoolean(true)` before the token from 1.19 on, so that read() takes the token back | not executed | EncryptionResponse.EncodeAsWritten, EncryptionResponse.AsWrittenLosesEmptyToken, EncryptionResponse.AsWrittenMisreadsToken | EncryptionResponse.Encode, EncryptionResponse.RoundTrip |
| api/src/main/java/com/github/retrooper/packetevents/protocol/world/states/type/StateType.java:123-124 | `if (this.getClass().equals(object.getClass())) return false;` rejects every other object of the same class, and lets objects of other classes through to the cast | two distinct StateType objects with equal fields are unequal; any non-StateType argument throws ClassCastException | `if (!this.getClass().equals(object.getClass())) return false;`, then compare fields | not executed | StateTypes.EqualsAsWritten, StateTypes.AsWrittenMissesEqualFields | StateTypes.Equals, StateTypes.EqualsIsEquivalence |
