# socket.io PHP emitter: the builder and its `emit`

This project models `SocketIO\Emitter`, the builder that lets a PHP process
broadcast socket.io events through Redis pub/sub. A chain of configuration
calls builds up the builder state. That state is an immutable `State`: the
channel prefix, an ordered room list, and a flag map whose values are `On`
(a flag read through the magic accessor) or `Nsp(name)` (the namespace stored
by `of` under the `nsp` key). `emit` is a pure function. It takes the state
and the arguments and returns an `Emission`, which holds:

- the cleared state;
- the envelope `[uid, packet, opts]` it handed to the serialiser;
- the publish trace, a sequence of `Publish(channel, payload)`.

The serialiser (`msgpack_pack`) is the function parameter `pack`. Nothing is
assumed about it. Every statement about payloads is relative to its output.
Each call of the Redis client's `publish` is one entry in the trace.

Modules:

- `Wrappers`: `Option`, for the optional `key` construction option.
- `EmitterState`: the state, the constructor's prefix choice, the flag
  accessor, `readFlag`, `in`, `to`, `of`.
- `Chain`: arbitrary chains of configuration calls and the invariants they
  keep.
- `Packet`: arguments and binary wrappers, packet type, namespace
  resolution, envelope.
- `BinaryPatch`: the `0xda`→`0xd8`, `0xdb`→`0xd9` rewrite of binary
  payloads.
- `Routing`: channel names and the per-room publish trace.
- `Emitter`: `emit`, and lemmas about consecutive emits and about emitting
  from particular kinds of state.
- `Scenarios`: the calls the repository's integration tests make, and a few
  more chains, each worked through to its concrete channel names.

Where the PHP code's behaviour is easy to miss, the model follows the code:

- PHP only calls `__get` for properties that are not accessible. The
  constructor assigns `redis`, `prefix`, `_rooms` and `_flags` as public
  properties, so reading one of those returns it and sets no flag (`Get`).
- A read of a property called `nsp` stores `true` in the slot `of` uses. The
  next `emit` then takes `true` as the namespace, and PHP renders it as `1`
  in the channel name (`Scenarios.FlagNamedNspScenario`).
- `readFlag` returns the stored value, and the caller tests its PHP
  truthiness (`ReadFlag`, `Truthy`).
- Only top-level binary wrappers are unwrapped. A wrapper nested in an array
  argument is passed through as it is.
- `emit` declares no parameters and reads its whole argument list, so the
  model's `Emit` takes that list as one sequence. The event name is its first
  element, and `emit()` with no arguments at all is also a valid call
  (`EmitWithoutArguments`).

## Model

| member | source | states |
|---|---|---|
| EmitterState.New | src/SocketIO/Emitter.php:47-52 | the prefix is the `key` option when given, else `socket.io`; rooms and flags start empty and the state is valid |
| EmitterState.ReadFlag | src/SocketIO/Emitter.php:64-67 | an absent flag reads false; a flag set to true reads true; for well-formed flags and any name but `nsp`, it reads true exactly when the key is present |
| EmitterState.SetFlag | src/SocketIO/Emitter.php:58-62 | sets `flags[name]` to true and then reads as set; the key set grows by exactly `name`; every other flag, the rooms and the prefix are unchanged; validity is kept |
| EmitterState.Get | src/SocketIO/Emitter.php:47-62 | reading a public property changes nothing; any other name stores `true` under that name, exactly as `SetFlag`, and leaves the other flags, the rooms and the prefix alone |
| EmitterState.In | src/SocketIO/Emitter.php:73-80 | the room is in the list afterwards; the old list is kept as a prefix; the length grows by one exactly when the room was absent; the room set gains exactly `room`; a duplicate-free list stays duplicate-free; flags and prefix are unchanged |
| EmitterState.To | src/SocketIO/Emitter.php:82-86 | gives the same state as `In` for every state and room |
| EmitterState.Of | src/SocketIO/Emitter.php:92-96 | stores the namespace under the `nsp` key; all other flags, the rooms and the prefix are unchanged; validity is kept |
| EmitterState.InIdempotent | src/SocketIO/Emitter.php:73-80 | adding the same room twice gives the same state as adding it once |
| Chain.ApplyAllValid | src/SocketIO/Emitter.php:58-96 | every chain of flag reads and `in`/`to`/`of` calls keeps the room list duplicate-free and every non-namespace flag true |
| Chain.ApplyAllRooms | src/SocketIO/Emitter.php:73-86 | a chain keeps the prefix and the existing rooms in order at the front; the final room set is the old rooms plus the rooms the chain named |
| Packet.ReplaceWrappers | src/SocketIO/Emitter.php:108-115 | same length and order as the arguments; each wrapper is replaced by its string form and every other argument is unchanged; no wrapper is left |
| Packet.ResolveNamespace | src/SocketIO/Emitter.php:123-129 | the namespace is the `nsp` entry if present, else `/`; the remaining flags are the input without `nsp` and with every value kept |
| Packet.BuildEnvelope | src/SocketIO/Emitter.php:104-136 | uid `emitter`; data is the unwrapped argument list; the type is 5 exactly when the binary flag was already set or some argument is a wrapper, else 2; namespace resolved; opts hold the room list and exactly the flags after the scan (with `binary: true` added when a wrapper was passed) minus `nsp` |
| Packet.OfThenResolve | src/SocketIO/Emitter.php:92-129 | resolving after `of(nsp)` gives back `nsp` and the previous flags without any namespace entry |
| BinaryPatch.ReplaceByte | src/SocketIO/Emitter.php:140-141 | same length; each occurrence of the byte is replaced and every other byte is unchanged |
| BinaryPatch.Patch | src/SocketIO/Emitter.php:138-142 | the two successive replacements map `0xda` to `0xd8` and `0xdb` to `0xd9` byte by byte; the length is kept and the result contains neither `0xda` nor `0xdb` |
| BinaryPatch.PatchIdempotent | src/SocketIO/Emitter.php:139-142 | patching twice is patching once |
| BinaryPatch.PatchFixesCleanBuffers | src/SocketIO/Emitter.php:139-142 | a buffer without `0xda`/`0xdb` passes through unchanged |
| BinaryPatch.PatchMergesTags | src/SocketIO/Emitter.php:139-142 | buffers that agree up to the tag mapping are published identically, so the patch cannot be undone |
| Routing.BaseChannel | src/SocketIO/Emitter.php:135 | the channel is the prefix, `#`, the namespace, `#`, with every segment recoverable by position |
| Routing.RoomChannel | src/SocketIO/Emitter.php:147 | the room channel starts with the base channel, then the room, and ends with `#` |
| Routing.PublishToRooms | src/SocketIO/Emitter.php:145-149 | one publish per room, in room order, to that room's channel, all with the same payload |
| Routing.Route | src/SocketIO/Emitter.php:144-152 | with rooms there is one publish per room to its channel; without rooms there is exactly one publish to the base channel; every publish carries the same payload |
| Routing.RoomChannelInjective | src/SocketIO/Emitter.php:147 | two rooms with the same channel under one base are the same room |
| Routing.RouteChannelsDistinct | src/SocketIO/Emitter.php:145-149 | distinct rooms are published on pairwise distinct channels |
| Emitter.Payload | src/SocketIO/Emitter.php:136-142 | a binary packet's payload is the serialised envelope mapped byte by byte through the tag rewrite, with no `0xda`/`0xdb`; an ordinary packet's payload is the serialised envelope unchanged |
| Emitter.Emit | src/SocketIO/Emitter.php:102-159 | data is the whole argument list in order, wrappers unwrapped; type 5 exactly when the binary flag read true or some argument was a wrapper, else 2; namespace from the `nsp` slot or `/`; opts hold the room list and exactly the flags after the scan minus `nsp`; one publish per room to `prefix#nsp#room#` in order, or one to `prefix#nsp#`; identical payloads; afterwards rooms and flags are empty and the prefix is kept |
| Emitter.EmitWithoutArguments | src/SocketIO/Emitter.php:102-121 | `emit()` with no arguments publishes an empty data list; the type is 5 exactly when `binary` was set; the snapshot is the flags minus `nsp` |
| Emitter.EmitLeavesValidState | src/SocketIO/Emitter.php:154-156 | the state after emit is the valid fresh state with the same prefix |
| Emitter.EmitFromEmpty | src/SocketIO/Emitter.php:117-152 | from a state with no rooms and no flags and without wrappers: namespace `/`, type 2, empty options, a single publish on `prefix#/#` carrying the unpatched serialised envelope |
| Emitter.EmitTwiceDefaults | src/SocketIO/Emitter.php:123-156 | whatever the first emit was configured with, an unconfigured second emit without wrappers uses namespace `/`, type 2, empty rooms and flags, and publishes once to `prefix#/#` |
| Emitter.EmitChannelsDistinct | src/SocketIO/Emitter.php:145-149 | from a valid state, one emit never publishes twice on the same channel |
| Emitter.EmitSnapshotFlagsAreTrue | src/SocketIO/Emitter.php:117-134 | from a valid state every flag in the snapshot is true, and the packet is binary exactly when `binary` was set or a wrapper was passed |
| Emitter.DefaultNamespaceChannels | src/SocketIO/Emitter.php:123-152 | without a namespace entry the namespace is `/`, and the publishes go to `prefix#/#room#` per room, or once to `prefix#/#` |
| Emitter.OneRoomEmit | src/SocketIO/Emitter.php:145-149 | with the single room `room` and no flags, emit publishes exactly once, on `prefix#/#room#` |
| Emitter.NamespaceRoomEmit | src/SocketIO/Emitter.php:123-149 | with namespace `nsp`, one room and no wrapper, emit publishes once on `prefix#nsp#room#`, the packet carries `nsp`, and the snapshot has the room and no flags |
| Emitter.SingleFlagEmit | src/SocketIO/Emitter.php:117-152 | with one ordinary flag and no wrapper, the snapshot is exactly that flag set to true, the type is 2, and there is one publish on `prefix#/#` |
| Emitter.TrueNamespaceEmit | src/SocketIO/Emitter.php:124-135 | with `true` in the namespace slot, the packet namespace is `true` and the single publish goes to `prefix#1#` |
| Emitter.WrappedArgumentEmit | src/SocketIO/Emitter.php:109-142 | from an empty state, a wrapped argument gives type 5, `binary: true` as the only flag, and payloads free of `0xda`/`0xdb` |
| Scenarios.RoomChannelScenario | src/SocketIO/Tests/EmitterTest.php:169-183 | `to('rm')` then emit publishes once on `socket.io#/#rm#` |
| Scenarios.FreshRoomState | src/SocketIO/Emitter.php:48-80 | `to('rm')` on a fresh emitter leaves the prefix `socket.io`, the rooms `[rm]` and no flags |
| Scenarios.NamespaceRoomState | src/SocketIO/Emitter.php:48-96 | `of('/nsp')->to('rm')` on a fresh emitter leaves the rooms `[rm]` and only the namespace `/nsp` in the flags |
| Scenarios.NamespaceAndRoomScenario | src/SocketIO/Tests/EmitterTest.php:185-199 | `of('/nsp')->to('rm')` then emit publishes once on `socket.io#/nsp#rm#` with namespace `/nsp` and no flags |
| Scenarios.DuplicateRoomScenario | src/SocketIO/Emitter.php:73-80 | `to(r1)`, `in(r2)`, `to(r1)` publishes exactly twice, on the `r1` then the `r2` channel, with equal payloads |
| Scenarios.RoomListScenario | src/SocketIO/Emitter.php:73-86 | `to(r1)`, `in(r2)`, `to(r1)` on a fresh emitter leaves the rooms `[r1, r2]` and no flags |
| Emitter.TwoRoomEmit | src/SocketIO/Emitter.php:145-149 | with rooms `[r1, r2]`, emit publishes exactly twice, on `prefix#/#r1#` then `prefix#/#r2#`, with equal payloads |
| Scenarios.BroadcastFlagScenario | src/SocketIO/Tests/EmitterTest.php:83-101 | `->broadcast` before emit puts exactly `broadcast: true` in the flags and publishes once on `socket.io#/#` |
| Scenarios.FlagNamedNspScenario | src/SocketIO/Emitter.php:124-135 | reading `->nsp` makes `true` the namespace, and emit publishes on `socket.io#1#` |
| Scenarios.BinaryWrapperScenario | src/SocketIO/Tests/EmitterTest.php:120-135 | a wrapped argument gives a binary packet with the raw string in the data, `binary: true` in the flags, and payloads free of `0xda`/`0xdb` |
| Scenarios.PlainBytesScenario | src/SocketIO/Tests/EmitterTest.php:103-118 | the same bytes passed without a wrapper give an ordinary packet and an unpatched payload |

## Left out

- Client construction (src/SocketIO/Emitter.php, lines 12-45): choosing phpredis or TinyRedisClient, connecting by host/port or socket, and the host, port and `publish`-callable checks. These are I/O and runtime introspection. The client is modelled only as the publish trace.
- `msgpack_pack`: the wire encoding belongs to a foreign library, so it is the uninterpreted parameter `pack`. The round trip from decoding a published payload is therefore not stated. What is stated is the envelope handed to the serialiser.
- Exceptions thrown by `publish`: only the normally returning path of `emit` is modelled. When `publish` throws, the remaining rooms are skipped and so is the reset.
- The implementation of the `Binary` wrapper class: it is not part of this model. Its string conversion is taken to return the wrapped string.
- EmitterState.In: rooms are compared with string equality. PHP's `in_array` compares loosely, which also treats distinct numeric strings such as `"1"` and `"01"` as duplicates.
- Rooms and namespaces that are not strings (integers, `null`) are left out. After `of(null)` the namespace would be `/`, because `isset` is false for `null`. The `unset` of the entry is skipped too, though, so a `nsp: null` entry would stay in the flags snapshot. That payload differs from the one of an emit without `of`.
- Flag order: PHP arrays are ordered, and the serialiser writes the flags in insertion order. That order comes from the accessor calls, the `binary` entry appended during the argument scan, and the removal of `nsp`. The model's flag map is unordered, so `->broadcast->volatile` and `->volatile->broadcast` give equal envelopes. Every statement about payload bytes therefore holds only up to the order of the flag entries.
- Emitter.Emit: the envelope is returned only so that its contents can be stated. The code builds it and then discards it.
- PHP's conversion of numeric-string array keys to integers in the flag map is left out. It affects only the serialised form.
