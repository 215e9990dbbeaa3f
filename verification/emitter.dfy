/**
 * `emit`: turns the accumulated state and the event arguments into the
 * serialised envelope, patches binary payloads, publishes on the derived
 * channels and clears the state.
 *
 * The serialiser is the parameter `pack`, about which nothing is assumed, and
 * each call of the client's `publish` is an entry of the returned trace.
 */
module Emitter {
  import opened Wrappers
  import opened EmitterState
  import opened Packet
  import opened BinaryPatch
  import opened Routing

  /** What one `emit` produces: the state afterwards, the envelope it serialised, and its publishes in order. */
  datatype Emission = Emission(next: State, envelope: Envelope, published: seq<Publish>)

  /** The bytes sent for an envelope: the serialised form, patched when the packet is binary. */
  function Payload(env: Envelope, pack: Envelope -> seq<bv8>): (p: seq<bv8>)
    ensures |p| == |pack(env)|
    ensures env.packet.kind == BINARY_EVENT ==>
      (forall i :: 0 <= i < |p| ==> p[i] == MapTag(pack(env)[i]) && p[i] != 0xda && p[i] != 0xdb)
    ensures env.packet.kind != BINARY_EVENT ==> p == pack(env)
  {
    if env.packet.kind == BINARY_EVENT then Patch(pack(env)) else pack(env)
  }

  /**
   * `emit(...)` on the state `s`, when every publish returns normally.
   * `args` is the whole argument list of the call, the event name first; the
   * call takes no declared parameters, so the list may also be empty.
   */
  function Emit(s: State, args: seq<Arg>, pack: Envelope -> seq<bv8>): (e: Emission)
    // state afterwards: no rooms, no flags, same prefix
    ensures e.next == State(s.prefix, [], map[])
    // packet data: the arguments in order, wrappers unwrapped
    ensures e.envelope.uid == UID
    ensures |e.envelope.packet.data| == |args|
    ensures forall i :: 0 <= i < |args| ==> e.envelope.packet.data[i] == Unwrap(args[i])
    // packet type
    ensures e.envelope.packet.kind == BINARY_EVENT <==> ReadFlag(s.flags, BINARY_FLAG) || HasBinary(args)
    ensures e.envelope.packet.kind != BINARY_EVENT ==> e.envelope.packet.kind == EVENT
    // namespace
    ensures NSP_KEY in s.flags ==> e.envelope.packet.nsp == s.flags[NSP_KEY]
    ensures NSP_KEY !in s.flags ==> e.envelope.packet.nsp == Nsp(DEFAULT_NSP)
    // options snapshot: the rooms, and the flags after the scan without the namespace
    ensures e.envelope.opts.rooms == s.rooms
    ensures NSP_KEY !in e.envelope.opts.flags
    ensures e.envelope.opts.flags == (if HasBinary(args) then s.flags[BINARY_FLAG := On] else s.flags) - {NSP_KEY}
    // publishes
    ensures |s.rooms| > 0 ==> |e.published| == |s.rooms|
    ensures |s.rooms| == 0 ==>
      |e.published| == 1 && e.published[0].channel == s.prefix + "#" + NspText(e.envelope.packet.nsp) + "#"
    ensures forall j :: 0 <= j < |s.rooms| ==>
      e.published[j].channel == s.prefix + "#" + NspText(e.envelope.packet.nsp) + "#" + s.rooms[j] + "#"
    ensures forall j :: 0 <= j < |e.published| ==> e.published[j].payload == Payload(e.envelope, pack)
  {
    var env := BuildEnvelope(s, args);
    var base := BaseChannel(s.prefix, NspText(env.packet.nsp));
    Emission(State(s.prefix, [], map[]), env, Route(base, s.rooms, Payload(env, pack)))
  }

  /**
   * `emit()` with no arguments at all: an empty data list, a packet type
   * decided by the binary flag alone, and the usual publishes.
   */
  lemma EmitWithoutArguments(s: State, pack: Envelope -> seq<bv8>)
    requires Valid(s)
    ensures var e := Emit(s, [], pack);
      && e.envelope.packet.data == []
      && (e.envelope.packet.kind == BINARY_EVENT <==> BINARY_FLAG in s.flags)
      && e.envelope.opts.flags == s.flags - {NSP_KEY}
      && |e.published| >= 1
  {
    assert !HasBinary([]);
  }

  /** Two emits in a row: the second starts from a valid empty state. */
  lemma EmitLeavesValidState(s: State, args: seq<Arg>, pack: Envelope -> seq<bv8>)
    ensures Valid(Emit(s, args, pack).next)
    ensures Emit(s, args, pack).next == New(Some(s.prefix))
  {
  }

  /**
   * An emit from a state with no rooms and no flags, without wrapped
   * arguments: default namespace, ordinary packet, empty options, and one
   * publish on `prefix#/#`.
   */
  lemma EmitFromEmpty(prefix: string, args: seq<Arg>, pack: Envelope -> seq<bv8>)
    requires !HasBinary(args)
    ensures var e := Emit(State(prefix, [], map[]), args, pack);
      && e.envelope.packet.nsp == Nsp(DEFAULT_NSP)
      && e.envelope.packet.kind == EVENT
      && e.envelope.opts == Opts([], map[])
      && e.published == [Publish(prefix + "#/#", pack(e.envelope))]
  {
    var e := Emit(State(prefix, [], map[]), args, pack);
    assert e.envelope.opts.flags.Keys == {};
    DefaultBase(prefix);
  }

  /**
   * Whatever the first emit was configured with, a second emit with no new
   * configuration and no wrapped arguments goes to the default namespace, with
   * no rooms and no flags, on the single channel `prefix#/#`.
   */
  lemma EmitTwiceDefaults(s: State, a1: seq<Arg>, a2: seq<Arg>, pack: Envelope -> seq<bv8>)
    requires !HasBinary(a2)
    ensures var second := Emit(Emit(s, a1, pack).next, a2, pack);
      && second.envelope.packet.nsp == Nsp(DEFAULT_NSP)
      && second.envelope.packet.kind == EVENT
      && second.envelope.opts == Opts([], map[])
      && second.published == [Publish(s.prefix + "#/#", pack(second.envelope))]
  {
    var next := Emit(s, a1, pack).next;
    assert next == State(s.prefix, [], map[]);
    EmitFromEmpty(s.prefix, a2, pack);
  }

  /** With a valid state, the rooms' publishes all go to different channels. */
  lemma EmitChannelsDistinct(s: State, args: seq<Arg>, pack: Envelope -> seq<bv8>)
    requires Valid(s)
    ensures var p := Emit(s, args, pack).published;
      forall i, j :: 0 <= i < j < |p| ==> p[i].channel != p[j].channel
  {
  }

  /** The options snapshot of a valid state only ever reports flags as `true`. */
  lemma EmitSnapshotFlagsAreTrue(s: State, args: seq<Arg>, pack: Envelope -> seq<bv8>)
    requires Valid(s)
    ensures var f := Emit(s, args, pack).envelope.opts.flags;
      forall k :: k in f ==> f[k] == On
    ensures Emit(s, args, pack).envelope.packet.kind == BINARY_EVENT <==>
      BINARY_FLAG in s.flags || HasBinary(args)
  {
  }

  /** The base channel of the default namespace, spelled out. */
  lemma DefaultBase(prefix: string)
    ensures prefix + "#" + NspText(Nsp(DEFAULT_NSP)) + "#" == prefix + "#/#"
  {
  }

  /**
   * Without `of`, the namespace is `/`: one publish per room on
   * `prefix#/#room#`, or a single one on `prefix#/#`.
   */
  lemma DefaultNamespaceChannels(s: State, args: seq<Arg>, pack: Envelope -> seq<bv8>)
    requires NSP_KEY !in s.flags
    ensures var e := Emit(s, args, pack);
      && e.envelope.packet.nsp == Nsp(DEFAULT_NSP)
      && (|s.rooms| == 0 ==> |e.published| == 1 && e.published[0].channel == s.prefix + "#/#")
      && (|s.rooms| > 0 ==> |e.published| == |s.rooms|)
      && forall j :: 0 <= j < |s.rooms| ==> e.published[j].channel == s.prefix + "#/#" + s.rooms[j] + "#"
  {
    DefaultBase(s.prefix);
  }

  /** Emitting to one room with no flags: a single publish on `prefix#/#room#`. */
  lemma OneRoomEmit(prefix: string, room: string, args: seq<Arg>, pack: Envelope -> seq<bv8>)
    ensures var e := Emit(State(prefix, [room], map[]), args, pack);
      |e.published| == 1 && e.published[0].channel == prefix + "#/#" + room + "#"
  {
    DefaultNamespaceChannels(State(prefix, [room], map[]), args, pack);
  }

  /** Emitting to two rooms with no flags: one publish per room on the default namespace. */
  lemma TwoRoomEmit(prefix: string, r1: string, r2: string, args: seq<Arg>, pack: Envelope -> seq<bv8>)
    ensures var e := Emit(State(prefix, [r1, r2], map[]), args, pack);
      && |e.published| == 2
      && e.published[0].channel == prefix + "#/#" + r1 + "#"
      && e.published[1].channel == prefix + "#/#" + r2 + "#"
      && e.published[0].payload == e.published[1].payload
  {
    DefaultNamespaceChannels(State(prefix, [r1, r2], map[]), args, pack);
  }

  /** `of(nsp)` and one room, no flags: one publish on `prefix#nsp#room#`, with the namespace consumed. */
  lemma NamespaceRoomEmit(prefix: string, nsp: string, room: string, args: seq<Arg>, pack: Envelope -> seq<bv8>)
    requires !HasBinary(args)
    ensures var e := Emit(State(prefix, [room], map[NSP_KEY := Nsp(nsp)]), args, pack);
      && |e.published| == 1
      && e.published[0].channel == prefix + "#" + nsp + "#" + room + "#"
      && e.envelope.packet.nsp == Nsp(nsp)
      && e.envelope.opts == Opts([room], map[])
  {
    var e := Emit(State(prefix, [room], map[NSP_KEY := Nsp(nsp)]), args, pack);
    assert e.envelope.opts.flags.Keys == {};
  }

  /** One ordinary flag and nothing else: the snapshot holds exactly that flag, and one publish goes to `prefix#/#`. */
  lemma SingleFlagEmit(prefix: string, name: string, args: seq<Arg>, pack: Envelope -> seq<bv8>)
    requires name != NSP_KEY && name != BINARY_FLAG && !HasBinary(args)
    ensures var e := Emit(State(prefix, [], map[name := On]), args, pack);
      && e.envelope.opts.flags == map[name := On]
      && e.envelope.packet.kind == EVENT
      && e.published == [Publish(prefix + "#/#", pack(e.envelope))]
  {
    var e := Emit(State(prefix, [], map[name := On]), args, pack);
    assert e.envelope.opts.flags.Keys == {name};
    DefaultBase(prefix);
  }

  /** `true` in the namespace slot: the namespace is `true`, rendered `1` in the channel. */
  lemma TrueNamespaceEmit(prefix: string, args: seq<Arg>, pack: Envelope -> seq<bv8>)
    ensures var e := Emit(State(prefix, [], map[NSP_KEY := On]), args, pack);
      && e.envelope.packet.nsp == On
      && |e.published| == 1
      && e.published[0].channel == prefix + "#1#"
  {
    assert prefix + "#" + NspText(On) + "#" == prefix + "#1#";
  }

  /**
   * From a state with no rooms and no flags, a wrapped argument makes the
   * packet binary, `binary: true` the only flag, and every payload free of
   * 0xda and 0xdb.
   */
  lemma WrappedArgumentEmit(prefix: string, args: seq<Arg>, pack: Envelope -> seq<bv8>)
    requires HasBinary(args)
    ensures var e := Emit(State(prefix, [], map[]), args, pack);
      && e.envelope.packet.kind == BINARY_EVENT
      && e.envelope.opts.flags == map[BINARY_FLAG := On]
      && forall j, i :: 0 <= j < |e.published| && 0 <= i < |e.published[j].payload| ==>
           e.published[j].payload[i] != 0xda && e.published[j].payload[i] != 0xdb
  {
    var e := Emit(State(prefix, [], map[]), args, pack);
    assert e.envelope.opts.flags.Keys == {BINARY_FLAG};
  }
}
