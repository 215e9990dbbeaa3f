/**
 * The calls the repository's integration tests make, and a few more chains,
 * worked through the model: which channels they publish on and what the
 * envelope holds.
 */
module Scenarios {
  import opened Wrappers
  import opened EmitterState
  import opened Packet
  import opened Routing
  import opened Emitter

  /** The channel names below, assembled from their segments. */
  lemma ChannelSpellings()
    ensures "socket.io" + "#/#" == "socket.io#/#"
    ensures "socket.io" + "#1#" == "socket.io#1#"
    ensures "socket.io" + "#/#" + "rm" + "#" == "socket.io#/#rm#"
    ensures "socket.io" + "#" + "/nsp" + "#" + "rm" + "#" == "socket.io#/nsp#rm#"
    ensures "k" + "#/#" + "r1" + "#" == "k#/#r1#"
    ensures "k" + "#/#" + "r2" + "#" == "k#/#r2#"
  {
  }

  /** `to("rm")` then emit, on a fresh emitter: one publish on `socket.io#/#rm#`. */
  lemma RoomChannelScenario(args: seq<Arg>, pack: Envelope -> seq<bv8>)
    ensures var e := Emit(To(New(None), "rm"), args, pack);
      |e.published| == 1 && e.published[0].channel == "socket.io#/#rm#"
  {
    FreshRoomState();
    OneRoomEmit("socket.io", "rm", args, pack);
    ChannelSpellings();
  }

  /** `to("rm")` on a fresh emitter leaves exactly that room and no flags. */
  lemma FreshRoomState()
    ensures To(New(None), "rm") == State("socket.io", ["rm"], map[])
  {
    assert New(None).rooms == [];
  }

  /** `of("/nsp")`, `to("rm")`, then emit: one publish on `socket.io#/nsp#rm#`, and no `nsp` flag in the snapshot. */
  lemma NamespaceAndRoomScenario(args: seq<Arg>, pack: Envelope -> seq<bv8>)
    requires !HasBinary(args)
    ensures var e := Emit(To(Of(New(None), "/nsp"), "rm"), args, pack);
      && |e.published| == 1
      && e.published[0].channel == "socket.io#/nsp#rm#"
      && e.envelope.packet.nsp == Nsp("/nsp")
      && e.envelope.opts == Opts(["rm"], map[])
  {
    var s := To(Of(New(None), "/nsp"), "rm");
    NamespaceRoomState();
    assert s == State("socket.io", ["rm"], map[NSP_KEY := Nsp("/nsp")]);
    NamespaceRoomEmit("socket.io", "/nsp", "rm", args, pack);
    ChannelSpellings();
  }

  /** `of("/nsp")` then `to("rm")` on a fresh emitter. */
  lemma NamespaceRoomState()
    ensures To(Of(New(None), "/nsp"), "rm") == State("socket.io", ["rm"], map[NSP_KEY := Nsp("/nsp")])
  {
    assert Of(New(None), "/nsp").rooms == [];
  }

  /** Two rooms, and one of them named twice: two publishes in insertion order, same payload. */
  lemma DuplicateRoomScenario(args: seq<Arg>, pack: Envelope -> seq<bv8>)
    ensures var s := To(In(To(New(Some("k")), "r1"), "r2"), "r1");
      var e := Emit(s, args, pack);
      && |e.published| == 2
      && e.published[0].channel == "k#/#r1#"
      && e.published[1].channel == "k#/#r2#"
      && e.published[0].payload == e.published[1].payload
  {
    var s := To(In(To(New(Some("k")), "r1"), "r2"), "r1");
    RoomListScenario();
    assert s == State("k", ["r1", "r2"], map[]);
    TwoRoomEmit("k", "r1", "r2", args, pack);
    ChannelSpellings();
  }

  /** The state after `to(r1)`, `in(r2)`, `to(r1)` on a fresh emitter. */
  lemma RoomListScenario()
    ensures To(In(To(New(Some("k")), "r1"), "r2"), "r1") == State("k", ["r1", "r2"], map[])
  {
    var s1 := To(New(Some("k")), "r1");
    assert s1.rooms == ["r1"];
    var s2 := In(s1, "r2");
    assert s2.rooms == ["r1", "r2"];
  }

  /** Reading `broadcast` before emit: the snapshot reports exactly that flag. */
  lemma BroadcastFlagScenario(args: seq<Arg>, pack: Envelope -> seq<bv8>)
    requires !HasBinary(args)
    ensures var e := Emit(Get(New(None), "broadcast"), args, pack);
      && e.envelope.opts.flags == map["broadcast" := On]
      && e.envelope.packet.kind == EVENT
      && e.published == [Publish("socket.io#/#", pack(e.envelope))]
  {
    var s := Get(New(None), "broadcast");
    assert s == State("socket.io", [], map["broadcast" := On]);
    SingleFlagEmit("socket.io", "broadcast", args, pack);
    ChannelSpellings();
  }

  /**
   * Reading a property called `nsp` stores `true` in the namespace slot, so
   * emit takes `true` as the namespace and publishes on `socket.io#1#`.
   */
  lemma FlagNamedNspScenario(args: seq<Arg>, pack: Envelope -> seq<bv8>)
    ensures var e := Emit(Get(New(None), "nsp"), args, pack);
      && e.envelope.packet.nsp == On
      && e.published[0].channel == "socket.io#1#"
  {
    var s := Get(New(None), "nsp");
    assert s == State("socket.io", [], map[NSP_KEY := On]);
    TrueNamespaceEmit("socket.io", args, pack);
    ChannelSpellings();
  }

  /** A wrapped argument makes the packet binary and strips 0xda and 0xdb from every published payload. */
  lemma BinaryWrapperScenario(raw: string, pack: Envelope -> seq<bv8>)
    ensures var e := Emit(New(None), [Str("binary event"), Bin(raw)], pack);
      && e.envelope.packet.kind == BINARY_EVENT
      && e.envelope.packet.data == [Str("binary event"), Str(raw)]
      && e.envelope.opts.flags == map[BINARY_FLAG := On]
      && forall j, i :: 0 <= j < |e.published| && 0 <= i < |e.published[j].payload| ==>
           e.published[j].payload[i] != 0xda && e.published[j].payload[i] != 0xdb
  {
    var args := [Str("binary event"), Bin(raw)];
    assert HasBinary(args) by { assert args[1].Bin?; }
    WrappedArgumentEmit("socket.io", args, pack);
  }

  /** The same bytes passed as a plain string do not make the packet binary, and the payload is unpatched. */
  lemma PlainBytesScenario(raw: string, pack: Envelope -> seq<bv8>)
    ensures var e := Emit(New(None), [Str("binary event"), Str(raw)], pack);
      && e.envelope.packet.kind == EVENT
      && e.published == [Publish("socket.io#/#", pack(e.envelope))]
  {
    var args := [Str("binary event"), Str(raw)];
    assert !HasBinary(args);
    assert New(None) == State("socket.io", [], map[]);
    EmitFromEmpty("socket.io", args, pack);
    ChannelSpellings();
  }
}
