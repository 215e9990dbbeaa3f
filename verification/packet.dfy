/**
 * The event packet and the three-element envelope handed to the serialiser:
 * argument scan for binary wrappers, packet type, namespace resolution.
 */
module Packet {
  import opened EmitterState

  /**
   * An emitted argument. `Bin` is a binary wrapper object around a byte
   * string; `Str` a plain string (PHP strings are byte strings, so binary
   * data passed without a wrapper is a `Str` too); `Arr` a nested list, whose
   * elements are passed through untouched.
   */
  datatype Arg = Str(s: string) | Bin(raw: string) | Int(i: int) | Bool(b: bool) | Null | Arr(items: seq<Arg>)

  const EVENT: int := 2
  const BINARY_EVENT: int := 5

  /** Identity tag put first in every envelope. */
  const UID: string := "emitter"

  /** The namespace used when `of` was not called. */
  const DEFAULT_NSP: string := "/"

  /** `kind` is the packet type; `nsp` is whatever the namespace slot held (normally `Nsp`). */
  datatype Packet = Packet(kind: int, data: seq<Arg>, nsp: FlagValue)

  /** The options element of the envelope: snapshots of rooms and flags. */
  datatype Opts = Opts(rooms: seq<string>, flags: Flags)

  datatype Envelope = Envelope(uid: string, packet: Packet, opts: Opts)

  /** A binary wrapper converted to its string form; every other argument as it is. */
  function Unwrap(a: Arg): Arg
  {
    match a
    case Bin(raw) => Str(raw)
    case _ => a
  }

  /** Whether some argument is a binary wrapper. */
  predicate HasBinary(args: seq<Arg>)
  {
    exists i :: 0 <= i < |args| && args[i].Bin?
  }

  /** The argument list with each top-level binary wrapper replaced by its string form. */
  function ReplaceWrappers(args: seq<Arg>): (r: seq<Arg>)
    ensures |r| == |args|
    ensures forall i :: 0 <= i < |args| && args[i].Bin? ==> r[i] == Str(args[i].raw)
    ensures forall i :: 0 <= i < |args| && !args[i].Bin? ==> r[i] == args[i]
    ensures !HasBinary(r)
    decreases |args|
  {
    if |args| == 0 then []
    else [Unwrap(args[0])] + ReplaceWrappers(args[1..])
  }

  /**
   * The argument scan: the data list plus the flag map after the scan, which
   * has the binary flag set when some argument was a wrapper.
   */
  function ScanArgs(args: seq<Arg>, flags: Flags): (seq<Arg>, Flags)
  {
    (ReplaceWrappers(args), if HasBinary(args) then flags[BINARY_FLAG := On] else flags)
  }

  /**
   * Takes the namespace out of the flag map: the namespace value (default
   * "/") and the flags left for the options snapshot.
   */
  function ResolveNamespace(flags: Flags): (r: (FlagValue, Flags))
    ensures NSP_KEY in flags ==> r.0 == flags[NSP_KEY]
    ensures NSP_KEY !in flags ==> r.0 == Nsp(DEFAULT_NSP)
    ensures NSP_KEY !in r.1
    ensures r.1.Keys == flags.Keys - {NSP_KEY}
    ensures forall k :: k in r.1 ==> r.1[k] == flags[k]
  {
    if NSP_KEY in flags then (flags[NSP_KEY], flags - {NSP_KEY}) else (Nsp(DEFAULT_NSP), flags)
  }

  /** The namespace as it appears when concatenated into a channel name; PHP renders `true` as "1". */
  function NspText(v: FlagValue): string
  {
    match v
    case On => "1"
    case Nsp(n) => n
  }

  /**
   * The envelope `emit` serialises for the state `s` and the full argument
   * list `args` (event name first).
   */
  function BuildEnvelope(s: State, args: seq<Arg>): (e: Envelope)
    ensures e.uid == UID
    ensures e.packet.data == ReplaceWrappers(args)
    ensures e.packet.kind == BINARY_EVENT <==> ReadFlag(s.flags, BINARY_FLAG) || HasBinary(args)
    ensures e.packet.kind == EVENT || e.packet.kind == BINARY_EVENT
    ensures NSP_KEY in s.flags ==> e.packet.nsp == s.flags[NSP_KEY]
    ensures NSP_KEY !in s.flags ==> e.packet.nsp == Nsp(DEFAULT_NSP)
    ensures e.opts.rooms == s.rooms
    ensures NSP_KEY !in e.opts.flags
    ensures HasBinary(args) ==> e.opts.flags.Keys == s.flags.Keys + {BINARY_FLAG} - {NSP_KEY}
    ensures !HasBinary(args) ==> e.opts.flags.Keys == s.flags.Keys - {NSP_KEY}
    ensures HasBinary(args) ==> e.opts.flags[BINARY_FLAG] == On
    ensures forall k :: k in e.opts.flags && (k != BINARY_FLAG || !HasBinary(args)) ==> e.opts.flags[k] == s.flags[k]
    ensures e.opts.flags == (if HasBinary(args) then s.flags[BINARY_FLAG := On] else s.flags) - {NSP_KEY}
  {
    var (data, flags) := ScanArgs(args, s.flags);
    var kind := if ReadFlag(flags, BINARY_FLAG) then BINARY_EVENT else EVENT;
    var (nsp, rest) := ResolveNamespace(flags);
    Envelope(UID, Packet(kind, data, nsp), Opts(s.rooms, rest))
  }

  /**
   * `of(nsp)` and the namespace step of `emit` undo each other: the
   * namespace comes back out and the remaining flags are those before `of`,
   * without any earlier namespace entry.
   */
  lemma OfThenResolve(s: State, nsp: string)
    ensures ResolveNamespace(Of(s, nsp).flags) == (Nsp(nsp), s.flags - {NSP_KEY})
  {
    var rest := ResolveNamespace(Of(s, nsp).flags).1;
    var expected := s.flags - {NSP_KEY};
    assert rest.Keys == expected.Keys;
    assert forall k :: k in rest ==> rest[k] == expected[k];
    assert rest == expected;
  }
}
