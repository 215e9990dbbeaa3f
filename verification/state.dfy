/**
 * The accumulating state of the emitter builder: the channel prefix chosen at
 * construction, the ordered room list and the flag map, together with the
 * chained configuration calls that update it (flag accessor, in, to, of).
 */
module EmitterState {
  import opened Wrappers

  /** A value held in the flag map: `true` set by the accessor, or a namespace set by `of`. */
  datatype FlagValue = On | Nsp(name: string)

  /** Flag name to value; absence of a key means "not set". */
  type Flags = map<string, FlagValue>

  datatype State = State(prefix: string, rooms: seq<string>, flags: Flags)

  /** The flag-map key under which `of` stores the namespace. */
  const NSP_KEY: string := "nsp"

  /** The flag that selects the binary packet type. */
  const BINARY_FLAG: string := "binary"

  /** Channel prefix used when the options carry no `key`. */
  const DEFAULT_PREFIX: string := "socket.io"

  /**
   * Properties the constructor assigns on the instance. They are public, so
   * reading one of them returns it and does not reach the flag accessor.
   */
  const PUBLIC_PROPERTIES: set<string> := {"redis", "prefix", "_rooms", "_flags"}

  /** A room appears at most once. */
  predicate NoDuplicates(rooms: seq<string>)
  {
    forall i, j :: 0 <= i < j < |rooms| ==> rooms[i] != rooms[j]
  }

  /** The rooms of a room list, as a set. */
  function Members(rooms: seq<string>): set<string>
  {
    set k | k in rooms
  }

  /** Every flag other than the namespace slot holds `true`. */
  predicate FlagsWellFormed(flags: Flags)
  {
    forall k :: k in flags && k != NSP_KEY ==> flags[k] == On
  }

  /** The invariant every reachable builder state satisfies. */
  predicate Valid(s: State)
  {
    NoDuplicates(s.rooms) && FlagsWellFormed(s.flags)
  }

  /** The state right after construction; `key` is the `key` option if it was given. */
  function New(key: Option<string>): (s: State)
    ensures Valid(s)
    ensures s.rooms == [] && s.flags == map[]
    ensures key.Some? ==> s.prefix == key.value
    ensures key.None? ==> s.prefix == DEFAULT_PREFIX
  {
    State(key.GetOr(DEFAULT_PREFIX), [], map[])
  }

  /** PHP truthiness of a flag-map value, as used by the `if` around `readFlag`. */
  predicate Truthy(v: FlagValue)
  {
    match v
    case On => true
    case Nsp(n) => n != "" && n != "0"
  }

  /** Whether flag `name` reads as set; an absent key reads as false. */
  function ReadFlag(flags: Flags, name: string): (b: bool)
    ensures name !in flags ==> !b
    ensures name in flags && flags[name] == On ==> b
    ensures FlagsWellFormed(flags) && name != NSP_KEY ==> (b <==> name in flags)
  {
    if name in flags then Truthy(flags[name]) else false
  }

  /** Marks flag `name` as true; rooms, prefix and every other flag stay as they were. */
  function SetFlag(s: State, name: string): (r: State)
    ensures r.prefix == s.prefix && r.rooms == s.rooms
    ensures name in r.flags && r.flags[name] == On
    ensures ReadFlag(r.flags, name)
    ensures r.flags.Keys == s.flags.Keys + {name}
    ensures forall k :: k in s.flags && k != name ==> r.flags[k] == s.flags[k]
    ensures Valid(s) ==> Valid(r)
  {
    s.(flags := s.flags[name := On])
  }

  /**
   * Reading the property `name` from outside the object. A public property
   * is simply read; any other name goes to the flag accessor.
   */
  function Get(s: State, name: string): (r: State)
    ensures name in PUBLIC_PROPERTIES ==> r == s
    ensures name !in PUBLIC_PROPERTIES ==> r.flags.Keys == s.flags.Keys + {name} && ReadFlag(r.flags, name)
    ensures name !in PUBLIC_PROPERTIES ==> r.flags[name] == On && r == SetFlag(s, name)
    ensures r.prefix == s.prefix && r.rooms == s.rooms
    ensures forall k :: k in s.flags && k != name ==> k in r.flags && r.flags[k] == s.flags[k]
    ensures Valid(s) ==> Valid(r)
  {
    if name in PUBLIC_PROPERTIES then s else SetFlag(s, name)
  }

  /** Adds `room` to the room list unless it is already there. */
  function In(s: State, room: string): (r: State)
    ensures r.prefix == s.prefix && r.flags == s.flags
    ensures room in r.rooms
    ensures Members(r.rooms) == Members(s.rooms) + {room}
    ensures |r.rooms| == if room in s.rooms then |s.rooms| else |s.rooms| + 1
    ensures r.rooms[..|s.rooms|] == s.rooms
    ensures NoDuplicates(s.rooms) ==> NoDuplicates(r.rooms)
  {
    if room in s.rooms then s else s.(rooms := s.rooms + [room])
  }

  /** Alias of `In`. */
  function To(s: State, room: string): (r: State)
    ensures r == In(s, room)
    ensures room in r.rooms && |s.rooms| <= |r.rooms| && r.rooms[..|s.rooms|] == s.rooms
  {
    In(s, room)
  }

  /** Selects the namespace; it shares the flag map under the `nsp` key. */
  function Of(s: State, nsp: string): (r: State)
    ensures r.prefix == s.prefix && r.rooms == s.rooms
    ensures NSP_KEY in r.flags && r.flags[NSP_KEY] == Nsp(nsp)
    ensures r.flags.Keys == s.flags.Keys + {NSP_KEY}
    ensures forall k :: k in s.flags && k != NSP_KEY ==> r.flags[k] == s.flags[k]
    ensures Valid(s) ==> Valid(r)
  {
    s.(flags := s.flags[NSP_KEY := Nsp(nsp)])
  }

  /** Adding a room that was just added changes nothing. */
  lemma InIdempotent(s: State, room: string)
    ensures In(In(s, room), room) == In(s, room)
  {
  }
}
