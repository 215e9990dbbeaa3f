/**
 * A chain of configuration calls made on one builder before `emit`, and what
 * the whole chain does to the state.
 */
module Chain {
  import S = EmitterState

  /** One configuration call: a property read, `in`, `to` or `of`. */
  datatype Call = Flag(name: string) | In(room: string) | To(room: string) | Of(nsp: string)

  function Apply(s: S.State, c: Call): S.State
  {
    match c
    case Flag(name) => S.Get(s, name)
    case In(room) => S.In(s, room)
    case To(room) => S.To(s, room)
    case Of(nsp) => S.Of(s, nsp)
  }

  /** The calls applied left to right, as a method chain evaluates them. */
  function ApplyAll(s: S.State, calls: seq<Call>): S.State
    decreases |calls|
  {
    if |calls| == 0 then s else ApplyAll(Apply(s, calls[0]), calls[1..])
  }

  /** The rooms a chain names through `in` or `to`. */
  function RoomsNamed(calls: seq<Call>): set<string>
    decreases |calls|
  {
    if |calls| == 0 then {}
    else (if calls[0].In? || calls[0].To? then {calls[0].room} else {}) + RoomsNamed(calls[1..])
  }

  /** Every chain keeps the room list duplicate-free and the flag map well formed. */
  lemma {:induction false} ApplyAllValid(s: S.State, calls: seq<Call>)
    requires S.Valid(s)
    ensures S.Valid(ApplyAll(s, calls))
    decreases |calls|
  {
    if |calls| > 0 {
      ApplyAllValid(Apply(s, calls[0]), calls[1..]);
    }
  }

  /**
   * A chain keeps the prefix, keeps the existing rooms in front in their
   * order, and afterwards the room set is exactly the old rooms plus the
   * rooms the chain named.
   */
  lemma {:induction false} ApplyAllRooms(s: S.State, calls: seq<Call>)
    ensures ApplyAll(s, calls).prefix == s.prefix
    ensures |s.rooms| <= |ApplyAll(s, calls).rooms|
    ensures ApplyAll(s, calls).rooms[..|s.rooms|] == s.rooms
    ensures S.Members(ApplyAll(s, calls).rooms) == S.Members(s.rooms) + RoomsNamed(calls)
    decreases |calls|
  {
    if |calls| > 0 {
      var s' := Apply(s, calls[0]);
      ApplyAllRooms(s', calls[1..]);
      var r := ApplyAll(s, calls);
      assert r == ApplyAll(s', calls[1..]);
      assert r.rooms[..|s.rooms|] == r.rooms[..|s'.rooms|][..|s.rooms|];
    }
  }
}
