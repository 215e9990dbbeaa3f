/**
 * Channel names and the publish trace: one publish per room to
 * `prefix#nsp#room#`, or a single publish to `prefix#nsp#` without rooms.
 */
module Routing {

  /** One call of the pub/sub client's `publish`. */
  datatype Publish = Publish(channel: string, payload: seq<bv8>)

  /** The channel for the whole namespace: `prefix#nsp#`. */
  function BaseChannel(prefix: string, nsp: string): (c: string)
    ensures |c| == |prefix| + |nsp| + 2
    ensures c[..|prefix|] == prefix && c[|prefix|] == '#'
    ensures c[|prefix| + 1..|prefix| + 1 + |nsp|] == nsp && c[|c| - 1] == '#'
  {
    prefix + "#" + nsp + "#"
  }

  /** The channel for one room of a namespace: the base channel, the room, then `#`. */
  function RoomChannel(base: string, room: string): (c: string)
    ensures |c| == |base| + |room| + 1
    ensures c[..|base|] == base && c[|base|..|c| - 1] == room && c[|c| - 1] == '#'
  {
    base + room + "#"
  }

  /** One publish per room, in room order, all with the same payload. */
  function PublishToRooms(base: string, rooms: seq<string>, payload: seq<bv8>): (r: seq<Publish>)
    ensures |r| == |rooms|
    ensures forall j :: 0 <= j < |rooms| ==> r[j] == Publish(RoomChannel(base, rooms[j]), payload)
    decreases |rooms|
  {
    if |rooms| == 0 then []
    else [Publish(RoomChannel(base, rooms[0]), payload)] + PublishToRooms(base, rooms[1..], payload)
  }

  /** The publish trace for a room list: per room, or the base channel alone when there are none. */
  function Route(base: string, rooms: seq<string>, payload: seq<bv8>): (r: seq<Publish>)
    ensures |rooms| > 0 ==> |r| == |rooms|
    ensures |rooms| == 0 ==> r == [Publish(base, payload)]
    ensures |r| > 0
    ensures forall j :: 0 <= j < |r| ==> r[j].payload == payload
    ensures forall j :: 0 <= j < |rooms| ==> r[j].channel == RoomChannel(base, rooms[j])
  {
    if |rooms| > 0 then PublishToRooms(base, rooms, payload) else [Publish(base, payload)]
  }

  /** The room can be read back from its channel name, so distinct rooms get distinct channels. */
  lemma RoomChannelInjective(base: string, r1: string, r2: string)
    requires RoomChannel(base, r1) == RoomChannel(base, r2)
    ensures r1 == r2
  {
  }

  /** With pairwise distinct rooms, every publish goes to a different channel. */
  lemma RouteChannelsDistinct(base: string, rooms: seq<string>, payload: seq<bv8>)
    requires forall i, j :: 0 <= i < j < |rooms| ==> rooms[i] != rooms[j]
    ensures forall i, j :: 0 <= i < j < |Route(base, rooms, payload)| ==>
      Route(base, rooms, payload)[i].channel != Route(base, rooms, payload)[j].channel
  {
  }
}
