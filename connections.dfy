/** The connection registry: room -> client id -> live connection, and the
    fan-out of broadcasts, recorded in an outbox of deliveries. */
module Connections {
  import opened QuizTypes

  /** What one broadcast of `message` to `roomId` delivers, given the
      registered connections. */
  function Fanout(rooms: map<RoomId, map<PlayerId, Conn>>, roomId: RoomId, message: Message): (d: seq<Delivery>)
    ensures |d| <= 1
    ensures |d| == 1 <==> roomId in rooms
    ensures |d| == 1 ==> d[0].recipients == rooms[roomId] && d[0].message == message && d[0].room == roomId
  {
    if roomId in rooms then [Delivery(roomId, rooms[roomId], message)] else []
  }

  /** The registry after `disconnect(roomId, clientId)`. */
  function Dropped(rooms: map<RoomId, map<PlayerId, Conn>>, roomId: RoomId, clientId: PlayerId): (r: map<RoomId, map<PlayerId, Conn>>)
    ensures forall id :: id != roomId ==> (id in r <==> id in rooms) && (id in r ==> r[id] == rooms[id])
    ensures roomId in r ==> roomId in rooms && r[roomId] == rooms[roomId] - {clientId} && clientId !in r[roomId]
    ensures roomId in rooms && clientId in rooms[roomId] ==> (roomId !in r <==> rooms[roomId].Keys == {clientId})
    ensures !(roomId in rooms && clientId in rooms[roomId]) ==> r == rooms
  {
    if roomId in rooms && clientId in rooms[roomId] then
      if rooms[roomId].Keys == {clientId} then rooms - {roomId}
      else rooms[roomId := rooms[roomId] - {clientId}]
    else rooms
  }

  class ConnectionManager {
    var rooms: map<RoomId, map<PlayerId, Conn>>
    /** Every message sent so far, in order. */
    var outbox: seq<Delivery>

    /** A room entry exists only while it has a connection. */
    ghost predicate Valid()
      reads this
    {
      forall id :: id in rooms ==> rooms[id] != map[]
    }

    constructor ()
      ensures Valid()
      ensures rooms == map[] && outbox == []
    {
      rooms := map[];
      outbox := [];
    }

    /** Registers (or replaces) the connection of `clientId` in `roomId`. */
    method Connect(roomId: RoomId, clientId: PlayerId, conn: Conn)
      requires Valid()
      modifies this
      ensures Valid()
      ensures roomId in rooms && clientId in rooms[roomId] && rooms[roomId][clientId] == conn
      ensures rooms == old(rooms)[roomId := (if roomId in old(rooms) then old(rooms)[roomId] else map[])[clientId := conn]]
      ensures outbox == old(outbox)
    {
      if roomId !in rooms {
        rooms := rooms[roomId := map[]];
      }
      rooms := rooms[roomId := rooms[roomId][clientId := conn]];
      assert clientId in rooms[roomId];
    }

    /** Removes the connection; the room entry goes with its last connection. */
    method Disconnect(roomId: RoomId, clientId: PlayerId)
      requires Valid()
      modifies this
      ensures Valid()
      ensures rooms == Dropped(old(rooms), roomId, clientId)
      ensures roomId in rooms ==> clientId !in rooms[roomId]
      ensures outbox == old(outbox)
    {
      if roomId in rooms && clientId in rooms[roomId] {
        var rest := rooms[roomId] - {clientId};
        if rest == map[] {
          assert rooms[roomId].Keys == {clientId} by {
            assert rest.Keys == {};
          }
          rooms := rooms - {roomId};
        } else {
          assert rooms[roomId].Keys != {clientId} by {
            var c :| c in rest;
          }
          rooms := rooms[roomId := rest];
        }
      }
    }

    /** Sends `message` to every connection of the room, but only while the
        room has game state (`hasState`) and at least one connection. */
    method Broadcast(roomId: RoomId, message: Message, hasState: bool)
      modifies this
      ensures rooms == old(rooms)
      ensures outbox == old(outbox) + (if hasState then Fanout(rooms, roomId, message) else [])
      ensures !hasState ==> outbox == old(outbox)
    {
      if hasState && roomId in rooms {
        outbox := outbox + [Delivery(roomId, rooms[roomId], message)];
      }
    }
  }
}
