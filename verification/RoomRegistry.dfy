/** The registry as the service holds it: a map of handles that lookups prune in place. Its methods are the
    registry steps of the service's calls. */
module RoomRegistry {
  import opened Prelude
  import opened RoomAggregate
  import opened RoomService

  class RoomHandle {
    const id: RoomId
    var closed: bool

    constructor (id: RoomId)
      ensures this.id == id && !closed
    {
      this.id := id;
      closed := false;
    }
  }

  function Ids(handles: seq<RoomHandle>): (ids: seq<RoomId>)
    ensures |ids| == |handles|
  {
    seq(|handles|, i requires 0 <= i < |handles| => handles[i].id)
  }

  class Registry {
    var rooms: map<RoomId, RoomHandle>

    constructor ()
      ensures rooms == map[]
    {
      rooms := map[];
    }

    /** These are the registered rooms of `s`, with its closed flags. */
    ghost predicate Shows(s: System)
      reads this, rooms.Values
    {
      && rooms.Keys == s.registry
      && forall r :: r in rooms ==> rooms[r].id == r && (rooms[r].closed <==> IsClosed(s, r))
    }

    method Insert(handle: RoomHandle, ghost s: System)
      requires Shows(s) && (handle.closed <==> IsClosed(s, handle.id))
      modifies this
      ensures Shows(s.(registry := s.registry + {handle.id})) && rooms == old(rooms)[handle.id := handle]
    {
      rooms := rooms[handle.id := handle];
    }

    method Remove(room: RoomId, ghost s: System)
      requires Shows(s)
      modifies this
      ensures Shows(s.(registry := s.registry - {room})) && rooms == old(rooms) - {room}
    {
      rooms := rooms - {room};
    }

    method HandleFor(room: RoomId, ghost s: System) returns (handle: Option<RoomHandle>)
      requires Shows(s)
      modifies this
      ensures Shows(s.(registry := RegistryAfterLookup(s, room)))
      ensures handle == if Found(s, room) then Some(old(rooms)[room]) else None
      ensures handle.Some? <==> room in old(rooms) && !old(rooms[room].closed)
      ensures rooms == if handle.Some? then old(rooms) else old(rooms) - {room}
    {
      if room !in rooms {
        return None;
      }
      if rooms[room].closed {
        rooms := rooms - {room};
        return None;
      }
      handle := Some(rooms[room]);
    }

    /** The handles in whatever order the map yields them, each once. */
    method Values() returns (handles: seq<RoomHandle>)
      requires forall r :: r in rooms ==> rooms[r].id == r
      ensures Lists(Ids(handles), rooms.Keys)
      ensures forall i :: 0 <= i < |handles| ==> handles[i].id in rooms && handles[i] == rooms[handles[i].id]
    {
      handles := [];
      var left := rooms.Keys;
      while left != {}
        invariant left <= rooms.Keys
        invariant Lists(Ids(handles), rooms.Keys - left)
        invariant forall i :: 0 <= i < |handles| ==> handles[i].id in rooms && handles[i] == rooms[handles[i].id]
        decreases left
      {
        var r :| r in left;
        ListsOneMore(Ids(handles), rooms.Keys - left, r);
        handles := handles + [rooms[r]];
        assert Ids(handles) == Ids(handles[..|handles| - 1]) + [r];
        assert rooms.Keys - (left - {r}) == (rooms.Keys - left) + {r};
        left := left - {r};
      }
      assert rooms.Keys - left == rooms.Keys;
    }

    /** `live_handles`: closed rooms are dropped first. */
    method LiveHandles(ghost s: System) returns (handles: seq<RoomHandle>)
      requires Shows(s)
      modifies this
      ensures Shows(s.(registry := LiveRooms(s)))
      ensures Lists(Ids(handles), LiveRooms(s))
      ensures forall i :: 0 <= i < |handles| ==> !handles[i].closed && handles[i].id in rooms && handles[i] == rooms[handles[i].id]
      ensures forall r :: r in old(rooms) && !old(rooms)[r].closed <==> r in Ids(handles)
      ensures rooms == map r | r in old(rooms) && !old(rooms)[r].closed :: old(rooms)[r]
    {
      rooms := map r | r in rooms && !rooms[r].closed :: rooms[r];
      handles := Values();
    }

    /** `close_all` empties the registry and keeps the handles. */
    method Drain(ghost s: System) returns (handles: seq<RoomHandle>)
      requires Shows(s)
      modifies this
      ensures Shows(s.(registry := {}))
      ensures Lists(Ids(handles), s.registry)
    {
      handles := Values();
      rooms := map[];
    }
  }

  lemma ListsOneMore(order: seq<RoomId>, rooms: set<RoomId>, r: RoomId)
    requires Lists(order, rooms) && r !in rooms
    ensures Lists(order + [r], rooms + {r})
  {
  }
}
