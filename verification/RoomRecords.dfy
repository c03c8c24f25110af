/** The room a connection has on record, told exactly from the history of what its player asked for and was answered. */
module RoomRecords {
  import opened Prelude
  import opened RoomAggregate
  import opened RoomActors
  import opened RoomService
  import opened RoomServiceInvariant
  import opened RoomServiceOutcomes
  import opened RoomCleanup
  import opened RoomHandlers

  /** The call whose end the player's handler answers in this event, if it answers one. */
  function AnsweredCall(g: Gateway, e: Event, p: PlayerId): Option<Request> {
    if e == Answer(p) && p in g.conns then g.conns[p].busy else None
  }

  /** In this event the player learns that it has joined the room. */
  predicate Joins(g: Gateway, e: Event, p: PlayerId, room: RoomId) {
    && AnsweredCall(g, e, p).Some? && AnsweredCall(g, e, p).value.JoinRequest?
    && var id := AnsweredCall(g, e, p).value.op;
       id in g.sys.ops && g.sys.ops[id] == JoinDone(Ok(room))
  }

  /** In this event the player learns that it has left the room, or all rooms. */
  predicate Leaves(g: Gateway, e: Event, p: PlayerId, room: RoomId) {
    && AnsweredCall(g, e, p).Some? && AnsweredCall(g, e, p).value.LeaveRequest?
    && var r := AnsweredCall(g, e, p).value;
       r.op in g.sys.ops && g.sys.ops[r.op].LeaveDone? && g.sys.ops[r.op].left.Ok? && (r.target.None? || r.target == Some(room))
  }

  /** Since event `i`, in which the player joined the room, it has joined no other, not left this one, and kept its
      connection. */
  ghost predicate JoinedLast(states: seq<Gateway>, events: seq<Event>, i: nat, n: nat, p: PlayerId, room: RoomId)
    requires n <= |events| < |states|
  {
    && i < n && Joins(states[i], events[i], p, room)
    && forall k :: i < k < n ==>
         events[k] != Drop(p) && !Leaves(states[k], events[k], p, room) && forall x :: !Joins(states[k], events[k], p, x)
  }

  ghost predicate Recorded(states: seq<Gateway>, events: seq<Event>, n: nat, p: PlayerId, room: RoomId)
    requires n <= |events| < |states|
  {
    exists i :: JoinedLast(states, events, i, n, p, room)
  }

  /** One event: what was recorded stays so, unless the event says otherwise; what the event records is recorded. */
  lemma RecordedNext(states: seq<Gateway>, events: seq<Event>, n: nat, p: PlayerId, room: RoomId)
    requires n < |events| < |states|
    ensures Recorded(states, events, n + 1, p, room) <==>
      || Joins(states[n], events[n], p, room)
      || (Recorded(states, events, n, p, room) && events[n] != Drop(p) && !Leaves(states[n], events[n], p, room)
          && forall x :: !Joins(states[n], events[n], p, x))
  {
    if Joins(states[n], events[n], p, room) {
      assert JoinedLast(states, events, n, n + 1, p, room);
    } else if Recorded(states, events, n + 1, p, room) {
      var i :| JoinedLast(states, events, i, n + 1, p, room);
      assert JoinedLast(states, events, i, n, p, room);
    } else if Recorded(states, events, n, p, room) && events[n] != Drop(p) && !Leaves(states[n], events[n], p, room)
              && forall x :: !Joins(states[n], events[n], p, x) {
      var i :| JoinedLast(states, events, i, n, p, room);
      assert JoinedLast(states, events, i, n + 1, p, room);
    }
  }

  /** The player is connected and its connection has this room on record. */
  predicate OnRecord(g: Gateway, p: PlayerId, room: RoomId) {
    p in g.conns && g.conns[p].current == Some(room)
  }

  /** What one event does to the record. */
  lemma RecordNext(g: Gateway, e: Event, g': Gateway, p: PlayerId, room: RoomId)
    requires Happens(g, e, g')
    ensures OnRecord(g', p, room) <==>
      || Joins(g, e, p, room)
      || (OnRecord(g, p, room) && e != Drop(p) && !Leaves(g, e, p, room) && forall x :: !Joins(g, e, p, x))
  {
    if e == Answer(p) && g.conns[p].busy.value.JoinRequest? {
      var op := g.sys.ops[g.conns[p].busy.value.op];
      if op.JoinDone? && op.joined.Ok? {
        assert Joins(g, e, p, op.joined.value);
      }
    }
  }

  lemma RecordAt(states: seq<Gateway>, events: seq<Event>, n: nat, p: PlayerId, room: RoomId)
    requires IsHistory(states, events) && n < |events|
    ensures OnRecord(states[n + 1], p, room) <==>
      || Joins(states[n], events[n], p, room)
      || (OnRecord(states[n], p, room) && events[n] != Drop(p) && !Leaves(states[n], events[n], p, room)
          && forall x :: !Joins(states[n], events[n], p, x))
  {
    RecordNext(states[n], events[n], states[n + 1], p, room);
  }

  /** In every history, at every point: a player is connected with this room on record if and only if that is the room of
      its last successful join, since which its connection was not dropped and no successful leave of that room, or of all
      rooms, was answered. */
  lemma {:induction false} RecordIsExact(states: seq<Gateway>, events: seq<Event>, n: nat, p: PlayerId, room: RoomId)
    requires IsHistory(states, events) && n < |states|
    ensures OnRecord(states[n], p, room) <==> Recorded(states, events, n, p, room)
  {
    if n > 0 {
      RecordIsExact(states, events, n - 1, p, room);
      RecordedNext(states, events, n - 1, p, room);
      RecordAt(states, events, n - 1, p, room);
    } else {
      assert !OnRecord(states[0], p, room);
    }
  }

  /** In every history: once a leave of the recorded room is answered with success, the connection has no room on record, so
      the next join or creation the player asks for begins a call. */
  lemma FreeAfterLeaving(states: seq<Gateway>, events: seq<Event>, n: nat, p: PlayerId, room: RoomId)
    requires IsHistory(states, events) && n < |events| && p in states[n].conns && states[n].conns[p].current == Some(room)
    requires Leaves(states[n], events[n], p, room)
    ensures p in states[n + 1].conns && states[n + 1].conns[p] == Conn(None, None)
    ensures n + 1 < |events| && events[n + 1].AskJoin? && events[n + 1].guest.player == p ==>
      var e := events[n + 1];
      StepOf(states[n + 1], e) == Some(Begin(e.op, JoinCall(e.guest, e.target, e.newRoom)))
      && Next(states[n + 1].sys, StepOf(states[n + 1], e).value, states[n + 2].sys)
  {
    assert Happens(states[n], events[n], states[n + 1]);
    if n + 1 < |events| {
      EventSteps(states[n + 1], events[n + 1], states[n + 2]);
    }
  }

  // ---- The room that was asked for ----

  lemma EventKeepsRoom(g: Gateway, e: Event, g': Gateway, id: OpId, room: RoomId)
    requires Happens(g, e, g') && id in g.sys.ops && JoinsRoom(g.sys.ops[id], room)
    ensures id in g'.sys.ops && JoinsRoom(g'.sys.ops[id], room)
  {
    EventSteps(g, e, g');
    if StepOf(g, e).Some? {
      StepKeepsRoom(g.sys, StepOf(g, e).value, g'.sys, id, room);
    }
  }

  lemma {:induction false} AskedRoomStays(states: seq<Gateway>, events: seq<Event>, i: nat, n: nat, id: OpId, room: RoomId)
    requires IsHistory(states, events) && i <= n < |states| && id in states[i].sys.ops && JoinsRoom(states[i].sys.ops[id], room)
    ensures id in states[n].sys.ops && JoinsRoom(states[n].sys.ops[id], room)
    decreases n
  {
    if i < n {
      AskedRoomStays(states, events, i, n - 1, id, room);
      EventKeepsRoom(states[n - 1], events[n - 1], states[n], id, room);
    }
  }

  /** In every history: a player that asked for a room and is told it has joined has that very room on record; one that
      asked for none has the room that was created for it. */
  lemma JoinedWhatWasAsked(states: seq<Gateway>, events: seq<Event>, i: nat, n: nat, p: PlayerId, room: RoomId)
    requires IsHistory(states, events) && i < n < |events|
    requires events[i].AskJoin? && events[i].guest.player == p && states[i].conns[p].current.None?
    requires AnsweredCall(states[n], events[n], p) == Some(JoinRequest(events[i].op)) && Joins(states[n], events[n], p, room)
    ensures room == if events[i].target.Some? then events[i].target.value else events[i].newRoom
    ensures p in states[n + 1].conns && states[n + 1].conns[p].current == Some(room)
  {
    var asked := if events[i].target.Some? then events[i].target.value else events[i].newRoom;
    assert Happens(states[i], events[i], states[i + 1]);
    assert JoinsRoom(states[i + 1].sys.ops[events[i].op], asked);
    AskedRoomStays(states, events, i + 1, n, events[i].op, asked);
    assert Happens(states[n], events[n], states[n + 1]);
  }
}
