/** The room service: a registry of rooms, one actor with a bounded command queue per room, and any number
    of service calls in flight. A call is a program counter; between two steps of a call any other
    call or actor may run, so every run of the server is some sequence of these steps.

    The steps are finer than one per `.await`: an actor closes the room, then sends the reply, then
    drops its queue, and other threads may look in between. */
module RoomService {
  import opened Prelude
  import opened RoomAggregate
  import opened RoomActors

  type OpId = ReplyId
  type SinkId = nat
  type Command = RoomCommand<SinkId>

  datatype Guest = Guest(player: PlayerId, nickname: string, sink: SinkId)

  datatype AppError = NotFound | Busy | Validation | Domain(error: DomainError) | JoinUnknown | LeaveIncomplete

  datatype JoinStage = JoinLookup | JoinSend | JoinWait | JoinPublish

  datatype LeaveStage = LeaveLookup | LeaveSend | LeaveWait | LeaveEvict(left: bool) | LeavePublish

  /** A service call, by how far it has got. `Leaving` is one departure, either asked for directly or as part
      of `leave_all` (`all`), which then goes on with the rooms in `rest`. */
  datatype Op =
    | Registering(guest: Guest, room: RoomId)
    | Joining(guest: Guest, room: RoomId, creating: bool, join: JoinStage)
    | Undoing(guest: Guest, room: RoomId, error: AppError)
    | Leaving(player: PlayerId, reason: string, room: RoomId, all: bool, rest: seq<RoomId>, leave: LeaveStage)
    | LeavingAll(player: PlayerId, reason: string)
    | ClosingAll(reason: string)
    | Closing(reason: string, rest: seq<RoomId>)
    | Chatting(player: PlayerId, text: string, room: RoomId, found: bool)
    | JoinDone(joined: Result<RoomId, AppError>)
    | LeaveDone(left: Result<(), AppError>)
    | CloseDone
    | ChatDone(said: Result<(), AppError>)
    | Aborted

  /** Where an actor is: waiting for a command, about to send a reply, about to drop its queue, gone. */
  datatype Phase = Idle | Replying(to: OpId, reply: Reply, stop: bool) | Stopping | Stopped

  datatype Cell = Cell(actor: Actor<SinkId>, queue: seq<Command>, phase: Phase)

  /** `mail` holds replies sent and not yet picked up. */
  datatype System = System(
    capacity: nat, maxPlayers: nat,
    registry: set<RoomId>, cells: map<RoomId, Cell>, ops: map<OpId, Op>, mail: map<OpId, Reply>)

  function Initial(capacity: nat, maxPlayers: nat): System {
    System(capacity, maxPlayers, {}, map[], map[], map[])
  }

  function FreshCell(room: RoomId, maxPlayers: nat): Cell {
    Cell(Spawned(Opened(room, maxPlayers)), [], Idle)
  }

  predicate Finished(op: Op) {
    op.JoinDone? || op.LeaveDone? || op.CloseDone? || op.ChatDone? || op.Aborted?
  }

  /** The call owns a handle, and with it a sender of the room's queue. */
  predicate Holds(op: Op, room: RoomId) {
    match op
    case Registering(_, r) => r == room
    case Joining(_, r, creating, stage) => r == room && (creating || stage != JoinLookup)
    case Undoing(_, r, _) => r == room
    case Leaving(_, _, r, all, rest, stage) => (r == room && (all || stage != LeaveLookup)) || room in rest
    case Closing(_, rest) => room in rest
    case Chatting(_, _, r, found) => r == room && found
    case _ => false
  }

  predicate Senderless(s: System, room: RoomId) {
    room !in s.registry && forall id :: id in s.ops ==> !Holds(s.ops[id], room)
  }

  predicate WantsReply(c: Command) {
    c.Join? || c.Leave?
  }

  predicate Queued(cell: Cell, id: OpId) {
    exists i :: 0 <= i < |cell.queue| && WantsReply(cell.queue[i]) && cell.queue[i].reply == id
  }

  /** The reply's sender still exists: in a queued command, or in the actor's hands. */
  predicate Outstanding(cell: Cell, id: OpId) {
    Queued(cell, id) || (cell.phase.Replying? && cell.phase.to == id)
  }

  function SetOp(s: System, id: OpId, op: Op): System {
    s.(ops := s.ops[id := op])
  }

  function Enqueue(s: System, room: RoomId, c: Command): System
    requires room in s.cells
  {
    s.(cells := s.cells[room := s.cells[room].(queue := s.cells[room].queue + [c])])
  }

  predicate IsClosed(s: System, room: RoomId) {
    room in s.cells && s.cells[room].actor.closed
  }

  /** `handle_for`: a closed room is dropped from the registry on sight. */
  function RegistryAfterLookup(s: System, room: RoomId): set<RoomId> {
    if room in s.registry && IsClosed(s, room) then s.registry - {room} else s.registry
  }

  predicate Found(s: System, room: RoomId) {
    room in s.registry && !IsClosed(s, room)
  }

  function JoinFailed(op: Op, error: AppError): Op
    requires op.Joining?
  {
    if op.creating then Undoing(op.guest, op.room, error) else JoinDone(Err(error))
  }

  function NextLeave(op: Op): Op
    requires op.Leaving?
  {
    if op.all && op.rest != [] then op.(room := op.rest[0], rest := op.rest[1..], leave := LeaveLookup)
    else LeaveDone(Ok(()))
  }

  function AfterLeft(op: Op, left: bool): Op
    requires op.Leaving?
  {
    if left then op.(leave := LeavePublish) else NextLeave(op)
  }

  function AdvanceJoin(s: System, id: OpId, op: Op): Option<System>
    requires op.Joining?
  {
    match op.join
    case JoinLookup =>
      var s1 := s.(registry := RegistryAfterLookup(s, op.room));
      Some(SetOp(s1, id, if Found(s, op.room) then op.(join := JoinSend) else JoinFailed(op, NotFound)))
    case JoinSend =>
      if op.room !in s.cells then None
      else if s.cells[op.room].phase.Stopped? then Some(SetOp(s, id, JoinFailed(op, NotFound)))
      else if |s.cells[op.room].queue| < s.capacity then
        var command := RoomCommand.Join(op.guest.player, op.guest.nickname, op.guest.sink, id);
        Some(SetOp(Enqueue(s, op.room, command), id, op.(join := JoinWait)))
      else None
    case JoinWait =>
      if id in s.mail then
        var s1 := s.(mail := s.mail - {id});
        match s.mail[id]
        case Joined(Ok(_)) => Some(SetOp(s1, id, op.(join := JoinPublish)))
        case Joined(Err(e)) => Some(SetOp(s1, id, JoinFailed(op, Domain(e))))
        case Left(_) => None
      else if op.room !in s.cells || Outstanding(s.cells[op.room], id) then None
      else Some(SetOp(s, id, JoinFailed(op, JoinUnknown)))
    case JoinPublish => Some(SetOp(s, id, JoinDone(Ok(op.room))))
  }

  function AdvanceLeave(s: System, id: OpId, op: Op): Option<System>
    requires op.Leaving?
  {
    match op.leave
    case LeaveLookup =>
      var s1 := s.(registry := RegistryAfterLookup(s, op.room));
      Some(SetOp(s1, id, if Found(s, op.room) then op.(leave := LeaveSend) else NextLeave(op)))
    case LeaveSend =>
      if op.room !in s.cells then None
      else if s.cells[op.room].phase.Stopped? then
        Some(SetOp(s, id, if IsClosed(s, op.room) then op.(leave := LeaveEvict(false)) else LeaveDone(Err(NotFound))))
      else if |s.cells[op.room].queue| < s.capacity then
        Some(SetOp(Enqueue(s, op.room, RoomCommand.Leave(op.player, op.reason, id)), id, op.(leave := LeaveWait)))
      else None
    case LeaveWait =>
      if id in s.mail then
        var s1 := s.(mail := s.mail - {id});
        match s.mail[id]
        case Left(Ok(left)) =>
          Some(SetOp(s1, id, if IsClosed(s, op.room) then op.(leave := LeaveEvict(left)) else AfterLeft(op, left)))
        case Left(Err(e)) => Some(SetOp(s1, id, LeaveDone(Err(Domain(e)))))
        case Joined(_) => None
      else if op.room !in s.cells || Outstanding(s.cells[op.room], id) then None
      else Some(SetOp(s, id, if IsClosed(s, op.room) then op.(leave := LeaveEvict(false)) else LeaveDone(Err(LeaveIncomplete))))
    case LeaveEvict(left) => Some(SetOp(s.(registry := s.registry - {op.room}), id, AfterLeft(op, left)))
    case LeavePublish => Some(SetOp(s, id, NextLeave(op)))
  }

  function AdvanceClosing(s: System, id: OpId, op: Op): Option<System>
    requires op.Closing?
  {
    if op.rest == [] then Some(SetOp(s, id, CloseDone))
    else
      var room, next := op.rest[0], op.(rest := op.rest[1..]);
      if room !in s.cells then None
      else if s.cells[room].phase.Stopped? then Some(SetOp(s, id, next))
      else if |s.cells[room].queue| < s.capacity then Some(SetOp(Enqueue(s, room, RoomCommand.Close(op.reason)), id, next))
      else None
  }

  function AdvanceChat(s: System, id: OpId, op: Op): Option<System>
    requires op.Chatting?
  {
    var trimmed := Trim(op.text);
    if !SayableChat(trimmed) then Some(SetOp(s, id, ChatDone(Err(Validation))))
    else if !op.found then
      var s1 := s.(registry := RegistryAfterLookup(s, op.room));
      Some(SetOp(s1, id, if Found(s, op.room) then op.(found := true) else ChatDone(Err(NotFound))))
    else if op.room !in s.cells then None
    else if s.cells[op.room].phase.Stopped? then Some(SetOp(s, id, ChatDone(Err(NotFound))))
    else if |s.cells[op.room].queue| < s.capacity then
      Some(SetOp(Enqueue(s, op.room, RoomCommand.Chat(op.player, trimmed)), id, ChatDone(Ok(()))))
    else Some(SetOp(s, id, ChatDone(Err(Busy))))
  }

  /** One step of a call, or `None` while it has to wait (or is over). */
  function Advanced(s: System, id: OpId, op: Op): Option<System> {
    match op
    case Registering(guest, room) =>
      Some(SetOp(s.(registry := s.registry + {room}), id, Joining(guest, room, true, JoinLookup)))
    case Joining(_, _, _, _) => AdvanceJoin(s, id, op)
    case Undoing(_, room, error) => Some(SetOp(s.(registry := s.registry - {room}), id, JoinDone(Err(error))))
    case Leaving(_, _, _, _, _, _) => AdvanceLeave(s, id, op)
    case Closing(_, _) => AdvanceClosing(s, id, op)
    case Chatting(_, _, _, _) => AdvanceChat(s, id, op)
    case _ => None
  }

  function AfterHandle(cell: Cell): Cell
    requires cell.queue != []
  {
    var c := cell.queue[0];
    var e := Handle(cell.actor, c);
    Cell(e.next, cell.queue[1..],
         if WantsReply(c) && e.reply.Some? then Replying(c.reply, e.reply.value, e.stop)
         else if e.stop then Stopping else Idle)
  }

  /** One step of a room's actor, or `None` while it has nothing to do. */
  function Worked(s: System, room: RoomId): Option<System>
    requires room in s.cells
  {
    var cell := s.cells[room];
    match cell.phase
    case Idle =>
      if cell.queue != [] then Some(s.(cells := s.cells[room := AfterHandle(cell)]))
      else if Senderless(s, room) then
        Some(s.(cells := s.cells[room := cell.(actor := Finish(cell.actor, CHANNEL_CLOSED).0, phase := Stopping)]))
      else None
    case Replying(to, reply, stop) =>
      Some(s.(cells := s.cells[room := cell.(phase := if stop then Stopping else Idle)], mail := s.mail[to := reply]))
    case Stopping =>
      Some(s.(cells := s.cells[room := Cell(Finish(cell.actor, CHANNEL_CLOSED).0, [], Stopped)]))
    case Stopped => None
  }

  /** What a caller may ask for. A creating call spawns its room at once, under an id never used before. */
  predicate Startable(s: System, op: Op) {
    match op
    case Registering(_, room) => room !in s.cells
    case Joining(_, _, creating, stage) => !creating && stage == JoinLookup
    case Leaving(_, _, _, all, rest, stage) => !all && rest == [] && stage == LeaveLookup
    case LeavingAll(_, _) => true
    case ClosingAll(_) => true
    case Chatting(_, _, _, found) => !found
    case _ => false
  }

  function Begun(s: System, id: OpId, op: Op): System {
    var s1 := SetOp(s, id, op);
    if op.Registering? then s1.(cells := s1.cells[op.room := FreshCell(op.room, s.maxPlayers)]) else s1
  }

  function LiveRooms(s: System): set<RoomId> {
    set r | r in s.registry && !IsClosed(s, r)
  }

  ghost predicate Lists(order: seq<RoomId>, rooms: set<RoomId>) {
    NoDuplicates(order) && forall r :: r in order <==> r in rooms
  }

  /** `Snapshot` reads the whole registry, in whatever order a hash map lists it. */
  datatype Label = Begin(id: OpId, op: Op) | Advance(id: OpId) | Snapshot(id: OpId, order: seq<RoomId>)
                 | Work(room: RoomId) | Abort(id: OpId)

  ghost predicate Next(s: System, l: Label, s': System) {
    match l
    case Begin(id, op) => id !in s.ops && Startable(s, op) && s' == Begun(s, id, op)
    case Advance(id) => id in s.ops && Advanced(s, id, s.ops[id]) == Some(s')
    case Snapshot(id, order) =>
      && id in s.ops
      && ((s.ops[id].LeavingAll? && Lists(order, LiveRooms(s)) && s' == Listed(s, id, order))
          || (s.ops[id].ClosingAll? && Lists(order, s.registry) && s' == Drained(s, id, order)))
    case Work(room) => room in s.cells && Worked(s, room) == Some(s')
    case Abort(id) => id in s.ops && !Finished(s.ops[id]) && s' == SetOp(s, id, Aborted)
  }

  /** `leave_all` after `live_handles`: closed rooms are gone from the registry. */
  function Listed(s: System, id: OpId, order: seq<RoomId>): System
    requires id in s.ops && s.ops[id].LeavingAll?
  {
    var op := s.ops[id];
    SetOp(s.(registry := LiveRooms(s)), id,
          if order == [] then LeaveDone(Ok(()))
          else Leaving(op.player, op.reason, order[0], true, order[1..], LeaveLookup))
  }

  /** `close_all` after draining the registry. */
  function Drained(s: System, id: OpId, order: seq<RoomId>): System
    requires id in s.ops && s.ops[id].ClosingAll?
  {
    SetOp(s.(registry := {}), id, Closing(s.ops[id].reason, order))
  }

  // ---- A step of one call leaves the other calls, their mail and every actor alone ----

  ghost predicate SameActor(cell: Cell, cell': Cell) {
    cell'.actor == cell.actor && cell'.phase == cell.phase
  }

  /** The queue is as before, or one longer; a reply goes to the call itself, and a joining command comes from a joining
      call, for its own guest. */
  ghost predicate GrewBy(queue: seq<Command>, queue': seq<Command>, id: OpId, op: Op) {
    || queue' == queue
    || (|queue'| == |queue| + 1 && queue'[..|queue|] == queue
        && (WantsReply(queue'[|queue|]) ==> queue'[|queue|].reply == id)
        && (queue'[|queue|].Join? ==> op.Joining? && op.guest.player == queue'[|queue|].player))
  }

  ghost predicate LocalStep(s: System, id: OpId, op: Op, s': System) {
    && id in s'.ops && s'.ops == s.ops[id := s'.ops[id]] && !s'.ops[id].Aborted?
    && (s'.mail == s.mail || s'.mail == s.mail - {id})
    && s'.capacity == s.capacity && s'.maxPlayers == s.maxPlayers
    && s'.cells.Keys == s.cells.Keys
    && (forall r :: r in s.cells ==>
          SameActor(s.cells[r], s'.cells[r]) && GrewBy(s.cells[r].queue, s'.cells[r].queue, id, op))
  }

  /** The call changes its own stage, may shrink the registry and may pick up its mail. */
  lemma MoveIsLocal(s: System, id: OpId, op: Op, registry: set<RoomId>, mail: map<OpId, Reply>, next: Op)
    requires mail == s.mail || mail == s.mail - {id}
    requires !next.Aborted?
    ensures LocalStep(s, id, op, SetOp(s.(registry := registry, mail := mail), id, next))
  {
  }

  lemma SendIsLocal(s: System, id: OpId, op: Op, room: RoomId, c: Command, next: Op)
    requires room in s.cells && !next.Aborted?
    requires (WantsReply(c) ==> c.reply == id) && (c.Join? ==> op.Joining? && op.guest.player == c.player)
    ensures LocalStep(s, id, op, SetOp(Enqueue(s, room, c), id, next))
  {
    var queue := s.cells[room].queue;
    assert (queue + [c])[..|queue|] == queue;
  }

  lemma JoinIsLocal(s: System, id: OpId, op: Op, s': System)
    requires op.Joining? && AdvanceJoin(s, id, op) == Some(s')
    ensures LocalStep(s, id, op, s') && s'.registry <= s.registry
  {
    if op.join == JoinSend && !s.cells[op.room].phase.Stopped? {
      SendIsLocal(s, id, op, op.room, RoomCommand.Join(op.guest.player, op.guest.nickname, op.guest.sink, id), s'.ops[id]);
    } else {
      MoveIsLocal(s, id, op, s'.registry, s'.mail, s'.ops[id]);
    }
  }

  /** A departure that sends nothing changes only its stage, its mail and the registry. */
  lemma LeaveMoves(s: System, id: OpId, op: Op, s': System)
    requires op.Leaving? && AdvanceLeave(s, id, op) == Some(s')
    requires op.leave != LeaveSend || s.cells[op.room].phase.Stopped?
    ensures id in s'.ops && s' == SetOp(s.(registry := s'.registry, mail := s'.mail), id, s'.ops[id])
    ensures (s'.mail == s.mail || s'.mail == s.mail - {id}) && s'.registry <= s.registry && !s'.ops[id].Aborted?
  {
  }

  lemma LeaveIsLocal(s: System, id: OpId, op: Op, s': System)
    requires op.Leaving? && AdvanceLeave(s, id, op) == Some(s')
    ensures LocalStep(s, id, op, s') && s'.registry <= s.registry
  {
    if op.leave == LeaveSend && !s.cells[op.room].phase.Stopped? {
      SendIsLocal(s, id, op, op.room, RoomCommand.Leave(op.player, op.reason, id), s'.ops[id]);
    } else {
      LeaveMoves(s, id, op, s');
      MoveIsLocal(s, id, op, s'.registry, s'.mail, s'.ops[id]);
    }
  }

  lemma ClosingIsLocal(s: System, id: OpId, op: Op, s': System)
    requires op.Closing? && AdvanceClosing(s, id, op) == Some(s')
    ensures LocalStep(s, id, op, s') && s'.registry <= s.registry
  {
    if op.rest != [] && !s.cells[op.rest[0]].phase.Stopped? {
      SendIsLocal(s, id, op, op.rest[0], RoomCommand.Close(op.reason), s'.ops[id]);
    } else {
      MoveIsLocal(s, id, op, s'.registry, s'.mail, s'.ops[id]);
    }
  }

  lemma ChatIsLocal(s: System, id: OpId, op: Op, s': System)
    requires op.Chatting? && AdvanceChat(s, id, op) == Some(s')
    ensures LocalStep(s, id, op, s') && s'.registry <= s.registry
  {
    var trimmed := Trim(op.text);
    if SayableChat(trimmed) && op.found && !s.cells[op.room].phase.Stopped? && |s.cells[op.room].queue| < s.capacity {
      SendIsLocal(s, id, op, op.room, RoomCommand.Chat(op.player, trimmed), s'.ops[id]);
    } else {
      MoveIsLocal(s, id, op, s'.registry, s'.mail, s'.ops[id]);
    }
  }

  lemma CallIsLocal(s: System, id: OpId, op: Op, s': System)
    requires Advanced(s, id, op) == Some(s')
    ensures LocalStep(s, id, op, s')
    ensures !op.Registering? ==> s'.registry <= s.registry
  {
    match op {
      case Registering(_, _) => MoveIsLocal(s, id, op, s'.registry, s'.mail, s'.ops[id]);
      case Joining(_, _, _, _) => JoinIsLocal(s, id, op, s');
      case Undoing(_, _, _) => MoveIsLocal(s, id, op, s'.registry, s'.mail, s'.ops[id]);
      case Leaving(_, _, _, _, _, _) => LeaveIsLocal(s, id, op, s');
      case Closing(_, _) => ClosingIsLocal(s, id, op, s');
      case Chatting(_, _, _, _) => ChatIsLocal(s, id, op, s');
      case _ =>
    }
  }
}
