/** What every step of every run keeps, aborted calls included. */
module RoomServiceInvariant {
  import opened Prelude
  import opened RoomAggregate
  import opened RoomActors
  import opened RoomService

  /** The call that is still there to receive the command's reply. */
  predicate Awaits(op: Op, room: RoomId, c: Command) {
    match c
    case Join(player, nickname, sink, _) =>
      op.Joining? && op.join == JoinWait && op.room == room && op.guest == Guest(player, nickname, sink)
    case Leave(player, _, _) => op.Leaving? && op.leave == LeaveWait && op.room == room && op.player == player
    case _ => false
  }

  ghost predicate CommandOk(s: System, room: RoomId, c: Command) {
    && (WantsReply(c) ==> c.reply in s.ops
                          && (s.ops[c.reply].Aborted? || (c.reply !in s.mail && Awaits(s.ops[c.reply], room, c))))
    && (c.Close? ==> room !in s.registry)
  }

  ghost predicate DistinctReplies(queue: seq<Command>) {
    forall i, j :: 0 <= i < j < |queue| && WantsReply(queue[i]) && WantsReply(queue[j]) ==> queue[i].reply != queue[j].reply
  }

  /** The reply in the actor's hands fits the call that waits for it: a departure has succeeded, and its
      player is out; a refused joiner is out as well. */
  ghost predicate ReplyOk(s: System, room: RoomId, cell: Cell) {
    cell.phase.Replying? ==>
      var to, reply := cell.phase.to, cell.phase.reply;
      && to in s.ops && (s.ops[to].Aborted? || to !in s.mail) && !Queued(cell, to)
      && match reply {
           case Left(outcome) =>
             && outcome.Ok?
             && (s.ops[to].Aborted? ||
                 (s.ops[to].Leaving? && s.ops[to].leave == LeaveWait && s.ops[to].room == room
                  && s.ops[to].player !in cell.actor.members))
           case Joined(outcome) =>
             && cell.actor.hadMembers
             && (s.ops[to].Aborted? ||
                 (s.ops[to].Joining? && s.ops[to].join == JoinWait && s.ops[to].room == room
                  && (outcome.Err? ==> s.ops[to].guest.player !in cell.actor.members)))
         }
  }

  ghost predicate PhaseOk(cell: Cell) {
    match cell.phase
    case Idle => !cell.actor.closed
    case Replying(_, _, stop) => stop == cell.actor.closed
    case Stopping => cell.actor.closed
    case Stopped => cell.actor.closed && cell.queue == []
  }

  ghost predicate CellOk(s: System, room: RoomId, cell: Cell) {
    && ValidActor(cell.actor) && cell.actor.room.id == room
    && PhaseOk(cell)
    && |cell.queue| <= s.capacity
    && DistinctReplies(cell.queue)
    && (forall i :: 0 <= i < |cell.queue| ==> CommandOk(s, room, cell.queue[i]))
    && ReplyOk(s, room, cell)
  }

  /** A waiting call has its reply in the mail, or its sender still exists, or the actor is gone. */
  ghost predicate WaitOk(s: System, id: OpId, room: RoomId) {
    && room in s.cells
    && (id in s.mail || Outstanding(s.cells[room], id) || s.cells[room].phase.Stopped?)
  }

  /** A spawned room that is not yet registered is untouched and known to its creator only. */
  ghost predicate UntouchedBut(s: System, id: OpId, room: RoomId) {
    && room in s.cells && s.cells[room] == FreshCell(room, s.maxPlayers)
    && room !in s.registry
    && forall other :: other in s.ops && other != id ==> !Holds(s.ops[other], room)
  }

  ghost predicate OpOk(s: System, id: OpId, op: Op) {
    && (forall r :: Holds(op, r) ==> r in s.cells)
    && (id in s.mail ==> op.Aborted? || (op.Joining? && op.join == JoinWait) || (op.Leaving? && op.leave == LeaveWait))
    && match op {
         case Registering(_, room) => UntouchedBut(s, id, room)
         case Joining(_, room, _, JoinWait) =>
           WaitOk(s, id, room) && (id in s.mail ==> s.mail[id].Joined? && s.cells[room].actor.hadMembers)
         case Leaving(_, _, room, _, _, LeaveWait) =>
           WaitOk(s, id, room) && (id in s.mail ==> s.mail[id].Left? && s.mail[id].left.Ok?)
         case Closing(_, rest) => forall r :: r in rest ==> r !in s.registry
         case LeaveDone(outcome) => outcome.Ok?
         case _ => true
       }
  }

  ghost predicate Inv(s: System) {
    && s.registry <= s.cells.Keys
    && (forall r :: r in s.cells ==> CellOk(s, r, s.cells[r]))
    && (forall id :: id in s.ops ==> OpOk(s, id, s.ops[id]))
    && s.mail.Keys <= s.ops.Keys
  }

  // ---- A call moves on and touches no queue ----

  /** No queued command and no actor refers to the call. */
  ghost predicate Unreferenced(s: System, id: OpId) {
    forall r :: r in s.cells ==> !Outstanding(s.cells[r], id)
  }

  lemma NotWaitingIsUnreferenced(s: System, id: OpId)
    requires Inv(s) && id in s.ops && !s.ops[id].Aborted?
    requires id in s.mail || !((s.ops[id].Joining? && s.ops[id].join == JoinWait) || (s.ops[id].Leaving? && s.ops[id].leave == LeaveWait))
    ensures Unreferenced(s, id)
  {
    forall r | r in s.cells
      ensures !Outstanding(s.cells[r], id)
    {
      assert CellOk(s, r, s.cells[r]);
    }
  }

  lemma LostIsUnreferenced(s: System, id: OpId, room: RoomId)
    requires Inv(s) && id in s.ops && !s.ops[id].Aborted?
    requires s.ops[id].Joining? || s.ops[id].Leaving?
    requires room == s.ops[id].room && room in s.cells && !Outstanding(s.cells[room], id)
    ensures Unreferenced(s, id)
  {
    forall r | r in s.cells
      ensures !Outstanding(s.cells[r], id)
    {
      assert CellOk(s, r, s.cells[r]);
    }
  }

  /** Same rooms, fewer registered; one unreferenced call has moved to `op` and taken its mail. */
  ghost predicate Moved(s: System, id: OpId, op: Op, s': System) {
    && id in s.ops
    && s' == s.(registry := s'.registry, ops := s.ops[id := op], mail := s'.mail)
    && s'.registry <= s.registry
    && (s'.mail == s.mail || s'.mail == s.mail - {id})
  }

  lemma MovedCell(s: System, id: OpId, op: Op, s': System, r: RoomId)
    requires Inv(s) && Moved(s, id, op, s') && Unreferenced(s, id) && r in s.cells
    ensures CellOk(s', r, s'.cells[r])
  {
    var cell := s.cells[r];
    assert CellOk(s, r, cell) && !Outstanding(cell, id);
    forall i | 0 <= i < |cell.queue|
      ensures CommandOk(s', r, cell.queue[i])
    {
      assert CommandOk(s, r, cell.queue[i]);
    }
  }

  lemma MovedOther(s: System, id: OpId, op: Op, s': System, other: OpId)
    requires Inv(s) && Moved(s, id, op, s')
    requires forall r :: Holds(op, r) ==> Holds(s.ops[id], r) || r in s.registry
    requires other in s.ops && other != id
    ensures OpOk(s', other, s'.ops[other])
  {
    assert OpOk(s, other, s.ops[other]);
    var o := s.ops[other];
    if o.Registering? {
      assert UntouchedBut(s, other, o.room);
      assert UntouchedBut(s', other, o.room);
    }
  }

  lemma MovedOk(s: System, id: OpId, op: Op, s': System)
    requires Inv(s) && Moved(s, id, op, s') && Unreferenced(s, id)
    requires forall r :: Holds(op, r) ==> Holds(s.ops[id], r) || r in s.registry
    requires OpOk(s', id, op)
    ensures Inv(s')
  {
    forall r | r in s'.cells ensures CellOk(s', r, s'.cells[r]) {
      MovedCell(s, id, op, s', r);
    }
    forall other | other in s'.ops ensures OpOk(s', other, s'.ops[other]) {
      if other != id {
        MovedOther(s, id, op, s', other);
      }
    }
  }

  // ---- A call puts a command in a queue ----

  /** The call's next stage once `c` has been queued: it waits for the reply, if `c` asks for one. */
  ghost predicate SentAs(s: System, id: OpId, room: RoomId, c: Command, op: Op) {
    && id in s.ops && room in s.cells && Holds(s.ops[id], room)
    && !s.cells[room].phase.Stopped?
    && |s.cells[room].queue| < s.capacity
    && id !in s.mail
    && (forall r :: Holds(op, r) ==> Holds(s.ops[id], r))
    && (WantsReply(c) ==> c.reply == id && Awaits(op, room, c))
    && (!WantsReply(c) ==> op.ChatDone? || op.Closing?)
    && (op.Closing? ==> s.ops[id].Closing? && forall r :: r in op.rest ==> r in s.ops[id].rest)
    && (c.Close? ==> s.ops[id].Closing?)
  }

  lemma SentCell(s: System, id: OpId, room: RoomId, c: Command, op: Op, r: RoomId)
    requires Inv(s) && SentAs(s, id, room, c, op) && Unreferenced(s, id) && r in s.cells
    ensures CellOk(SetOp(Enqueue(s, room, c), id, op), r, Enqueue(s, room, c).cells[r])
  {
    var mid := SetOp(s, id, op);
    MovedCell(s, id, op, mid, r);
    if r == room {
      assert OpOk(s, id, s.ops[id]);
      assert !Outstanding(s.cells[r], id);
      LongerCell(mid, r, s.cells[r], c);
    }
    var s' := SetOp(Enqueue(s, room, c), id, op);
    SameCell(mid, s', r, s'.cells[r]);
  }

  lemma LongerCell(s: System, room: RoomId, cell: Cell, c: Command)
    requires CellOk(s, room, cell) && CommandOk(s, room, c)
    requires |cell.queue| < s.capacity && !cell.phase.Stopped?
    requires WantsReply(c) ==> !Outstanding(cell, c.reply)
    ensures CellOk(s, room, cell.(queue := cell.queue + [c]))
  {
    var longer := cell.(queue := cell.queue + [c]);
    forall i | 0 <= i < |longer.queue|
      ensures CommandOk(s, room, longer.queue[i])
    {
      assert i < |cell.queue| ==> longer.queue[i] == cell.queue[i] && CommandOk(s, room, cell.queue[i]);
    }
  }

  /** A cell is judged by the calls, the mail and the registry only. */
  lemma SameCell(s: System, s': System, room: RoomId, cell: Cell)
    requires CellOk(s, room, cell)
    requires s'.ops == s.ops && s'.mail == s.mail && s'.capacity == s.capacity
    requires room in s'.registry ==> room in s.registry
    ensures CellOk(s', room, cell)
  {
    forall i | 0 <= i < |cell.queue|
      ensures CommandOk(s', room, cell.queue[i])
    {
      assert CommandOk(s, room, cell.queue[i]);
    }
  }

  lemma SentOther(s: System, id: OpId, room: RoomId, c: Command, op: Op, other: OpId)
    requires Inv(s) && SentAs(s, id, room, c, op) && other in s.ops && other != id
    ensures OpOk(SetOp(Enqueue(s, room, c), id, op), other, s.ops[other])
  {
    var s' := SetOp(Enqueue(s, room, c), id, op);
    assert OpOk(s, other, s.ops[other]);
    var o := s.ops[other];
    if o.Registering? {
      assert UntouchedBut(s', other, o.room);
    }
    OutstandingStays(s.cells[room], c, other);
  }

  lemma OutstandingStays(cell: Cell, c: Command, id: OpId)
    ensures Outstanding(cell, id) ==> Outstanding(cell.(queue := cell.queue + [c]), id)
    ensures WantsReply(c) && c.reply == id ==> Outstanding(cell.(queue := cell.queue + [c]), id)
  {
    var q := cell.queue + [c];
    assert q[|cell.queue|] == c;
    if Queued(cell, id) {
      var i :| 0 <= i < |cell.queue| && WantsReply(cell.queue[i]) && cell.queue[i].reply == id;
      assert q[i] == cell.queue[i];
    }
  }

  lemma SentOk(s: System, id: OpId, room: RoomId, c: Command, op: Op)
    requires Inv(s) && SentAs(s, id, room, c, op) && Unreferenced(s, id)
    ensures Inv(SetOp(Enqueue(s, room, c), id, op))
  {
    var s' := SetOp(Enqueue(s, room, c), id, op);
    forall r | r in s'.cells ensures CellOk(s', r, s'.cells[r]) {
      SentCell(s, id, room, c, op, r);
    }
    OutstandingStays(s.cells[room], c, id);
    assert OpOk(s, id, s.ops[id]);
    assert OpOk(s', id, op);
    forall other | other in s'.ops ensures OpOk(s', other, s'.ops[other]) {
      if other != id {
        SentOther(s, id, room, c, op, other);
      }
    }
  }

  // ---- Calls, one kind at a time ----

  lemma JoinSendOk(s: System, id: OpId, s': System)
    requires Inv(s) && id in s.ops && s.ops[id].Joining? && s.ops[id].join == JoinSend
    requires AdvanceJoin(s, id, s.ops[id]) == Some(s')
    ensures Inv(s')
  {
    var op := s.ops[id];
    assert OpOk(s, id, op);
    NotWaitingIsUnreferenced(s, id);
    if s.cells[op.room].phase.Stopped? {
      MovedOk(s, id, s'.ops[id], s');
    } else {
      SentOk(s, id, op.room, RoomCommand.Join(op.guest.player, op.guest.nickname, op.guest.sink, id), op.(join := JoinWait));
    }
  }

  lemma JoinWaitOk(s: System, id: OpId, s': System)
    requires Inv(s) && id in s.ops && s.ops[id].Joining? && s.ops[id].join == JoinWait
    requires AdvanceJoin(s, id, s.ops[id]) == Some(s')
    ensures Inv(s')
  {
    var op := s.ops[id];
    assert OpOk(s, id, op);
    if id in s.mail {
      NotWaitingIsUnreferenced(s, id);
    } else {
      LostIsUnreferenced(s, id, op.room);
    }
    MovedOk(s, id, s'.ops[id], s');
  }

  lemma JoinStepOk(s: System, id: OpId, s': System)
    requires Inv(s) && id in s.ops && s.ops[id].Joining?
    requires AdvanceJoin(s, id, s.ops[id]) == Some(s')
    ensures Inv(s')
  {
    var op := s.ops[id];
    assert OpOk(s, id, op);
    match op.join {
      case JoinLookup =>
        NotWaitingIsUnreferenced(s, id);
        MovedOk(s, id, s'.ops[id], s');
      case JoinSend => JoinSendOk(s, id, s');
      case JoinWait => JoinWaitOk(s, id, s');
      case JoinPublish =>
        NotWaitingIsUnreferenced(s, id);
        MovedOk(s, id, s'.ops[id], s');
    }
  }

  lemma LeaveSendOk(s: System, id: OpId, s': System)
    requires Inv(s) && id in s.ops && s.ops[id].Leaving? && s.ops[id].leave == LeaveSend
    requires AdvanceLeave(s, id, s.ops[id]) == Some(s')
    ensures Inv(s')
  {
    var op := s.ops[id];
    assert OpOk(s, id, op) && CellOk(s, op.room, s.cells[op.room]);
    NotWaitingIsUnreferenced(s, id);
    if s.cells[op.room].phase.Stopped? {
      MovedOk(s, id, s'.ops[id], s');
    } else {
      SentOk(s, id, op.room, RoomCommand.Leave(op.player, op.reason, id), op.(leave := LeaveWait));
    }
  }

  /** A departing call that no command refers to goes on to any stage other than waiting. */
  lemma LeaveGoesOn(s: System, id: OpId, next: Op, s': System)
    requires Inv(s) && Moved(s, id, next, s') && Unreferenced(s, id) && s.ops[id].Leaving? && id !in s'.mail
    requires next == NextLeave(s.ops[id]) || (next.Leaving? && next == s.ops[id].(leave := next.leave) && next.leave != LeaveWait)
    requires forall r :: Holds(next, r) ==> Holds(s.ops[id], r) || r in s.registry
    ensures Inv(s')
  {
    assert OpOk(s, id, s.ops[id]);
    MovedOk(s, id, next, s');
  }

  /** A reply that will never come means that the actor is gone, so the room is closed. */
  lemma LeaveLostOk(s: System, id: OpId, s': System)
    requires Inv(s) && id in s.ops && s.ops[id].Leaving? && s.ops[id].leave == LeaveWait && id !in s.mail
    requires AdvanceLeave(s, id, s.ops[id]) == Some(s')
    ensures Inv(s')
  {
    var op := s.ops[id];
    assert OpOk(s, id, op) && CellOk(s, op.room, s.cells[op.room]);
    LostIsUnreferenced(s, id, op.room);
    LeaveGoesOn(s, id, op.(leave := LeaveEvict(false)), s');
  }

  /** A reply has arrived; it is a success. */
  lemma AnswerMoves(s: System, id: OpId, s': System)
    requires Inv(s) && id in s.ops && s.ops[id].Leaving? && s.ops[id].leave == LeaveWait && id in s.mail
    requires AdvanceLeave(s, id, s.ops[id]) == Some(s')
    ensures id in s'.ops && Moved(s, id, s'.ops[id], s') && id !in s'.mail
    ensures var op, next := s.ops[id], s'.ops[id];
            next == NextLeave(op) || (next.Leaving? && next == op.(leave := next.leave) && next.leave != LeaveWait)
  {
    assert OpOk(s, id, s.ops[id]);
  }

  lemma GoingOnHoldsNoMore(op: Op, next: Op)
    requires op.Leaving? && op.leave == LeaveWait
    requires next == NextLeave(op) || (next.Leaving? && next == op.(leave := next.leave))
    ensures forall r :: Holds(next, r) ==> Holds(op, r)
  {
  }

  lemma LeaveAnsweredOk(s: System, id: OpId, s': System)
    requires Inv(s) && id in s.ops && s.ops[id].Leaving? && s.ops[id].leave == LeaveWait && id in s.mail
    requires AdvanceLeave(s, id, s.ops[id]) == Some(s')
    ensures Inv(s')
  {
    AnswerMoves(s, id, s');
    GoingOnHoldsNoMore(s.ops[id], s'.ops[id]);
    NotWaitingIsUnreferenced(s, id);
    LeaveGoesOn(s, id, s'.ops[id], s');
  }

  lemma LeaveWaitOk(s: System, id: OpId, s': System)
    requires Inv(s) && id in s.ops && s.ops[id].Leaving? && s.ops[id].leave == LeaveWait
    requires AdvanceLeave(s, id, s.ops[id]) == Some(s')
    ensures Inv(s')
  {
    if id in s.mail {
      LeaveAnsweredOk(s, id, s');
    } else {
      LeaveLostOk(s, id, s');
    }
  }

  /** A departure whose send is refused or whose reply is dropped finds the room closed, and goes on to evict it
      instead of reporting an error. */
  lemma LostDepartureFindsClosed(s: System, id: OpId, s': System)
    requires Inv(s) && id in s.ops && s.ops[id].Leaving?
    requires AdvanceLeave(s, id, s.ops[id]) == Some(s')
    requires (s.ops[id].leave == LeaveSend && s.cells[s.ops[id].room].phase.Stopped?)
          || (s.ops[id].leave == LeaveWait && id !in s.mail)
    ensures IsClosed(s, s.ops[id].room) && s'.ops[id] == s.ops[id].(leave := LeaveEvict(false))
  {
    var op := s.ops[id];
    assert OpOk(s, id, op) && CellOk(s, op.room, s.cells[op.room]);
  }

  lemma LeaveStepOk(s: System, id: OpId, s': System)
    requires Inv(s) && id in s.ops && s.ops[id].Leaving?
    requires AdvanceLeave(s, id, s.ops[id]) == Some(s')
    ensures Inv(s')
  {
    var op := s.ops[id];
    if op.leave == LeaveSend {
      LeaveSendOk(s, id, s');
    } else if op.leave == LeaveWait {
      LeaveWaitOk(s, id, s');
    } else {
      assert OpOk(s, id, op);
      NotWaitingIsUnreferenced(s, id);
      LeaveGoesOn(s, id, s'.ops[id], s');
    }
  }

  lemma ClosingStepOk(s: System, id: OpId, s': System)
    requires Inv(s) && id in s.ops && s.ops[id].Closing?
    requires AdvanceClosing(s, id, s.ops[id]) == Some(s')
    ensures Inv(s')
  {
    var op := s.ops[id];
    assert OpOk(s, id, op);
    NotWaitingIsUnreferenced(s, id);
    if op.rest == [] || s.cells[op.rest[0]].phase.Stopped? {
      MovedOk(s, id, s'.ops[id], s');
    } else {
      SentOk(s, id, op.rest[0], RoomCommand.Close(op.reason), Closing(op.reason, op.rest[1..]));
    }
  }

  lemma ChatMovedOk(s: System, id: OpId, next: Op, s': System)
    requires Inv(s) && Moved(s, id, next, s') && Unreferenced(s, id) && s.ops[id].Chatting? && id !in s.mail
    requires next.ChatDone? || (next == s.ops[id].(found := true) && next.room in s.registry)
    ensures Inv(s')
  {
    assert OpOk(s, id, s.ops[id]);
    MovedOk(s, id, next, s');
  }

  lemma ChatStepOk(s: System, id: OpId, s': System)
    requires Inv(s) && id in s.ops && s.ops[id].Chatting?
    requires AdvanceChat(s, id, s.ops[id]) == Some(s')
    ensures Inv(s')
  {
    var op := s.ops[id];
    assert OpOk(s, id, op);
    NotWaitingIsUnreferenced(s, id);
    if op.found && SayableChat(Trim(op.text)) && !s.cells[op.room].phase.Stopped? && |s.cells[op.room].queue| < s.capacity {
      ChatSentOk(s, id, Trim(op.text));
    } else {
      ChatMovedOk(s, id, s'.ops[id], s');
    }
  }

  lemma ChatSentOk(s: System, id: OpId, text: string)
    requires Inv(s) && Unreferenced(s, id) && id in s.ops && s.ops[id].Chatting? && s.ops[id].found && id !in s.mail
    requires s.ops[id].room in s.cells && !s.cells[s.ops[id].room].phase.Stopped?
    requires |s.cells[s.ops[id].room].queue| < s.capacity
    ensures Inv(SetOp(Enqueue(s, s.ops[id].room, RoomCommand.Chat(s.ops[id].player, text)), id, ChatDone(Ok(()))))
  {
    SentOk(s, id, s.ops[id].room, RoomCommand.Chat(s.ops[id].player, text), ChatDone(Ok(())));
  }

  lemma RegisterOther(s: System, id: OpId, room: RoomId, s': System, other: OpId)
    requires Inv(s) && id in s.ops && room in s.cells
    requires s' == s.(registry := s.registry + {room})
    requires other in s.ops
    requires Holds(s.ops[other], room) ==> s.ops[other].Joining?
    ensures OpOk(s', other, s.ops[other])
  {
    assert OpOk(s, other, s.ops[other]);
    var o := s.ops[other];
    if o.Registering? {
      assert UntouchedBut(s, other, o.room);
      assert UntouchedBut(s', other, o.room);
    }
  }

  /** A fresh room, known only to the call that creates it, is put in the registry. */
  lemma ListedOk(s: System, id: OpId, room: RoomId)
    requires Inv(s) && id in s.ops && s.ops[id].Joining? && s.ops[id].room == room
    requires room in s.cells && s.cells[room].queue == []
    requires forall other :: other in s.ops && other != id ==> !Holds(s.ops[other], room)
    ensures Inv(s.(registry := s.registry + {room}))
  {
    var s' := s.(registry := s.registry + {room});
    forall r | r in s'.cells ensures CellOk(s', r, s'.cells[r]) {
      assert CellOk(s, r, s.cells[r]);
      if r != room {
        SameCell(s, s', r, s.cells[r]);
      }
    }
    forall other | other in s'.ops ensures OpOk(s', other, s'.ops[other]) {
      RegisterOther(s, id, room, s', other);
    }
  }

  lemma RegisterOk(s: System, id: OpId, s': System)
    requires Inv(s) && id in s.ops && s.ops[id].Registering?
    requires Advanced(s, id, s.ops[id]) == Some(s')
    ensures Inv(s')
  {
    var op := s.ops[id];
    assert OpOk(s, id, op);
    NotWaitingIsUnreferenced(s, id);
    assert UntouchedBut(s, id, op.room);
    var mid := SetOp(s, id, s'.ops[id]);
    MovedOk(s, id, s'.ops[id], mid);
    ListedOk(mid, id, op.room);
  }

  lemma AdvanceOk(s: System, id: OpId, s': System)
    requires Inv(s) && id in s.ops && Advanced(s, id, s.ops[id]) == Some(s')
    ensures Inv(s')
  {
    var op := s.ops[id];
    match op {
      case Registering(_, _) => RegisterOk(s, id, s');
      case Joining(_, _, _, _) => JoinStepOk(s, id, s');
      case Undoing(_, _, _) =>
        NotWaitingIsUnreferenced(s, id);
        assert OpOk(s, id, op);
        MovedOk(s, id, s'.ops[id], s');
      case Leaving(_, _, _, _, _, _) => LeaveStepOk(s, id, s');
      case Closing(_, _) => ClosingStepOk(s, id, s');
      case Chatting(_, _, _, _) => ChatStepOk(s, id, s');
      case _ =>
    }
  }

  lemma SnapshotOk(s: System, id: OpId, order: seq<RoomId>, s': System)
    requires Inv(s) && Next(s, Snapshot(id, order), s')
    ensures Inv(s')
  {
    assert OpOk(s, id, s.ops[id]);
    NotWaitingIsUnreferenced(s, id);
    var op' := s'.ops[id];
    assert forall r :: r in order ==> r in s.registry;
    assert forall r :: Holds(op', r) ==> r in order;
    MovedOk(s, id, op', s');
  }

  /** Aborting forgets the call; its command, if queued, stays where it is. */
  lemma AbortOk(s: System, id: OpId, s': System)
    requires Inv(s) && Next(s, Abort(id), s')
    ensures Inv(s')
  {
    forall r | r in s'.cells ensures CellOk(s', r, s'.cells[r]) {
      var cell := s.cells[r];
      assert CellOk(s, r, cell);
      forall i | 0 <= i < |cell.queue|
        ensures CommandOk(s', r, cell.queue[i])
      {
        assert CommandOk(s, r, cell.queue[i]);
      }
    }
    forall other | other in s'.ops ensures OpOk(s', other, s'.ops[other]) {
      if other != id {
        MovedOther(s, id, Aborted, s', other);
      }
    }
  }

  lemma BeginOk(s: System, id: OpId, op: Op, s': System)
    requires Inv(s) && Next(s, Begin(id, op), s')
    ensures Inv(s')
  {
    forall r | r in s'.cells ensures CellOk(s', r, s'.cells[r]) {
      if r in s.cells {
        BeginCell(s, id, op, s', r);
      } else {
        SpawnedIsValid<SinkId>(r, s.maxPlayers);
      }
    }
    forall other | other in s'.ops ensures OpOk(s', other, s'.ops[other]) {
      BeginOther(s, id, op, s', other);
    }
  }

  lemma BeginCell(s: System, id: OpId, op: Op, s': System, r: RoomId)
    requires Inv(s) && Next(s, Begin(id, op), s') && r in s.cells
    ensures CellOk(s', r, s'.cells[r])
  {
    var cell := s.cells[r];
    assert CellOk(s, r, cell);
    forall i | 0 <= i < |cell.queue|
      ensures CommandOk(s', r, cell.queue[i])
    {
      assert CommandOk(s, r, cell.queue[i]);
    }
  }

  /** A room that has just been spawned is known to nobody else. */
  lemma BeginRegistering(s: System, id: OpId, op: Op, s': System)
    requires Inv(s) && Next(s, Begin(id, op), s') && op.Registering?
    ensures UntouchedBut(s', id, op.room)
  {
    forall o | o in s'.ops && o != id ensures !Holds(s'.ops[o], op.room) {
      assert OpOk(s, o, s.ops[o]);
    }
  }

  lemma BeginOther(s: System, id: OpId, op: Op, s': System, other: OpId)
    requires Inv(s) && Next(s, Begin(id, op), s') && other in s'.ops
    ensures OpOk(s', other, s'.ops[other])
  {
    assert id !in s.mail;
    if other == id {
      if op.Registering? {
        BeginRegistering(s, id, op, s');
      }
    } else {
      BeginOld(s, id, op, s', other);
    }
  }

  lemma BeginOld(s: System, id: OpId, op: Op, s': System, other: OpId)
    requires Inv(s) && Next(s, Begin(id, op), s') && other in s.ops
    ensures OpOk(s', other, s.ops[other])
  {
    assert OpOk(s, other, s.ops[other]);
    if s.ops[other].Registering? {
      BeginElsewhere(s, id, op, s', other);
    }
  }

  /** A spawned room that waits to be registered stays untouched when another call begins. */
  lemma BeginElsewhere(s: System, id: OpId, op: Op, s': System, other: OpId)
    requires Next(s, Begin(id, op), s') && other in s.ops && s.ops[other].Registering?
    requires UntouchedBut(s, other, s.ops[other].room)
    ensures UntouchedBut(s', other, s.ops[other].room)
  {
  }

  // ---- The actors ----

  lemma HandledCell(s: System, room: RoomId, s': System)
    requires Inv(s) && room in s.cells && s.cells[room].phase.Idle? && s.cells[room].queue != []
    requires s' == s.(cells := s.cells[room := AfterHandle(s.cells[room])])
    ensures CellOk(s', room, s'.cells[room])
  {
    var cell, cell' := s.cells[room], s'.cells[room];
    var c := cell.queue[0];
    assert CellOk(s, room, cell);
    HandleKeepsValid(cell.actor, c);
    assert CommandOk(s, room, c);
    forall i | 0 <= i < |cell'.queue|
      ensures CommandOk(s', room, cell'.queue[i])
    {
      assert cell'.queue[i] == cell.queue[i + 1] && CommandOk(s, room, cell.queue[i + 1]);
    }
  }

  /** What a call may rely on when a room moves on: replies do not vanish, and members once seen stay known. */
  ghost predicate Continues(cell: Cell, cell': Cell) {
    && (cell.actor.hadMembers ==> cell'.actor.hadMembers)
    && (cell.phase.Stopped? ==> cell'.phase.Stopped?)
  }

  lemma WorkedOther(s: System, room: RoomId, s': System, id: OpId)
    requires Inv(s) && room in s.cells && id in s.ops
    requires room in s'.cells && s' == s.(cells := s.cells[room := s'.cells[room]], mail := s'.mail)
    requires Continues(s.cells[room], s'.cells[room])
    requires (id in s.mail <==> id in s'.mail) && (id in s.mail ==> s.mail[id] == s'.mail[id])
    requires Outstanding(s.cells[room], id) ==> Outstanding(s'.cells[room], id) || s'.cells[room].phase.Stopped?
    requires s.ops[id].Registering? ==> s.ops[id].room != room
    ensures OpOk(s', id, s'.ops[id])
  {
    var op := s.ops[id];
    assert OpOk(s, id, op);
    if op.Registering? {
      assert UntouchedBut(s', id, op.room);
    }
  }

  lemma RegisteringIsUntouched(s: System, id: OpId)
    requires Inv(s) && id in s.ops && s.ops[id].Registering?
    ensures UntouchedBut(s, id, s.ops[id].room)
  {
    assert OpOk(s, id, s.ops[id]);
  }

  lemma HandledIsOutstanding(cell: Cell, id: OpId)
    requires ValidActor(cell.actor) && !cell.actor.closed && cell.queue != [] && cell.phase.Idle?
    ensures Outstanding(cell, id) ==> Outstanding(AfterHandle(cell), id)
    ensures cell.actor.hadMembers ==> AfterHandle(cell).actor.hadMembers
  {
    HandleKeepsValid(cell.actor, cell.queue[0]);
    if Queued(cell, id) {
      var i :| 0 <= i < |cell.queue| && WantsReply(cell.queue[i]) && cell.queue[i].reply == id;
      assert i > 0 ==> AfterHandle(cell).queue[i - 1] == cell.queue[i];
    }
  }

  lemma HandledOk(s: System, room: RoomId, s': System)
    requires Inv(s) && room in s.cells && s.cells[room].phase.Idle? && s.cells[room].queue != []
    requires s' == s.(cells := s.cells[room := AfterHandle(s.cells[room])])
    ensures Inv(s')
  {
    HandledCell(s, room, s');
    assert CellOk(s, room, s.cells[room]);
    forall r | r in s'.cells ensures CellOk(s', r, s'.cells[r]) {
      if r != room {
        SameCell(s, s', r, s.cells[r]);
      }
    }
    forall id | id in s'.ops ensures OpOk(s', id, s'.ops[id]) {
      HandledIsOutstanding(s.cells[room], id);
      if s.ops[id].Registering? {
        RegisteringIsUntouched(s, id);
      }
      WorkedOther(s, room, s', id);
    }
  }

  lemma HungUpOk(s: System, room: RoomId, s': System)
    requires Inv(s) && room in s.cells && s.cells[room].phase.Idle? && s.cells[room].queue == [] && Senderless(s, room)
    requires Worked(s, room) == Some(s')
    ensures Inv(s')
  {
    assert CellOk(s, room, s.cells[room]);
    forall r | r in s'.cells ensures CellOk(s', r, s'.cells[r]) {
      if r != room {
        SameCell(s, s', r, s.cells[r]);
      }
    }
    forall id | id in s'.ops ensures OpOk(s', id, s'.ops[id]) {
      assert !Holds(s.ops[id], room);
      WorkedOther(s, room, s', id);
    }
  }

  lemma StoppedOk(s: System, room: RoomId, s': System)
    requires Inv(s) && room in s.cells && s.cells[room].phase.Stopping?
    requires Worked(s, room) == Some(s')
    ensures Inv(s')
  {
    assert CellOk(s, room, s.cells[room]);
    forall r | r in s'.cells ensures CellOk(s', r, s'.cells[r]) {
      if r != room {
        SameCell(s, s', r, s.cells[r]);
      }
    }
    forall id | id in s'.ops ensures OpOk(s', id, s'.ops[id]) {
      if s.ops[id].Registering? {
        RegisteringIsUntouched(s, id);
      }
      WorkedOther(s, room, s', id);
    }
  }

  lemma RepliedCell(s: System, room: RoomId, s': System, r: RoomId)
    requires Inv(s) && room in s.cells && s.cells[room].phase.Replying?
    requires Worked(s, room) == Some(s') && r in s.cells
    ensures CellOk(s', r, s'.cells[r])
  {
    var to, cell := s.cells[room].phase.to, s.cells[r];
    assert CellOk(s, r, cell) && CellOk(s, room, s.cells[room]);
    forall i | 0 <= i < |cell.queue|
      ensures CommandOk(s', r, cell.queue[i])
    {
      assert CommandOk(s, r, cell.queue[i]);
    }
  }

  lemma RepliedOp(s: System, room: RoomId, s': System, id: OpId)
    requires Inv(s) && room in s.cells && s.cells[room].phase.Replying?
    requires Worked(s, room) == Some(s') && id in s.ops
    ensures OpOk(s', id, s'.ops[id])
  {
    var to := s.cells[room].phase.to;
    assert CellOk(s, room, s.cells[room]);
    if s.ops[id].Registering? {
      RegisteringIsUntouched(s, id);
    }
    if id != to {
      WorkedOther(s, room, s', id);
    } else {
      assert OpOk(s, id, s.ops[id]);
    }
  }

  lemma RepliedOk(s: System, room: RoomId, s': System)
    requires Inv(s) && room in s.cells && s.cells[room].phase.Replying?
    requires Worked(s, room) == Some(s')
    ensures Inv(s')
  {
    assert CellOk(s, room, s.cells[room]);
    forall r | r in s'.cells ensures CellOk(s', r, s'.cells[r]) {
      RepliedCell(s, room, s', r);
    }
    forall id | id in s'.ops ensures OpOk(s', id, s'.ops[id]) {
      RepliedOp(s, room, s', id);
    }
  }

  lemma WorkOk(s: System, room: RoomId, s': System)
    requires Inv(s) && room in s.cells && Worked(s, room) == Some(s')
    ensures Inv(s')
  {
    match s.cells[room].phase {
      case Idle =>
        if s.cells[room].queue != [] {
          HandledOk(s, room, s');
        } else {
          HungUpOk(s, room, s');
        }
      case Replying(_, _, _) => RepliedOk(s, room, s');
      case Stopping => StoppedOk(s, room, s');
    }
  }

  /** Every step keeps the invariant. */
  lemma StepOk(s: System, l: Label, s': System)
    requires Inv(s) && Next(s, l, s')
    ensures Inv(s')
  {
    match l {
      case Begin(id, op) => BeginOk(s, id, op, s');
      case Advance(id) => AdvanceOk(s, id, s');
      case Snapshot(id, order) => SnapshotOk(s, id, order, s');
      case Work(room) => WorkOk(s, room, s');
      case Abort(id) => AbortOk(s, id, s');
    }
  }

  // ---- Runs ----

  ghost predicate IsRun(states: seq<System>, labels: seq<Label>) {
    && |states| == |labels| + 1
    && forall i {:trigger labels[i]} :: 0 <= i < |labels| ==> Next(states[i], labels[i], states[i + 1])
  }

  ghost predicate StartsEmpty(states: seq<System>) {
    |states| > 0 && exists capacity, maxPlayers :: states[0] == Initial(capacity, maxPlayers)
  }

  lemma {:induction false} RunOk(states: seq<System>, labels: seq<Label>, n: nat)
    requires IsRun(states, labels) && Inv(states[0]) && n < |states|
    ensures Inv(states[n])
  {
    if n > 0 {
      RunOk(states, labels, n - 1);
      StepOk(states[n - 1], labels[n - 1], states[n]);
    }
  }

  /** In every run, whatever is aborted and however the steps interleave: a departure that is over has
      succeeded. The RoomClosed error, the failed send on an open room and the reply lost from an open room
      cannot happen. */
  lemma LeaveNeverFails(states: seq<System>, labels: seq<Label>, n: nat, id: OpId)
    requires IsRun(states, labels) && StartsEmpty(states) && n < |states|
    requires id in states[n].ops && states[n].ops[id].LeaveDone?
    ensures states[n].ops[id].left.Ok?
  {
    var capacity, maxPlayers :| states[0] == Initial(capacity, maxPlayers);
    RunOk(states, labels, n);
    assert OpOk(states[n], id, states[n].ops[id]);
  }

  /** In every run: a stopped actor's room is closed, no command is served on a closed room, and a reply can be
      lost only together with the actor. */
  lemma LostReplyMeansClosed(states: seq<System>, labels: seq<Label>, n: nat, id: OpId, room: RoomId)
    requires IsRun(states, labels) && StartsEmpty(states) && n < |states|
    ensures room in states[n].cells ==>
      && (states[n].cells[room].phase.Idle? ==> !states[n].cells[room].actor.closed)
      && (states[n].cells[room].phase.Stopped? ==> IsClosed(states[n], room))
    ensures id in states[n].ops && id !in states[n].mail && !states[n].ops[id].Aborted?
      && ((states[n].ops[id].Joining? && states[n].ops[id].join == JoinWait && states[n].ops[id].room == room)
          || (states[n].ops[id].Leaving? && states[n].ops[id].leave == LeaveWait && states[n].ops[id].room == room))
      ==> room in states[n].cells && (Outstanding(states[n].cells[room], id) || IsClosed(states[n], room))
  {
    var capacity, maxPlayers :| states[0] == Initial(capacity, maxPlayers);
    RunOk(states, labels, n);
    if room in states[n].cells {
      assert CellOk(states[n], room, states[n].cells[room]);
    }
    if id in states[n].ops {
      assert OpOk(states[n], id, states[n].ops[id]);
    }
  }
}
