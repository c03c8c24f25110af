/** The join and leave handlers of the gateway on top of the room service, with one connection per player. */
module RoomHandlers {
  import opened Prelude
  import opened RoomAggregate
  import opened RoomActors
  import opened RoomService
  import opened RoomServiceInvariant
  import opened RoomCleanup

  datatype Request = JoinRequest(op: OpId) | LeaveRequest(op: OpId, target: Option<RoomId>)

  /** A connection's own idea of the room it is in, and the request its handler is working on. */
  datatype Conn = Conn(current: Option<RoomId>, busy: Option<Request>)

  /** `gone` are the players whose connection was dropped and is being cleaned up, with the clean-up's `leave_all` once it
      has started. */
  datatype Gateway = Gateway(sys: System, conns: map<PlayerId, Conn>, gone: map<PlayerId, Option<OpId>>)

  datatype Event =
    | Connect(player: PlayerId)
    | Drop(player: PlayerId)
    | StartCleanup(player: PlayerId, op: OpId, reason: string)
    | EndCleanup(player: PlayerId)
    | AskJoin(guest: Guest, target: Option<RoomId>, op: OpId, newRoom: RoomId)
    | AskLeave(player: PlayerId, target: Option<RoomId>, op: OpId, reason: string)
    | Answer(player: PlayerId)
    | Background(step: Label)

  function JoinCall(guest: Guest, target: Option<RoomId>, newRoom: RoomId): Op {
    if target.Some? then Joining(guest, target.value, false, JoinLookup) else Registering(guest, newRoom)
  }

  function LeaveCall(player: PlayerId, target: Option<RoomId>, reason: string): Op {
    if target.Some? then Leaving(player, reason, target.value, false, [], LeaveLookup) else LeavingAll(player, reason)
  }

  function Answered(conn: Conn, op: Op): Conn
    requires conn.busy.Some?
  {
    match conn.busy.value
    case JoinRequest(_) => Conn(if op.JoinDone? && op.joined.Ok? then Some(op.joined.value) else conn.current, None)
    case LeaveRequest(_, target) =>
      Conn(if op.LeaveDone? && op.left.Ok? && (target.None? || conn.current == target) then None else conn.current, None)
  }

  /** The request whose call is cancelled with the connection, if its call is not over. */
  predicate InHand(s: System, conn: Conn) {
    conn.busy.Some? && conn.busy.value.op in s.ops && !Finished(s.ops[conn.busy.value.op])
  }

  /** A handler that joins while a room is recorded does nothing but answer. A connection can be dropped at any point, which
      cancels the call it is in; the player can connect again once the clean-up has left every room. */
  ghost predicate Happens(g: Gateway, e: Event, g': Gateway) {
    match e
    case Connect(p) => p !in g.conns && p !in g.gone && g' == g.(conns := g.conns[p := Conn(None, None)])
    case Drop(p) =>
      && p in g.conns
      && (if InHand(g.sys, g.conns[p]) then Next(g.sys, Abort(g.conns[p].busy.value.op), g'.sys) else g'.sys == g.sys)
      && g' == g.(sys := g'.sys, conns := g.conns - {p}, gone := g.gone[p := None])
    case StartCleanup(p, id, reason) =>
      && p in g.gone && g.gone[p].None?
      && Next(g.sys, Begin(id, LeavingAll(p, reason)), g'.sys) && g' == g.(sys := g'.sys, gone := g.gone[p := Some(id)])
    case EndCleanup(p) =>
      && p in g.gone && g.gone[p].Some? && g.gone[p].value in g.sys.ops && g.sys.ops[g.gone[p].value].LeaveDone?
      && g' == g.(gone := g.gone - {p})
    case AskJoin(guest, target, id, newRoom) =>
      && guest.player in g.conns && g.conns[guest.player].busy.None?
      && (if g.conns[guest.player].current.Some? then g' == g
          else && Next(g.sys, Begin(id, JoinCall(guest, target, newRoom)), g'.sys)
               && g' == g.(sys := g'.sys, conns := g.conns[guest.player := Conn(None, Some(JoinRequest(id)))]))
    case AskLeave(p, target, id, reason) =>
      && p in g.conns && g.conns[p].busy.None?
      && Next(g.sys, Begin(id, LeaveCall(p, target, reason)), g'.sys)
      && g' == g.(sys := g'.sys, conns := g.conns[p := g.conns[p].(busy := Some(LeaveRequest(id, target)))])
    case Answer(p) =>
      && p in g.conns && g.conns[p].busy.Some? && g.conns[p].busy.value.op in g.sys.ops
      && Finished(g.sys.ops[g.conns[p].busy.value.op])
      && g' == g.(conns := g.conns[p := Answered(g.conns[p], g.sys.ops[g.conns[p].busy.value.op])])
    case Background(l) =>
      && (l.Begin? ==> l.op.ClosingAll? || l.op.Chatting?) && !l.Abort?
      && Next(g.sys, l, g'.sys) && g' == g.(sys := g'.sys)
  }

  // ---- The invariant, player by player ----

  function ConnOf(g: Gateway, p: PlayerId): Conn {
    if p in g.conns then g.conns[p] else Conn(None, None)
  }

  /** The join in progress may have put the player into this room. */
  predicate JoinReaches(s: System, id: OpId, room: RoomId) {
    id in s.ops &&
    match s.ops[id]
    case Joining(_, r, _, JoinWait) => r == room && (id in s.mail ==> s.mail[id].Joined? && s.mail[id].joined.Ok?)
    case Joining(_, r, _, JoinPublish) => r == room
    case JoinDone(outcome) => outcome == Ok(room)
    case _ => false
  }

  predicate Allowed(s: System, conn: Conn, room: RoomId) {
    || conn.current == Some(room)
    || (conn.busy.Some? && conn.busy.value.JoinRequest? && JoinReaches(s, conn.busy.value.op, room))
  }

  ghost predicate OwnsItsJoins(s: System, conn: Conn, p: PlayerId) {
    forall id :: id in s.ops && MayJoin(s.ops[id], p) ==> conn.busy == Some(JoinRequest(id))
  }

  ghost predicate Whereabouts(s: System, conn: Conn, p: PlayerId) {
    forall r :: OpenAndListed(s, r) && !Clear(s.cells[r], p) ==> Allowed(s, conn, r)
  }

  /** A joining or creating call of the player, however far it has got. */
  predicate JoinsFor(op: Op, p: PlayerId) {
    MayJoin(op, p) || (op.Undoing? && op.guest.player == p) || op.JoinDone?
  }

  ghost predicate RequestOk(s: System, conn: Conn, p: PlayerId) {
    conn.busy.Some? ==>
      match conn.busy.value
      case JoinRequest(id) => conn.current == None && id in s.ops && JoinsFor(s.ops[id], p)
      case LeaveRequest(id, target) => Tidying(s, p, id, target)
  }

  /** A Join of the player that is queued in an open registered room belongs to the player's own request. */
  ghost predicate QueuedOwn(s: System, conn: Conn, p: PlayerId) {
    forall r :: OpenAndListed(s, r) ==> JoinsAre(s.cells[r].queue, p, conn)
  }

  ghost predicate JoinsAre(queue: seq<Command>, p: PlayerId, conn: Conn) {
    forall i :: 0 <= i < |queue| && queue[i].Join? && queue[i].player == p ==> conn.busy == Some(JoinRequest(queue[i].reply))
  }

  ghost predicate PlayerOk(s: System, conn: Conn, p: PlayerId) {
    OwnsItsJoins(s, conn, p) && Whereabouts(s, conn, p) && RequestOk(s, conn, p) && QueuedOwn(s, conn, p)
  }

  /** A dropped connection lets nobody in any more, and its clean-up covers every room. */
  ghost predicate GoneOk(s: System, cleanup: Option<OpId>, p: PlayerId) {
    if cleanup.None? then NoJoiner(s, p) else Tidying(s, p, cleanup.value, None)
  }

  ghost predicate OneOk(g: Gateway, p: PlayerId) {
    if p in g.gone then p !in g.conns && GoneOk(g.sys, g.gone[p], p) else PlayerOk(g.sys, ConnOf(g, p), p)
  }

  ghost predicate GatewayOk(g: Gateway) {
    Inv(g.sys) && forall p :: OneOk(g, p)
  }

  // ---- One step of the service, one player, one room ----

  lemma OwnReachStays(s: System, id: OpId, s': System, room: RoomId)
    requires Inv(s) && id in s.ops && s.ops[id].Joining? && AdvanceJoin(s, id, s.ops[id]) == Some(s')
    requires OpenAndListed(s, room) && JoinReaches(s, id, room)
    ensures JoinReaches(s', id, room)
  {
    assert OpOk(s, id, s.ops[id]) && CellOk(s, room, s.cells[room]);
  }

  lemma ReachesStays(s: System, id: OpId, s': System, room: RoomId, who: OpId)
    requires Inv(s) && id in s.ops && Advanced(s, id, s.ops[id]) == Some(s')
    requires OpenAndListed(s, room) && JoinReaches(s, who, room)
    ensures JoinReaches(s', who, room)
  {
    CallIsLocal(s, id, s.ops[id], s');
    if who == id && s.ops[id].Joining? {
      OwnReachStays(s, id, s', room);
    }
  }

  /** Only the player's own join can make a clear room unclear. */
  lemma UnclearedByOwnJoin(s: System, id: OpId, s': System, conn: Conn, p: PlayerId, room: RoomId)
    requires Inv(s) && OwnsItsJoins(s, conn, p)
    requires id in s.ops && Advanced(s, id, s.ops[id]) == Some(s')
    requires room in s.cells && Clear(s.cells[room], p) && room in s'.cells && !Clear(s'.cells[room], p)
    ensures conn.busy == Some(JoinRequest(id)) && JoinReaches(s', id, room)
  {
    CallIsLocal(s, id, s.ops[id], s');
    GrewUnclear(s.cells[room], s'.cells[room], id, s.ops[id], p);
    SenderWaits(s, id, s', room);
  }

  lemma GrewUnclear(cell: Cell, cell': Cell, id: OpId, op: Op, p: PlayerId)
    requires SameActor(cell, cell') && GrewBy(cell.queue, cell'.queue, id, op)
    requires Clear(cell, p) && !Clear(cell', p)
    ensures op.Joining? && op.guest.player == p && cell'.queue != cell.queue
  {
    forall k | 0 <= k < |cell.queue| ensures cell'.queue[k] == cell.queue[k] {
      assert cell'.queue == cell.queue || cell'.queue[..|cell.queue|][k] == cell.queue[k];
    }
    var i :| 0 <= i < |cell'.queue| && cell'.queue[i].Join? && cell'.queue[i].player == p;
  }

  lemma AdvanceWhereabouts(s: System, id: OpId, s': System, conn: Conn, p: PlayerId, room: RoomId)
    requires Inv(s) && OwnsItsJoins(s, conn, p) && Whereabouts(s, conn, p)
    requires id in s.ops && Advanced(s, id, s.ops[id]) == Some(s')
    requires OpenAndListed(s', room) && !Clear(s'.cells[room], p)
    ensures Allowed(s', conn, room)
  {
    if room !in s.registry {
      NewlyListedIsClear(s, id, s', room, p);
    } else {
      CallIsLocal(s, id, s.ops[id], s');
      if Clear(s.cells[room], p) {
        UnclearedByOwnJoin(s, id, s', conn, p, room);
      } else if conn.current != Some(room) {
        ReachesStays(s, id, s', room, conn.busy.value.op);
      }
    }
  }

  /** A joining call that has just lengthened a queue waits for that room's reply. */
  lemma SenderWaits(s: System, id: OpId, s': System, room: RoomId)
    requires Inv(s) && id in s.ops && s.ops[id].Joining? && AdvanceJoin(s, id, s.ops[id]) == Some(s')
    requires room in s.cells && room in s'.cells && s'.cells[room].queue != s.cells[room].queue
    ensures JoinReaches(s', id, room)
  {
    assert OpOk(s, id, s.ops[id]);
  }

  lemma HandledWhereabouts(s: System, room: RoomId, p: PlayerId)
    requires Inv(s) && room in s.cells && s.cells[room].phase.Idle? && s.cells[room].queue != []
    requires Clear(s.cells[room], p)
    ensures Clear(AfterHandle(s.cells[room]), p)
  {
    assert CellOk(s, room, s.cells[room]);
    HandleKeepsValid(s.cells[room].actor, s.cells[room].queue[0]);
  }

  /** When a refusal goes out, the player is out and nothing queued will let it in. */
  lemma RefusedIsClear(s: System, room: RoomId, conn: Conn, p: PlayerId)
    requires Inv(s) && QueuedOwn(s, conn, p) && OpenAndListed(s, room)
    requires room in s.cells && s.cells[room].phase.Replying? && s.cells[room].phase.reply.Joined?
    requires s.cells[room].phase.reply.joined.Err? && conn.busy == Some(JoinRequest(s.cells[room].phase.to))
    requires s.cells[room].phase.to in s.ops && MayJoin(s.ops[s.cells[room].phase.to], p)
    ensures Clear(s.cells[room], p)
  {
    var cell := s.cells[room];
    assert CellOk(s, room, cell);
    assert JoinsAre(cell.queue, p, conn);
    if i :| 0 <= i < |cell.queue| && cell.queue[i].Join? && cell.queue[i].player == p {
      assert false;
    }
  }

  lemma RepliedWhereabouts(s: System, at: RoomId, s': System, conn: Conn, p: PlayerId, room: RoomId)
    requires Inv(s) && PlayerOk(s, conn, p)
    requires at in s.cells && s.cells[at].phase.Replying? && Worked(s, at) == Some(s')
    requires OpenAndListed(s', room) && !Clear(s'.cells[room], p)
    ensures Allowed(s', conn, room)
  {
    var to := s.cells[at].phase.to;
    assert CellOk(s, at, s.cells[at]);
    assert !Clear(s.cells[room], p);
    if conn.current != Some(room) && conn.busy.value.op == to && s.cells[at].phase.reply.Joined? && s.cells[at].phase.reply.joined.Err? {
      RefusedIsClear(s, at, conn, p);
    }
  }

  lemma SilentWorkKeepsClear(s: System, at: RoomId, s': System, p: PlayerId, room: RoomId)
    requires Inv(s) && at in s.cells && Worked(s, at) == Some(s') && !s.cells[at].phase.Replying?
    requires OpenAndListed(s', room)
    ensures OpenAndListed(s, room) && (Clear(s.cells[room], p) ==> Clear(s'.cells[room], p))
    ensures s'.ops == s.ops && s'.mail == s.mail
  {
    assert CellOk(s, at, s.cells[at]);
    if room == at && s.cells[at].phase.Idle? && s.cells[at].queue != [] && Clear(s.cells[room], p) {
      HandledWhereabouts(s, room, p);
    }
  }

  lemma WorkWhereabouts(s: System, at: RoomId, s': System, conn: Conn, p: PlayerId, room: RoomId)
    requires Inv(s) && PlayerOk(s, conn, p)
    requires at in s.cells && Worked(s, at) == Some(s')
    requires OpenAndListed(s', room) && !Clear(s'.cells[room], p)
    ensures Allowed(s', conn, room)
  {
    assert CellOk(s, at, s.cells[at]);
    if s.cells[at].phase.Replying? {
      RepliedWhereabouts(s, at, s', conn, p, room);
    } else {
      SilentWorkKeepsClear(s, at, s', p, room);
      assert Allowed(s, conn, room);
    }
  }

  // ---- One step of the service, one player ----

  lemma StepWhereabouts(s: System, l: Label, s': System, conn: Conn, p: PlayerId)
    requires Inv(s) && PlayerOk(s, conn, p) && Next(s, l, s') && !CancelsFor(l, conn)
    ensures Whereabouts(s', conn, p)
  {
    forall r | OpenAndListed(s', r) && !Clear(s'.cells[r], p)
      ensures Allowed(s', conn, r)
    {
      StepWhereaboutsAt(s, l, s', conn, p, r);
    }
  }

  lemma StepWhereaboutsAt(s: System, l: Label, s': System, conn: Conn, p: PlayerId, room: RoomId)
    requires Inv(s) && PlayerOk(s, conn, p) && Next(s, l, s') && !CancelsFor(l, conn)
    requires OpenAndListed(s', room) && !Clear(s'.cells[room], p)
    ensures Allowed(s', conn, room)
  {
    match l {
      case Begin(id, op) => BeginWhereabouts(s, id, op, conn, p, room);
      case Advance(id) => AdvanceWhereabouts(s, id, s', conn, p, room);
      case Snapshot(id, order) => SnapshotWhereabouts(s, id, order, s', conn, p, room);
      case Work(at) => WorkWhereabouts(s, at, s', conn, p, room);
      case Abort(id) => AbortWhereabouts(s, id, s', conn, p, room);
    }
  }

  lemma AbortWhereabouts(s: System, id: OpId, s': System, conn: Conn, p: PlayerId, room: RoomId)
    requires Whereabouts(s, conn, p) && Next(s, Abort(id), s') && !CancelsFor(Abort(id), conn)
    requires OpenAndListed(s', room) && !Clear(s'.cells[room], p)
    ensures Allowed(s', conn, room)
  {
    assert Allowed(s, conn, room);
  }

  /** The step cancels the call this connection is in. */
  predicate CancelsFor(l: Label, conn: Conn) {
    l.Abort? && conn.busy.Some? && conn.busy.value.op == l.id
  }

  lemma BeginWhereabouts(s: System, id: OpId, op: Op, conn: Conn, p: PlayerId, room: RoomId)
    requires Whereabouts(s, conn, p) && id !in s.ops && Startable(s, op) && s.registry <= s.cells.Keys
    requires OpenAndListed(Begun(s, id, op), room) && !Clear(Begun(s, id, op).cells[room], p)
    ensures Allowed(Begun(s, id, op), conn, room)
  {
    assert OpenAndListed(s, room) && s.cells[room] == Begun(s, id, op).cells[room];
    assert Allowed(s, conn, room);
  }

  lemma SnapshotWhereabouts(s: System, id: OpId, order: seq<RoomId>, s': System, conn: Conn, p: PlayerId, room: RoomId)
    requires Whereabouts(s, conn, p) && Next(s, Snapshot(id, order), s')
    requires OpenAndListed(s', room) && !Clear(s'.cells[room], p)
    ensures Allowed(s', conn, room)
  {
    assert OpenAndListed(s, room) && s.cells[room] == s'.cells[room];
    assert Allowed(s, conn, room);
  }

  lemma StepOwnsJoins(s: System, l: Label, s': System, conn: Conn, p: PlayerId)
    requires OwnsItsJoins(s, conn, p) && Next(s, l, s')
    requires l.Begin? ==> !MayJoin(l.op, p)
    ensures OwnsItsJoins(s', conn, p)
  {
    if l.Advance? {
      CallIsLocal(s, l.id, s.ops[l.id], s');
      CallKeepsGuest(s, l.id, s.ops[l.id], s');
    }
  }

  lemma StepRequestOk(s: System, l: Label, s': System, conn: Conn, p: PlayerId)
    requires Inv(s) && PlayerOk(s, conn, p) && OwnsItsJoins(s', conn, p) && Next(s, l, s') && !CancelsFor(l, conn)
    ensures RequestOk(s', conn, p)
  {
    if conn.busy.Some? {
      match conn.busy.value {
        case JoinRequest(id) => JoinRequestOk(s, l, s', id, p);
        case LeaveRequest(id, target) =>
          StepTidies(s, l, s', p, id, target);
      }
    }
  }

  lemma JoinRequestOk(s: System, l: Label, s': System, id: OpId, p: PlayerId)
    requires Next(s, l, s') && l != Abort(id) && id in s.ops && JoinsFor(s.ops[id], p)
    ensures id in s'.ops && JoinsFor(s'.ops[id], p)
  {
    if l.Advance? {
      CallIsLocal(s, l.id, s.ops[l.id], s');
      if l.id == id {
        JoinStaysJoin(s, id, s', p);
      }
    }
  }

  lemma JoinStaysJoin(s: System, id: OpId, s': System, p: PlayerId)
    requires id in s.ops && JoinsFor(s.ops[id], p) && Advanced(s, id, s.ops[id]) == Some(s')
    ensures id in s'.ops && JoinsFor(s'.ops[id], p)
  {
  }

  // ---- Queued joins ----

  lemma AdvanceQueues(s: System, id: OpId, s': System, conn: Conn, p: PlayerId, room: RoomId)
    requires Inv(s) && OwnsItsJoins(s, conn, p) && QueuedOwn(s, conn, p)
    requires id in s.ops && Advanced(s, id, s.ops[id]) == Some(s') && OpenAndListed(s', room)
    ensures JoinsAre(s'.cells[room].queue, p, conn)
  {
    CallIsLocal(s, id, s.ops[id], s');
    if room !in s.registry {
      NewlyListedIsClear(s, id, s', room, p);
    } else {
      assert JoinsAre(s.cells[room].queue, p, conn);
      GrownQueue(s.cells[room].queue, s'.cells[room].queue, id, s.ops[id], p, conn);
    }
  }

  lemma GrownQueue(queue: seq<Command>, queue': seq<Command>, id: OpId, op: Op, p: PlayerId, conn: Conn)
    requires JoinsAre(queue, p, conn) && GrewBy(queue, queue', id, op)
    requires MayJoin(op, p) ==> conn.busy == Some(JoinRequest(id))
    ensures JoinsAre(queue', p, conn)
  {
    forall k | 0 <= k < |queue| ensures queue'[k] == queue[k] {
      assert queue' == queue || queue'[..|queue|][k] == queue[k];
    }
  }

  lemma BeginQueues(s: System, id: OpId, op: Op, conn: Conn, p: PlayerId, room: RoomId)
    requires QueuedOwn(s, conn, p) && id !in s.ops && Startable(s, op) && s.registry <= s.cells.Keys
    requires OpenAndListed(Begun(s, id, op), room)
    ensures JoinsAre(Begun(s, id, op).cells[room].queue, p, conn)
  {
    assert OpenAndListed(s, room) && s.cells[room] == Begun(s, id, op).cells[room];
  }

  lemma SnapshotQueues(s: System, id: OpId, order: seq<RoomId>, s': System, conn: Conn, p: PlayerId, room: RoomId)
    requires QueuedOwn(s, conn, p) && Next(s, Snapshot(id, order), s') && OpenAndListed(s', room)
    ensures JoinsAre(s'.cells[room].queue, p, conn)
  {
    assert OpenAndListed(s, room);
  }

  lemma WorkQueues(s: System, at: RoomId, s': System, conn: Conn, p: PlayerId, room: RoomId)
    requires Inv(s) && QueuedOwn(s, conn, p) && at in s.cells && Worked(s, at) == Some(s') && OpenAndListed(s', room)
    ensures JoinsAre(s'.cells[room].queue, p, conn)
  {
    assert CellOk(s, at, s.cells[at]);
    assert OpenAndListed(s, room);
    assert JoinsAre(s.cells[room].queue, p, conn);
  }

  lemma StepQueuedOwn(s: System, l: Label, s': System, conn: Conn, p: PlayerId)
    requires Inv(s) && OwnsItsJoins(s, conn, p) && QueuedOwn(s, conn, p) && Next(s, l, s')
    ensures QueuedOwn(s', conn, p)
  {
    forall r | OpenAndListed(s', r) ensures JoinsAre(s'.cells[r].queue, p, conn) {
      match l {
        case Begin(id, op) => BeginQueues(s, id, op, conn, p, r);
        case Advance(id) => AdvanceQueues(s, id, s', conn, p, r);
        case Snapshot(id, order) => SnapshotQueues(s, id, order, s', conn, p, r);
        case Work(at) => WorkQueues(s, at, s', conn, p, r);
        case Abort(_) => assert OpenAndListed(s, r);
      }
    }
  }

  /** A step of the service that neither starts a join for the player nor cancels its call keeps the player's part of the
      invariant. */
  lemma StepPlayerOk(s: System, l: Label, s': System, conn: Conn, p: PlayerId)
    requires Inv(s) && PlayerOk(s, conn, p) && Next(s, l, s') && !CancelsFor(l, conn)
    requires l.Begin? ==> !MayJoin(l.op, p)
    ensures PlayerOk(s', conn, p)
  {
    StepOwnsJoins(s, l, s', conn, p);
    StepWhereabouts(s, l, s', conn, p);
    StepRequestOk(s, l, s', conn, p);
    StepQueuedOwn(s, l, s', conn, p);
  }

  lemma StepGoneOk(s: System, l: Label, s': System, cleanup: Option<OpId>, p: PlayerId)
    requires GoneOk(s, cleanup, p) && Next(s, l, s') && (l.Begin? ==> !MayJoin(l.op, p))
    requires cleanup.Some? ==> l != Abort(cleanup.value)
    ensures GoneOk(s', cleanup, p)
  {
    NoJoinerStays(s, l, s', p);
    if cleanup.Some? {
      StepTidies(s, l, s', p, cleanup.value, None);
    }
  }

  // ---- The handlers ----

  lemma AskJoinOk(s: System, id: OpId, op: Op, s': System, p: PlayerId)
    requires Inv(s) && PlayerOk(s, Conn(None, None), p)
    requires MayJoin(op, p) && Next(s, Begin(id, op), s')
    ensures PlayerOk(s', Conn(None, Some(JoinRequest(id))), p)
  {
    var conn := Conn(None, Some(JoinRequest(id)));
    forall r | OpenAndListed(s', r) && !Clear(s'.cells[r], p)
      ensures Allowed(s', conn, r)
    {
      assert OpenAndListed(s, r) && s.cells[r] == s'.cells[r];
      assert Allowed(s, Conn(None, None), r);
    }
    forall r | OpenAndListed(s', r) ensures JoinsAre(s'.cells[r].queue, p, conn) {
      BeginQueues(s, id, op, Conn(None, None), p, r);
    }
  }

  lemma AskLeaveOk(s: System, id: OpId, target: Option<RoomId>, reason: string, s': System, conn: Conn, p: PlayerId)
    requires Inv(s) && PlayerOk(s, conn, p) && conn.busy.None?
    requires Next(s, Begin(id, LeaveCall(p, target, reason)), s')
    ensures PlayerOk(s', conn.(busy := Some(LeaveRequest(id, target))), p)
  {
    var l := Begin(id, LeaveCall(p, target, reason));
    StepPlayerOk(s, l, s', conn, p);
    StepOk(s, l, s');
    AskedLeave(s', id, target, conn, p);
  }

  lemma AskedLeave(s: System, id: OpId, target: Option<RoomId>, conn: Conn, p: PlayerId)
    requires Inv(s) && PlayerOk(s, conn, p) && conn.busy.None?
    requires id in s.ops && Departs(s.ops[id], p) && !MayJoin(s.ops[id], p)
    requires forall r :: InScope(target, r) && OpenAndListed(s, r) ==> Covered(s.cells[r], r, p, id, s.ops[id])
    ensures PlayerOk(s, conn.(busy := Some(LeaveRequest(id, target))), p)
  {
    var busy := conn.(busy := Some(LeaveRequest(id, target)));
    assert NoJoiner(s, p);
    assert Tidying(s, p, id, target);
    forall r | OpenAndListed(s, r) && !Clear(s.cells[r], p)
      ensures Allowed(s, busy, r)
    {
      assert Allowed(s, conn, r);
    }
    forall r | OpenAndListed(s, r) ensures JoinsAre(s.cells[r].queue, p, busy) {
      assert JoinsAre(s.cells[r].queue, p, conn);
    }
  }

  lemma AnswerOk(s: System, conn: Conn, p: PlayerId)
    requires Inv(s) && PlayerOk(s, conn, p)
    requires conn.busy.Some? && conn.busy.value.op in s.ops && Finished(s.ops[conn.busy.value.op])
    ensures PlayerOk(s, Answered(conn, s.ops[conn.busy.value.op]), p)
  {
    var id := conn.busy.value.op;
    var conn' := Answered(conn, s.ops[id]);
    assert OpOk(s, id, s.ops[id]);
    forall r | OpenAndListed(s, r) && !Clear(s.cells[r], p)
      ensures Allowed(s, conn', r)
    {
      assert Allowed(s, conn, r);
    }
    AnsweredQueues(s, conn, p);
  }

  /** Once a request is answered, no Join of it is queued. */
  lemma AnsweredQueues(s: System, conn: Conn, p: PlayerId)
    requires Inv(s) && QueuedOwn(s, conn, p) && RequestOk(s, conn, p)
    requires conn.busy.Some? && conn.busy.value.op in s.ops && Finished(s.ops[conn.busy.value.op])
    ensures QueuedOwn(s, Answered(conn, s.ops[conn.busy.value.op]), p)
  {
    var id := conn.busy.value.op;
    NotWaitingIsUnreferenced(s, id);
    forall r | OpenAndListed(s, r) ensures JoinsAre(s.cells[r].queue, p, Answered(conn, s.ops[id])) {
      assert JoinsAre(s.cells[r].queue, p, conn) && !Outstanding(s.cells[r], id);
    }
  }

  // ---- Dropped connections ----

  /** An unfinished call tells whose it is. */
  predicate CallOf(op: Op, p: PlayerId) {
    match op
    case Registering(guest, _) => guest.player == p
    case Joining(guest, _, _, _) => guest.player == p
    case Undoing(guest, _, _) => guest.player == p
    case Leaving(player, _, _, _, _, _) => player == p
    case LeavingAll(player, _) => player == p
    case _ => false
  }

  lemma RequestIsOwn(s: System, conn: Conn, p: PlayerId)
    requires RequestOk(s, conn, p) && InHand(s, conn)
    ensures CallOf(s.ops[conn.busy.value.op], p)
  {
  }

  lemma DropOthers(s: System, x: OpId, s': System, conn: Conn, p: PlayerId, q: PlayerId)
    requires Inv(s) && PlayerOk(s, conn, p) && Next(s, Abort(x), s') && CallOf(s.ops[x], q) && p != q
    ensures PlayerOk(s', conn, p)
  {
    if CancelsFor(Abort(x), conn) {
      RequestIsOwn(s, conn, p);
      assert false;
    }
    StepPlayerOk(s, Abort(x), s', conn, p);
  }

  /** The call of a dropped connection is the only one that could still let the player in. */
  lemma DropOwn(s: System, s': System, conn: Conn, p: PlayerId)
    requires PlayerOk(s, conn, p)
    requires if InHand(s, conn) then Next(s, Abort(conn.busy.value.op), s') else s' == s
    ensures GoneOk(s', None, p)
  {
  }

  /** After the clean-up the player is nowhere, so a new connection starts with a clean slate. */
  lemma CleanSlate(s: System, c: OpId, p: PlayerId)
    requires Tidying(s, p, c, None) && s.ops[c].LeaveDone?
    ensures PlayerOk(s, Conn(None, None), p)
  {
    forall r | OpenAndListed(s, r) ensures Clear(s.cells[r], p) {
      assert InScope(None, r);
    }
  }

  lemma StartedCleanup(s: System, id: OpId, p: PlayerId)
    requires Inv(s) && NoJoiner(s, p) && id in s.ops && s.ops[id].LeavingAll? && s.ops[id].player == p
    ensures GoneOk(s, Some(id), p)
  {
  }

  /** A step of the service on somebody else's behalf. */
  lemma OthersStep(g: Gateway, l: Label, g': Gateway, p: PlayerId)
    requires Inv(g.sys) && OneOk(g, p) && Next(g.sys, l, g'.sys) && !l.Abort? && (l.Begin? ==> !MayJoin(l.op, p))
    requires (p in g'.gone <==> p in g.gone) && (p in g.gone ==> g'.gone[p] == g.gone[p])
    requires (p in g'.conns <==> p in g.conns) && ConnOf(g', p) == ConnOf(g, p)
    ensures OneOk(g', p)
  {
    if p in g.gone {
      StepGoneOk(g.sys, l, g'.sys, g.gone[p], p);
    } else {
      StepPlayerOk(g.sys, l, g'.sys, ConnOf(g, p), p);
    }
  }

  lemma DropPlayerOk(g: Gateway, q: PlayerId, g': Gateway, p: PlayerId)
    requires GatewayOk(g) && Happens(g, Drop(q), g')
    ensures OneOk(g', p)
  {
    var s, s' := g.sys, g'.sys;
    assert OneOk(g, p) && OneOk(g, q);
    if p == q {
      DropOwn(s, s', g.conns[q], q);
    } else if InHand(s, g.conns[q]) {
      var x := g.conns[q].busy.value.op;
      RequestIsOwn(s, g.conns[q], q);
      if p in g.gone {
        StepGoneOk(s, Abort(x), s', g.gone[p], p);
      } else {
        DropOthers(s, x, s', ConnOf(g, p), p, q);
      }
    }
  }

  lemma StartPlayerOk(g: Gateway, p: PlayerId, id: OpId, reason: string, g': Gateway)
    requires Inv(g.sys) && OneOk(g, p) && Happens(g, StartCleanup(p, id, reason), g')
    ensures OneOk(g', p)
  {
    var l := Begin(id, LeavingAll(p, reason));
    StepOk(g.sys, l, g'.sys);
    NoJoinerStays(g.sys, l, g'.sys, p);
    StartedCleanup(g'.sys, id, p);
  }

  /** The step of the service that an event makes, if any. */
  function StepOf(g: Gateway, e: Event): Option<Label> {
    match e
    case Drop(p) => if p in g.conns && InHand(g.sys, g.conns[p]) then Some(Abort(g.conns[p].busy.value.op)) else None
    case StartCleanup(p, id, reason) => Some(Begin(id, LeavingAll(p, reason)))
    case AskJoin(guest, target, id, newRoom) =>
      if guest.player in g.conns && g.conns[guest.player].current.None?
      then Some(Begin(id, JoinCall(guest, target, newRoom))) else None
    case AskLeave(p, target, id, reason) => Some(Begin(id, LeaveCall(p, target, reason)))
    case Background(l) => Some(l)
    case _ => None
  }

  lemma EventSteps(g: Gateway, e: Event, g': Gateway)
    requires Happens(g, e, g')
    ensures if StepOf(g, e).Some? then Next(g.sys, StepOf(g, e).value, g'.sys) else g'.sys == g.sys
  {
  }

  /** The player whose connection the event is about. */
  predicate About(e: Event, p: PlayerId) {
    match e
    case AskJoin(guest, _, _, _) => guest.player == p
    case Background(_) => false
    case _ => e.player == p
  }

  lemma BystanderOk(g: Gateway, e: Event, g': Gateway, p: PlayerId)
    requires Inv(g.sys) && OneOk(g, p) && Happens(g, e, g') && !e.Drop? && !About(e, p)
    ensures OneOk(g', p)
  {
    EventSteps(g, e, g');
    if StepOf(g, e).Some? {
      OthersStep(g, StepOf(g, e).value, g', p);
    }
  }

  lemma OwnEventOk(g: Gateway, e: Event, g': Gateway, p: PlayerId)
    requires Inv(g.sys) && OneOk(g, p) && Happens(g, e, g') && !e.Drop? && About(e, p)
    ensures OneOk(g', p)
  {
    var s, s' := g.sys, g'.sys;
    match e {
      case Connect(_) =>
      case StartCleanup(_, id, reason) => StartPlayerOk(g, p, id, reason, g');
      case EndCleanup(_) => CleanSlate(s, g.gone[p].value, p);
      case AskJoin(guest, target, id, newRoom) =>
        if g.conns[p].current.None? {
          AskJoinOk(s, id, JoinCall(guest, target, newRoom), s', p);
        }
      case AskLeave(_, target, id, reason) => AskLeaveOk(s, id, target, reason, s', ConnOf(g, p), p);
      case Answer(_) => AnswerOk(s, ConnOf(g, p), p);
    }
  }

  lemma HappensOk(g: Gateway, e: Event, g': Gateway)
    requires GatewayOk(g) && Happens(g, e, g')
    ensures GatewayOk(g')
  {
    EventSteps(g, e, g');
    if StepOf(g, e).Some? {
      StepOk(g.sys, StepOf(g, e).value, g'.sys);
    }
    forall p ensures OneOk(g', p) {
      assert OneOk(g, p);
      if e.Drop? {
        DropPlayerOk(g, e.player, g', p);
      } else if About(e, p) {
        OwnEventOk(g, e, g', p);
      } else {
        BystanderOk(g, e, g', p);
      }
    }
  }

  // ---- Runs ----

  ghost predicate IsHistory(states: seq<Gateway>, events: seq<Event>) {
    && |states| == |events| + 1
    && (exists capacity, maxPlayers :: states[0] == Gateway(Initial(capacity, maxPlayers), map[], map[]))
    && forall i {:trigger events[i]} :: 0 <= i < |events| ==> Happens(states[i], events[i], states[i + 1])
  }

  lemma {:induction false} HistoryOk(states: seq<Gateway>, events: seq<Event>, n: nat)
    requires IsHistory(states, events) && n < |states|
    ensures GatewayOk(states[n])
  {
    if n > 0 {
      HistoryOk(states, events, n - 1);
      HappensOk(states[n - 1], events[n - 1], states[n]);
    }
  }

  /** In every history with one connection per player at a time, whatever connections are dropped in the middle of whatever
      request, each followed by its clean-up before the player connects again: whenever a player's handler is between
      requests, the only open registered room the player is in (or about to be put in) is the one its connection
      has recorded; so it is in at most one. */
  lemma RecordedRoomIsTheOnlyOne(states: seq<Gateway>, events: seq<Event>, n: nat, p: PlayerId, room: RoomId, other: RoomId)
    requires IsHistory(states, events) && n < |states|
    requires p !in states[n].gone && ConnOf(states[n], p).busy.None?
    requires OpenAndListed(states[n].sys, room) && !Clear(states[n].sys.cells[room], p)
    ensures ConnOf(states[n], p).current == Some(room)
    ensures OpenAndListed(states[n].sys, other) && p in states[n].sys.cells[other].actor.members ==> other == room
  {
    HistoryOk(states, events, n);
    assert OneOk(states[n], p);
    assert Allowed(states[n].sys, ConnOf(states[n], p), room);
    if OpenAndListed(states[n].sys, other) && p in states[n].sys.cells[other].actor.members {
      assert Allowed(states[n].sys, ConnOf(states[n], p), other);
    }
  }
}
