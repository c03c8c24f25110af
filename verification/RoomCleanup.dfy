/** The cleanup of a connection: whatever its task was doing when it was dropped, the `leave_all` that
    follows takes the player out of every open registered room, because its Leave is queued behind any
    Join that was already sent. */
module RoomCleanup {
  import opened Prelude
  import opened RoomAggregate
  import opened RoomActors
  import opened RoomService
  import opened RoomServiceInvariant

  ghost predicate NoJoinOf(queue: seq<Command>, p: PlayerId) {
    forall i :: 0 <= i < |queue| && queue[i].Join? ==> queue[i].player != p
  }

  /** The player is not in the room and no queued command will let it in. */
  ghost predicate Clear(cell: Cell, p: PlayerId) {
    p !in cell.actor.members && NoJoinOf(cell.queue, p)
  }

  ghost predicate LeaveAt(queue: seq<Command>, p: PlayerId, c: OpId, i: int) {
    && 0 <= i < |queue| && queue[i].Leave? && queue[i].player == p && queue[i].reply == c
    && NoJoinOf(queue[i + 1..], p)
  }

  /** The cleanup's own Leave is queued, behind every Join of the player. */
  ghost predicate LeaveComesLast(queue: seq<Command>, p: PlayerId, c: OpId) {
    exists i :: LeaveAt(queue, p, c, i)
  }

  /** The room is still ahead of the departing call `op`, or has its Leave queued, or is clear of the player. */
  ghost predicate Covered(cell: Cell, room: RoomId, p: PlayerId, c: OpId, op: Op) {
    || op.LeavingAll?
    || (op.Leaving? && room in op.rest)
    || (op.Leaving? && room == op.room && (op.leave == LeaveLookup || op.leave == LeaveSend))
    || (op.Leaving? && room == op.room && op.leave == LeaveWait && LeaveComesLast(cell.queue, p, c))
    || Clear(cell, p)
  }

  predicate Departs(op: Op, p: PlayerId) {
    || op.LeaveDone?
    || (op.LeavingAll? && op.player == p)
    || (op.Leaving? && op.player == p && (op.all || op.rest == []))
  }

  predicate MayJoin(op: Op, p: PlayerId) {
    (op.Registering? || op.Joining?) && op.guest.player == p
  }

  /** The player's connection is gone, so no call is in flight that could let the player in. */
  ghost predicate NoJoiner(s: System, p: PlayerId) {
    forall id :: id in s.ops ==> !MayJoin(s.ops[id], p)
  }

  ghost predicate OpenAndListed(s: System, room: RoomId) {
    room in s.registry && room in s.cells && !s.cells[room].actor.closed
  }

  // ---- One room under one step ----

  lemma GrowthKeepsCover(s: System, cell: Cell, cell': Cell, room: RoomId, p: PlayerId, c: OpId, op: Op, id: OpId, mover: Op)
    requires Covered(cell, room, p, c, op) && SameActor(cell, cell')
    requires GrewBy(cell.queue, cell'.queue, id, mover) && !MayJoin(mover, p)
    ensures Covered(cell', room, p, c, op)
  {
    if LeaveComesLast(cell.queue, p, c) {
      var i :| LeaveAt(cell.queue, p, c, i);
      assert LeaveAt(cell'.queue, p, c, i);
    }
  }

  lemma HandleKeepsCover(cell: Cell, room: RoomId, p: PlayerId, c: OpId, op: Op)
    requires Covered(cell, room, p, c, op) && ValidActor(cell.actor) && !cell.actor.closed && cell.queue != []
    ensures Covered(AfterHandle(cell), room, p, c, op)
  {
    var first, cell' := cell.queue[0], AfterHandle(cell);
    HandleKeepsValid(cell.actor, first);
    if LeaveComesLast(cell.queue, p, c) {
      var i :| LeaveAt(cell.queue, p, c, i);
      if i == 0 {
        assert Clear(cell', p);
      } else {
        assert cell'.queue[i..] == cell.queue[i + 1..];
        assert LeaveAt(cell'.queue, p, c, i - 1);
      }
    }
  }

  lemma GrowthKeepsClear(cell: Cell, cell': Cell, p: PlayerId, id: OpId, mover: Op)
    requires Clear(cell, p) && SameActor(cell, cell')
    requires GrewBy(cell.queue, cell'.queue, id, mover) && !MayJoin(mover, p)
    ensures Clear(cell', p)
  {
  }

  /** The departing call itself moves on, with another room than this one in hand. */
  lemma DepartureElsewhere(s: System, s': System, room: RoomId, p: PlayerId, c: OpId)
    requires Inv(s) && c in s.ops && s.ops[c].Leaving? && Departs(s.ops[c], p) && room != s.ops[c].room
    requires AdvanceLeave(s, c, s.ops[c]) == Some(s')
    requires room in s.cells && Covered(s.cells[room], room, p, c, s.ops[c])
    ensures room in s'.cells && c in s'.ops && Covered(s'.cells[room], room, p, c, s'.ops[c])
  {
    LeaveIsLocal(s, c, s.ops[c], s');
    if Clear(s.cells[room], p) {
      GrowthKeepsClear(s.cells[room], s'.cells[room], p, c, s.ops[c]);
    } else {
      AheadStaysAhead(s, s', room, p, c);
    }
  }

  /** A room still ahead of the call stays ahead, or is next. */
  lemma AheadStaysAhead(s: System, s': System, room: RoomId, p: PlayerId, c: OpId)
    requires Inv(s) && c in s.ops && s.ops[c].Leaving? && Departs(s.ops[c], p) && room in s.ops[c].rest
    requires AdvanceLeave(s, c, s.ops[c]) == Some(s')
    ensures c in s'.ops && s'.ops[c].Leaving?
    ensures room in s'.ops[c].rest || (room == s'.ops[c].room && s'.ops[c].leave == LeaveLookup)
  {
    var op := s.ops[c];
    assert OpOk(s, c, op);
    if op.room in s.cells {
      assert CellOk(s, op.room, s.cells[op.room]);
    }
  }

  /** The departing call sends its Leave, or has had its reply, or has lost the actor. */
  lemma DepartureHere(s: System, s': System, p: PlayerId, c: OpId)
    requires Inv(s) && c in s.ops && s.ops[c].Leaving? && Departs(s.ops[c], p)
    requires AdvanceLeave(s, c, s.ops[c]) == Some(s')
    requires OpenAndListed(s, s.ops[c].room) && OpenAndListed(s', s.ops[c].room)
    requires Covered(s.cells[s.ops[c].room], s.ops[c].room, p, c, s.ops[c])
    ensures Covered(s'.cells[s.ops[c].room], s.ops[c].room, p, c, s'.ops[c])
  {
    var op := s.ops[c];
    var room, cell := op.room, s.cells[op.room];
    assert OpOk(s, c, op) && CellOk(s, room, cell);
    match op.leave {
      case LeaveSend =>
        var queue := s'.cells[room].queue;
        assert queue[|cell.queue| + 1..] == [];
        assert LeaveAt(queue, p, c, |cell.queue|);
      case LeaveWait =>
        if c in s.mail {
          NotWaitingIsUnreferenced(s, c);
        }
        assert !Outstanding(cell, c);
        NotQueuedIsClear(cell, room, p, c, op);
      case _ =>
    }
  }

  lemma NotQueuedIsClear(cell: Cell, room: RoomId, p: PlayerId, c: OpId, op: Op)
    requires Covered(cell, room, p, c, op) && op.Leaving? && op.leave == LeaveWait && op.room == room && !Queued(cell, c)
    ensures Clear(cell, p) || room in op.rest
  {
    assert forall i :: !LeaveAt(cell.queue, p, c, i);
  }

  /** A room that has just been registered is untouched. */
  lemma NewlyListedIsClear(s: System, id: OpId, s': System, room: RoomId, p: PlayerId)
    requires Inv(s) && id in s.ops && Advanced(s, id, s.ops[id]) == Some(s')
    requires room !in s.registry && OpenAndListed(s', room)
    ensures Clear(s'.cells[room], p)
  {
    CallIsLocal(s, id, s.ops[id], s');
    assert OpOk(s, id, s.ops[id]);
  }

  lemma AdvanceKeepsCover(s: System, id: OpId, s': System, room: RoomId, p: PlayerId, c: OpId)
    requires Inv(s) && id in s.ops && Advanced(s, id, s.ops[id]) == Some(s')
    requires !MayJoin(s.ops[id], p) && c in s.ops && Departs(s.ops[c], p)
    requires OpenAndListed(s', room)
    requires OpenAndListed(s, room) ==> Covered(s.cells[room], room, p, c, s.ops[c])
    ensures c in s'.ops && Covered(s'.cells[room], room, p, c, s'.ops[c])
  {
    CallIsLocal(s, id, s.ops[id], s');
    if room !in s.registry {
      NewlyListedIsClear(s, id, s', room, p);
    } else if id == c && s.ops[c].Leaving? {
      if room == s.ops[c].room {
        DepartureHere(s, s', p, c);
      } else {
        DepartureElsewhere(s, s', room, p, c);
      }
    } else {
      GrowthKeepsCover(s, s.cells[room], s'.cells[room], room, p, c, s.ops[c], id, s.ops[id]);
    }
  }

  lemma WorkKeepsCover(s: System, at: RoomId, s': System, room: RoomId, p: PlayerId, c: OpId)
    requires Inv(s) && at in s.cells && Worked(s, at) == Some(s')
    requires c in s.ops && OpenAndListed(s', room)
    requires OpenAndListed(s, room) ==> Covered(s.cells[room], room, p, c, s.ops[c])
    ensures Covered(s'.cells[room], room, p, c, s'.ops[c])
  {
    assert CellOk(s, at, s.cells[at]);
    if room == at && s.cells[at].phase.Idle? && s.cells[at].queue != [] {
      HandleKeepsCover(s.cells[room], room, p, c, s.ops[c]);
    }
  }

  // ---- One departing call, any step of anybody else ----

  /** A single departure is about one room, `leave_all` about every room. */
  predicate InScope(only: Option<RoomId>, room: RoomId) {
    only.None? || only.value == room
  }

  /** Nothing else can let the player in, and every open listed room in scope is covered. */
  ghost predicate Tidying(s: System, p: PlayerId, c: OpId, only: Option<RoomId>) {
    && Inv(s) && NoJoiner(s, p) && c in s.ops && Departs(s.ops[c], p)
    && forall r :: InScope(only, r) && OpenAndListed(s, r) ==> Covered(s.cells[r], r, p, c, s.ops[c])
  }

  lemma DepartsStays(s: System, l: Label, s': System, p: PlayerId, c: OpId)
    requires Next(s, l, s') && c in s.ops && Departs(s.ops[c], p) && l != Abort(c)
    ensures c in s'.ops && Departs(s'.ops[c], p)
  {
    if l.Advance? {
      CallIsLocal(s, l.id, s.ops[l.id], s');
      if l.id == c && s.ops[c].Leaving? {
        LeavingDeparts(s, s', p, c);
      }
    }
  }

  lemma LeavingDeparts(s: System, s': System, p: PlayerId, c: OpId)
    requires c in s.ops && s.ops[c].Leaving? && Departs(s.ops[c], p) && AdvanceLeave(s, c, s.ops[c]) == Some(s')
    ensures c in s'.ops && Departs(s'.ops[c], p)
  {
  }

  lemma StepKeepsCover(s: System, l: Label, s': System, p: PlayerId, c: OpId, room: RoomId)
    requires Inv(s) && Next(s, l, s') && l != Abort(c) && NoJoiner(s, p) && c in s.ops && Departs(s.ops[c], p)
    requires OpenAndListed(s', room)
    requires OpenAndListed(s, room) ==> Covered(s.cells[room], room, p, c, s.ops[c])
    ensures c in s'.ops && Covered(s'.cells[room], room, p, c, s'.ops[c])
  {
    match l {
      case Begin(_, _) =>
      case Advance(id) => AdvanceKeepsCover(s, id, s', room, p, c);
      case Snapshot(id, order) =>
        if id == c {
          assert room in order;
        }
      case Work(at) => WorkKeepsCover(s, at, s', room, p, c);
      case Abort(_) =>
    }
  }

  lemma StepTidies(s: System, l: Label, s': System, p: PlayerId, c: OpId, only: Option<RoomId>)
    requires Tidying(s, p, c, only) && Next(s, l, s') && l != Abort(c) && NoJoiner(s', p)
    ensures Tidying(s', p, c, only)
  {
    StepOk(s, l, s');
    DepartsStays(s, l, s', p, c);
    forall r | InScope(only, r) && OpenAndListed(s', r)
      ensures Covered(s'.cells[r], r, p, c, s'.ops[c])
    {
      StepKeepsCover(s, l, s', p, c, r);
    }
  }

  /** Only starting a join or a creation for the player makes a joiner appear. */
  lemma NoJoinerStays(s: System, l: Label, s': System, p: PlayerId)
    requires NoJoiner(s, p) && Next(s, l, s')
    requires l.Begin? ==> !MayJoin(l.op, p)
    ensures NoJoiner(s', p)
  {
    if l.Advance? {
      CallIsLocal(s, l.id, s.ops[l.id], s');
      CallKeepsGuest(s, l.id, s.ops[l.id], s');
    }
  }

  lemma CallKeepsGuest(s: System, id: OpId, op: Op, s': System)
    requires Advanced(s, id, op) == Some(s')
    ensures id in s'.ops
    ensures s'.ops[id].Joining? ==> (op.Joining? || op.Registering?) && s'.ops[id].guest == op.guest
    ensures !s'.ops[id].Registering?
  {
    if op.Leaving? {
      LeavingJoinsNothing(s, id, op, s');
    } else if op.Joining? {
      JoiningKeepsGuest(s, id, op, s');
    }
  }

  lemma LeavingJoinsNothing(s: System, id: OpId, op: Op, s': System)
    requires op.Leaving? && AdvanceLeave(s, id, op) == Some(s')
    ensures id in s'.ops && !s'.ops[id].Joining? && !s'.ops[id].Registering?
  {
  }

  lemma JoiningKeepsGuest(s: System, id: OpId, op: Op, s': System)
    requires op.Joining? && AdvanceJoin(s, id, op) == Some(s')
    ensures id in s'.ops && !s'.ops[id].Registering? && (s'.ops[id].Joining? ==> s'.ops[id].guest == op.guest)
  {
  }

  lemma {:induction false} RunTidies(states: seq<System>, labels: seq<Label>, from: nat, n: nat, p: PlayerId, c: OpId)
    requires IsRun(states, labels) && from <= n < |states|
    requires Tidying(states[from], p, c, None)
    requires forall i :: from <= i < n ==> labels[i] != Abort(c) && (labels[i].Begin? ==> !MayJoin(labels[i].op, p))
    ensures Tidying(states[n], p, c, None)
    decreases n
  {
    if n > from {
      RunTidies(states, labels, from, n - 1, p, c);
      NoJoinerStays(states[n - 1], labels[n - 1], states[n], p);
      StepTidies(states[n - 1], labels[n - 1], states[n], p, c, None);
    }
  }

  /** The player's connection is gone, so nothing in flight will join for it, and nothing new does. Later the guard's
      `leave_all` starts. In every run, when it is over, the player is in no open registered room and no queued
      command will put it there. */
  lemma CleanupClears(
    states: seq<System>, labels: seq<Label>, gone: nat, start: nat, n: nat, p: PlayerId, c: OpId, reason: string)
    requires IsRun(states, labels) && StartsEmpty(states) && gone <= start < n < |states|
    requires NoJoiner(states[gone], p)
    requires labels[start] == Begin(c, LeavingAll(p, reason))
    requires forall i :: gone <= i < n ==> labels[i] != Abort(c) && (labels[i].Begin? ==> !MayJoin(labels[i].op, p))
    requires c in states[n].ops && Finished(states[n].ops[c])
    ensures states[n].ops[c].LeaveDone? && states[n].ops[c].left.Ok?
    ensures forall r :: OpenAndListed(states[n], r) ==> Clear(states[n].cells[r], p)
  {
    var capacity, maxPlayers :| states[0] == Initial(capacity, maxPlayers);
    RunHasNoJoiner(states, labels, gone, start + 1, p);
    RunOk(states, labels, start + 1);
    assert Tidying(states[start + 1], p, c, None);
    RunTidies(states, labels, start + 1, n, p, c);
    assert OpOk(states[n], c, states[n].ops[c]);
    assert forall r :: OpenAndListed(states[n], r) ==> InScope(None, r);
  }

  /** One connection per player. At step `abort` the player's task is dropped, at whatever stage its only call
      is, mid-join included; nothing else is in flight for the player and no new connection joins for it.
      Later the guard's `leave_all` starts. In every run, when it is over, the player is in no open registered
      room and no queued command will put it there. */
  lemma CleanupCompletes(
    states: seq<System>, labels: seq<Label>, abort: nat, call: OpId, start: nat, n: nat, p: PlayerId, c: OpId, reason: string)
    requires IsRun(states, labels) && StartsEmpty(states) && abort < start < n < |states|
    requires labels[abort] == Abort(call)
    requires forall id :: id in states[abort].ops && id != call ==> !MayJoin(states[abort].ops[id], p)
    requires labels[start] == Begin(c, LeavingAll(p, reason))
    requires forall i :: abort <= i < n ==> labels[i] != Abort(c) && (labels[i].Begin? ==> !MayJoin(labels[i].op, p))
    requires c in states[n].ops && Finished(states[n].ops[c])
    ensures states[n].ops[c].LeaveDone? && states[n].ops[c].left.Ok?
    ensures forall r :: OpenAndListed(states[n], r) ==> Clear(states[n].cells[r], p)
  {
    CleanupClears(states, labels, abort + 1, start, n, p, c, reason);
  }

  lemma {:induction false} RunHasNoJoiner(states: seq<System>, labels: seq<Label>, from: nat, n: nat, p: PlayerId)
    requires IsRun(states, labels) && from <= n < |states| && NoJoiner(states[from], p)
    requires forall i :: from <= i < n ==> labels[i].Begin? ==> !MayJoin(labels[i].op, p)
    ensures NoJoiner(states[n], p)
    decreases n
  {
    if n > from {
      RunHasNoJoiner(states, labels, from, n - 1, p);
      NoJoinerStays(states[n - 1], labels[n - 1], states[n], p);
    }
  }
}
