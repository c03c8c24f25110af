/** What lingers in the registry: nothing that is closed or empty, unless a call was cancelled at a point where only that
    call would have put things right. */
module RoomServiceQuiescence {
  import opened Prelude
  import opened RoomAggregate
  import opened RoomActors
  import opened RoomService
  import opened RoomServiceInvariant

  /** A departure that emptied the room and has yet to take it out of the registry. */
  ghost predicate Evicting(s: System, id: OpId, room: RoomId) {
    && id in s.ops && s.ops[id].Leaving? && s.ops[id].room == room
    && (|| s.ops[id].leave.LeaveEvict?
        || (s.ops[id].leave == LeaveWait && id in s.mail && s.mail[id] == Left(Ok(true)))
        || (s.ops[id].leave == LeaveWait && room in s.cells && s.cells[room].phase == Replying(id, Left(Ok(true)), true)))
  }

  /** The call that created the room and has not yet got in. */
  ghost predicate MovingIn(s: System, id: OpId, room: RoomId) {
    && id in s.ops
    && ((s.ops[id].Joining? && s.ops[id].creating && s.ops[id].room == room && s.ops[id].join != JoinPublish)
        || (s.ops[id].Undoing? && s.ops[id].room == room))
  }

  predicate JoinQueued(cell: Cell) {
    exists i :: 0 <= i < |cell.queue| && cell.queue[i].Join?
  }

  /** The room is one of the excused, or it is open with members, on its way to its first member, or being evicted. */
  ghost predicate AttendedTo(s: System, room: RoomId, excused: set<RoomId>) {
    && room in s.cells
    && (room in excused ||
        (&& (s.cells[room].actor.closed ==> exists id :: Evicting(s, id, room))
         && (!s.cells[room].actor.closed && !s.cells[room].actor.hadMembers ==>
               JoinQueued(s.cells[room]) || exists id :: MovingIn(s, id, room))))
  }

  predicate AbandonedLeave(s: System, c: Command) {
    c.Leave? && c.reply in s.ops && s.ops[c.reply].Aborted?
  }

  /** A departure that was queued by a call cancelled since: nobody will evict the room it may close. */
  ghost predicate LeavesExcused(s: System, room: RoomId, excused: set<RoomId>) {
    room in s.cells && room !in excused ==>
      forall i :: 0 <= i < |s.cells[room].queue| ==> !AbandonedLeave(s, s.cells[room].queue[i])
  }

  ghost predicate Tended(s: System, excused: set<RoomId>) {
    && Inv(s)
    && (forall r :: LeavesExcused(s, r, excused))
    && (forall r :: r in s.registry ==> AttendedTo(s, r, excused))
  }

  /** Cancelling the call here leaves its room to itself: a creation that has registered the room and has not queued its
      Join yet, or is about to take the room back; a departure that has queued its Leave and not evicted the room yet. */
  predicate Harmful(op: Op) {
    || (op.Joining? && op.creating && (op.join == JoinLookup || op.join == JoinSend))
    || op.Undoing?
    || (op.Leaving? && (op.leave == LeaveWait || op.leave.LeaveEvict?))
  }

  /** The room that a step excuses, if any. */
  function Excuse(s: System, l: Label): set<RoomId> {
    if l.Abort? && l.id in s.ops && Harmful(s.ops[l.id]) then {s.ops[l.id].room} else {}
  }

  /** The departure that emptied the room is never stuck, and its next two steps unregister the room. */
  lemma EvictionProceeds(s: System, id: OpId, room: RoomId)
    requires Inv(s) && Evicting(s, id, room) && IsClosed(s, room)
    ensures s.ops[id].leave.LeaveEvict? ==>
      Advanced(s, id, s.ops[id]).Some? && room !in Advanced(s, id, s.ops[id]).value.registry
    ensures s.ops[id].leave == LeaveWait && id in s.mail ==>
      && Advanced(s, id, s.ops[id]).Some?
      && Advanced(s, id, s.ops[id]).value.ops[id] == s.ops[id].(leave := LeaveEvict(true))
    ensures s.ops[id].leave == LeaveWait && id !in s.mail ==>
      room in s.cells && Worked(s, room).Some? && id in Worked(s, room).value.mail
  {
    assert OpOk(s, id, s.ops[id]);
  }

  // ---- Calls ----

  lemma EvictingStays(s: System, id: OpId, s': System, room: RoomId, who: OpId)
    requires Inv(s) && id in s.ops && Advanced(s, id, s.ops[id]) == Some(s')
    requires room in s.registry && room in s'.registry && IsClosed(s, room) && Evicting(s, who, room)
    ensures Evicting(s', who, room)
  {
    if who != id {
      CallIsLocal(s, id, s.ops[id], s');
    } else {
      OwnEviction(s, id, s', room);
    }
  }

  lemma OwnEviction(s: System, id: OpId, s': System, room: RoomId)
    requires Inv(s) && Evicting(s, id, room) && IsClosed(s, room) && AdvanceLeave(s, id, s.ops[id]) == Some(s')
    requires room in s'.registry
    ensures Evicting(s', id, room)
  {
    assert OpOk(s, id, s.ops[id]);
  }

  lemma MovingInStays(s: System, id: OpId, s': System, room: RoomId, who: OpId)
    requires Inv(s) && id in s.ops && Advanced(s, id, s.ops[id]) == Some(s')
    requires room in s.registry && room in s'.registry && MovingIn(s, who, room)
    requires !s.cells[room].actor.closed && !s.cells[room].actor.hadMembers
    ensures MovingIn(s', who, room)
  {
    assert OpOk(s, who, s.ops[who]);
    assert CellOk(s, room, s.cells[room]);
    if who != id {
      CallIsLocal(s, id, s.ops[id], s');
    }
  }

  lemma GrownJoinStays(cell: Cell, cell': Cell, id: OpId, op: Op)
    requires JoinQueued(cell) && GrewBy(cell.queue, cell'.queue, id, op)
    ensures JoinQueued(cell')
  {
    var i :| 0 <= i < |cell.queue| && cell.queue[i].Join?;
    assert cell'.queue == cell.queue || cell'.queue[..|cell.queue|][i] == cell.queue[i];
    assert cell'.queue[i].Join?;
  }

  lemma AdvanceAttends(s: System, id: OpId, s': System, room: RoomId, excused: set<RoomId>)
    requires Inv(s) && id in s.ops && Advanced(s, id, s.ops[id]) == Some(s') && room in s'.registry
    requires room in s.registry ==> AttendedTo(s, room, excused)
    ensures AttendedTo(s', room, excused)
  {
    CallIsLocal(s, id, s.ops[id], s');
    if room !in s.registry {
      assert OpOk(s, id, s.ops[id]);
      assert MovingIn(s', id, room);
    } else if room !in excused {
      if s.cells[room].actor.closed {
        var who :| Evicting(s, who, room);
        EvictingStays(s, id, s', room, who);
      } else if !s.cells[room].actor.hadMembers {
        if JoinQueued(s.cells[room]) {
          GrownJoinStays(s.cells[room], s'.cells[room], id, s.ops[id]);
        } else {
          var who :| MovingIn(s, who, room);
          MovingInStays(s, id, s', room, who);
        }
      }
    }
  }

  // ---- Actors ----

  lemma HandledJoinStays(cell: Cell)
    requires JoinQueued(cell) && cell.queue != [] && !cell.queue[0].Join?
    ensures JoinQueued(AfterHandle(cell))
  {
    var i :| 0 <= i < |cell.queue| && cell.queue[i].Join?;
    assert AfterHandle(cell).queue[i - 1] == cell.queue[i];
  }

  lemma HandleAttends(s: System, room: RoomId, s': System, excused: set<RoomId>)
    requires Inv(s) && room in s.registry && AttendedTo(s, room, excused) && LeavesExcused(s, room, excused)
    requires s.cells[room].phase.Idle? && s.cells[room].queue != []
    requires s' == s.(cells := s.cells[room := AfterHandle(s.cells[room])])
    ensures AttendedTo(s', room, excused)
  {
    var cell, cell' := s.cells[room], s'.cells[room];
    var c := cell.queue[0];
    assert CellOk(s, room, cell) && CommandOk(s, room, c);
    HandleKeepsValid(cell.actor, c);
    if room !in excused {
      assert !AbandonedLeave(s, c);
      if cell'.actor.closed {
        assert c.Leave?;
        assert Evicting(s', c.reply, room);
      } else if !cell'.actor.hadMembers {
        if JoinQueued(cell) {
          HandledJoinStays(cell);
        } else {
          var who :| MovingIn(s, who, room);
          assert MovingIn(s', who, room);
        }
      }
    }
  }

  lemma WorkEvicting(s: System, at: RoomId, s': System, room: RoomId, who: OpId)
    requires Inv(s) && at in s.cells && Worked(s, at) == Some(s') && room in s.cells && s.cells[room].actor.closed
    requires Evicting(s, who, room)
    ensures Evicting(s', who, room)
  {
    assert CellOk(s, at, s.cells[at]) && OpOk(s, who, s.ops[who]);
  }

  /** An actor that does not serve a command of this room leaves its queue, and whether it is open, alone. */
  lemma WorkElsewhere(s: System, at: RoomId, s': System, room: RoomId)
    requires Inv(s) && at in s.cells && Worked(s, at) == Some(s') && room in s.registry
    requires !(room == at && s.cells[at].phase.Idle?) && !s.cells[room].actor.closed
    ensures room in s'.cells && s'.cells[room].queue == s.cells[room].queue && s'.cells[room].actor == s.cells[room].actor
  {
    assert CellOk(s, at, s.cells[at]);
  }

  lemma WorkAttends(s: System, at: RoomId, s': System, room: RoomId, excused: set<RoomId>)
    requires Inv(s) && at in s.cells && Worked(s, at) == Some(s') && room in s.registry
    requires AttendedTo(s, room, excused) && LeavesExcused(s, room, excused)
    ensures AttendedTo(s', room, excused)
  {
    assert CellOk(s, at, s.cells[at]);
    if room == at && s.cells[at].phase.Idle? {
      HandleAttends(s, room, s', excused);
    } else if room !in excused && s.cells[room].actor.closed {
      var who :| Evicting(s, who, room);
      WorkEvicting(s, at, s', room, who);
      assert s'.cells[room].actor.closed;
    } else if room !in excused {
      WorkElsewhere(s, at, s', room);
      if !s.cells[room].actor.hadMembers && !JoinQueued(s.cells[room]) {
        var who :| MovingIn(s, who, room);
        assert MovingIn(s', who, room);
      }
    }
  }

  // ---- Starting, looking round, cancelling ----

  /** Steps that keep the calls in question and the room's actor keep the room attended to. */
  lemma StillAttended(s: System, s': System, room: RoomId, excused: set<RoomId>)
    requires AttendedTo(s, room, excused) && room in s'.cells && s'.cells[room] == s.cells[room] && s'.mail == s.mail
    requires forall id :: id in s.ops && (s.ops[id].Leaving? || s.ops[id].Joining? || s.ops[id].Undoing?) ==>
      id in s'.ops && s'.ops[id] == s.ops[id]
    ensures AttendedTo(s', room, excused)
  {
    if room !in excused && s.cells[room].actor.closed {
      var who :| Evicting(s, who, room);
      assert Evicting(s', who, room);
    } else if room !in excused && !s.cells[room].actor.hadMembers && !JoinQueued(s.cells[room]) {
      var who :| MovingIn(s, who, room);
      assert MovingIn(s', who, room);
    }
  }

  lemma BeginAttends(s: System, id: OpId, op: Op, room: RoomId, excused: set<RoomId>)
    requires AttendedTo(s, room, excused) && id !in s.ops && Startable(s, op) && room in s.registry
    ensures AttendedTo(Begun(s, id, op), room, excused)
  {
    StillAttended(s, Begun(s, id, op), room, excused);
  }

  lemma SnapshotAttends(s: System, id: OpId, order: seq<RoomId>, s': System, room: RoomId, excused: set<RoomId>)
    requires AttendedTo(s, room, excused) && Next(s, Snapshot(id, order), s')
    ensures AttendedTo(s', room, excused)
  {
    StillAttended(s, s', room, excused);
  }

  /** A creating call whose Join is queued may go: the Join will be served. */
  lemma WaitingJoinIsQueued(s: System, id: OpId)
    requires Inv(s) && id in s.ops && s.ops[id].Joining? && s.ops[id].join == JoinWait
    requires s.ops[id].room in s.cells
    requires !s.cells[s.ops[id].room].actor.closed && !s.cells[s.ops[id].room].actor.hadMembers
    ensures JoinQueued(s.cells[s.ops[id].room])
  {
    var room := s.ops[id].room;
    var cell := s.cells[room];
    assert OpOk(s, id, s.ops[id]) && CellOk(s, room, cell);
    assert Queued(cell, id);
    var i :| 0 <= i < |cell.queue| && WantsReply(cell.queue[i]) && cell.queue[i].reply == id;
    assert CommandOk(s, room, cell.queue[i]);
  }

  lemma AbortAttends(s: System, id: OpId, s': System, room: RoomId, excused: set<RoomId>)
    requires Inv(s) && Next(s, Abort(id), s') && room in s.registry && AttendedTo(s, room, excused)
    ensures AttendedTo(s', room, excused + Excuse(s, Abort(id)))
  {
    if room !in excused + Excuse(s, Abort(id)) {
      if s.cells[room].actor.closed {
        var who :| Evicting(s, who, room);
        assert Evicting(s', who, room);
      } else if !s.cells[room].actor.hadMembers && !JoinQueued(s.cells[room]) {
        var who :| MovingIn(s, who, room);
        if who == id {
          WaitingJoinIsQueued(s, id);
        }
        assert MovingIn(s', who, room);
      }
    }
  }

  // ---- Departures left behind ----

  lemma AbortLeaves(s: System, id: OpId, s': System, room: RoomId, excused: set<RoomId>)
    requires Inv(s) && Next(s, Abort(id), s') && LeavesExcused(s, room, excused)
    ensures LeavesExcused(s', room, excused + Excuse(s, Abort(id)))
  {
    if room in s.cells && room !in excused + Excuse(s, Abort(id)) {
      var cell := s.cells[room];
      assert CellOk(s, room, cell);
      forall i | 0 <= i < |cell.queue|
        ensures !AbandonedLeave(s', cell.queue[i])
      {
        assert CommandOk(s, room, cell.queue[i]) && !AbandonedLeave(s, cell.queue[i]);
      }
    }
  }

  /** A call that goes on queues no abandoned departure, and makes none of the queued ones so. */
  lemma AdvanceLeaves(s: System, id: OpId, s': System, room: RoomId, excused: set<RoomId>)
    requires id in s.ops && Advanced(s, id, s.ops[id]) == Some(s') && LeavesExcused(s, room, excused)
    ensures LeavesExcused(s', room, excused)
  {
    CallIsLocal(s, id, s.ops[id], s');
    if room in s.cells && room !in excused {
      GrownLeaves(s, s', s.cells[room].queue, s'.cells[room].queue, id, s.ops[id]);
    }
  }

  lemma GrownLeaves(s: System, s': System, queue: seq<Command>, queue': seq<Command>, id: OpId, op: Op)
    requires GrewBy(queue, queue', id, op) && id in s'.ops && !s'.ops[id].Aborted? && s'.ops == s.ops[id := s'.ops[id]]
    requires forall i :: 0 <= i < |queue| ==> !AbandonedLeave(s, queue[i])
    ensures forall i :: 0 <= i < |queue'| ==> !AbandonedLeave(s', queue'[i])
  {
    forall i | 0 <= i < |queue'| ensures !AbandonedLeave(s', queue'[i]) {
      if i < |queue| {
        assert queue' == queue || queue'[..|queue|][i] == queue[i];
        assert !AbandonedLeave(s, queue[i]);
      }
    }
  }

  lemma QuietLeaves(s: System, s': System, room: RoomId, excused: set<RoomId>)
    requires LeavesExcused(s, room, excused) && (room in s'.cells ==> room in s.cells || s'.cells[room].queue == [])
    requires room in s'.cells && room in s.cells ==>
      forall i :: 0 <= i < |s'.cells[room].queue| ==> s'.cells[room].queue[i] in s.cells[room].queue
    requires forall id :: id in s'.ops && s'.ops[id].Aborted? ==> id in s.ops && s.ops[id].Aborted?
    ensures LeavesExcused(s', room, excused)
  {
    if room in s'.cells && room in s.cells && room !in excused {
      forall i | 0 <= i < |s'.cells[room].queue|
        ensures !AbandonedLeave(s', s'.cells[room].queue[i])
      {
        var c := s'.cells[room].queue[i];
        var k :| 0 <= k < |s.cells[room].queue| && s.cells[room].queue[k] == c;
        assert !AbandonedLeave(s, s.cells[room].queue[k]);
      }
    }
  }

  lemma BeginLeaves(s: System, id: OpId, op: Op, room: RoomId, excused: set<RoomId>)
    requires id !in s.ops && Startable(s, op) && LeavesExcused(s, room, excused)
    ensures LeavesExcused(Begun(s, id, op), room, excused)
  {
    QuietLeaves(s, Begun(s, id, op), room, excused);
  }

  lemma SnapshotLeaves(s: System, id: OpId, order: seq<RoomId>, s': System, room: RoomId, excused: set<RoomId>)
    requires Next(s, Snapshot(id, order), s') && LeavesExcused(s, room, excused)
    ensures LeavesExcused(s', room, excused)
  {
    QuietLeaves(s, s', room, excused);
  }

  lemma WorkLeaves(s: System, at: RoomId, s': System, room: RoomId, excused: set<RoomId>)
    requires at in s.cells && Worked(s, at) == Some(s') && LeavesExcused(s, room, excused)
    ensures LeavesExcused(s', room, excused)
  {
    QuietLeaves(s, s', room, excused);
  }

  lemma StepLeaves(s: System, l: Label, s': System, room: RoomId, excused: set<RoomId>)
    requires Inv(s) && Next(s, l, s') && LeavesExcused(s, room, excused)
    ensures LeavesExcused(s', room, excused + Excuse(s, l))
  {
    match l {
      case Begin(id, op) => BeginLeaves(s, id, op, room, excused);
      case Advance(id) => AdvanceLeaves(s, id, s', room, excused);
      case Snapshot(id, order) => SnapshotLeaves(s, id, order, s', room, excused);
      case Work(at) => WorkLeaves(s, at, s', room, excused);
      case Abort(id) => AbortLeaves(s, id, s', room, excused);
    }
  }

  // ---- Every step ----

  lemma StepAttends(s: System, l: Label, s': System, room: RoomId, excused: set<RoomId>)
    requires Inv(s) && Next(s, l, s') && room in s'.registry && LeavesExcused(s, room, excused)
    requires room in s.registry ==> AttendedTo(s, room, excused)
    ensures AttendedTo(s', room, excused + Excuse(s, l))
  {
    match l {
      case Begin(id, op) => BeginAttends(s, id, op, room, excused);
      case Advance(id) => AdvanceAttends(s, id, s', room, excused);
      case Snapshot(id, order) => SnapshotAttends(s, id, order, s', room, excused);
      case Work(at) => WorkAttends(s, at, s', room, excused);
      case Abort(id) => AbortAttends(s, id, s', room, excused);
    }
  }

  lemma StepTends(s: System, l: Label, s': System, excused: set<RoomId>)
    requires Tended(s, excused) && Next(s, l, s')
    ensures Tended(s', excused + Excuse(s, l))
  {
    StepOk(s, l, s');
    forall r ensures LeavesExcused(s', r, excused + Excuse(s, l)) {
      StepLeaves(s, l, s', r, excused);
    }
    forall r | r in s'.registry ensures AttendedTo(s', r, excused + Excuse(s, l)) {
      StepAttends(s, l, s', r, excused);
    }
  }

  // ---- Every run ----

  /** The rooms whose call was cancelled at a harmful point within the first `n` steps. */
  ghost function Excused(states: seq<System>, labels: seq<Label>, n: nat): set<RoomId>
    requires n <= |labels| && |labels| < |states|
  {
    if n == 0 then {} else Excused(states, labels, n - 1) + Excuse(states[n - 1], labels[n - 1])
  }

  /** A harmful cancellation of a call on the room, within the first `n` steps. */
  ghost predicate HarmedBefore(states: seq<System>, labels: seq<Label>, n: nat, room: RoomId)
    requires n <= |labels| && |labels| < |states|
  {
    exists i :: 0 <= i < n && room in Excuse(states[i], labels[i])
  }

  lemma {:induction false} ExcusedIsHarmed(states: seq<System>, labels: seq<Label>, n: nat, room: RoomId)
    requires n <= |labels| && |labels| < |states|
    ensures room in Excused(states, labels, n) <==> HarmedBefore(states, labels, n, room)
  {
    if n > 0 {
      ExcusedIsHarmed(states, labels, n - 1, room);
    }
  }

  lemma {:induction false} RunTends(states: seq<System>, labels: seq<Label>, n: nat)
    requires IsRun(states, labels) && StartsEmpty(states) && n < |states|
    ensures Tended(states[n], Excused(states, labels, n))
  {
    if n > 0 {
      RunTends(states, labels, n - 1);
      StepTends(states[n - 1], labels[n - 1], states[n], Excused(states, labels, n - 1));
    }
  }

  /** In every run, cancellations included: a closed room that is still registered has a departure in flight whose next
      steps remove it, unless a call on it was cancelled at a harmful point. */
  lemma ClosedRoomIsBeingEvicted(states: seq<System>, labels: seq<Label>, n: nat, room: RoomId)
    requires IsRun(states, labels) && StartsEmpty(states) && n < |states|
    requires room in states[n].registry && IsClosed(states[n], room)
    ensures HarmedBefore(states, labels, n, room) || exists id :: Evicting(states[n], id, room)
  {
    RunTends(states, labels, n);
    ExcusedIsHarmed(states, labels, n, room);
    assert AttendedTo(states[n], room, Excused(states, labels, n));
  }

  /** Nothing is in flight, nothing is queued, and every actor that lost its last sender has finished. */
  ghost predicate Quiescent(s: System) {
    && (forall id :: id in s.ops ==> Finished(s.ops[id]))
    && (forall r :: r in s.cells ==> s.cells[r].queue == [] && Worked(s, r) == None)
  }

  /** In use: open, with a member. */
  predicate InUse(s: System, room: RoomId) {
    room in s.cells && !s.cells[room].actor.closed && s.cells[room].actor.members != map[]
  }

  lemma OpenIsListedAtRest(s: System, room: RoomId)
    requires Inv(s) && Quiescent(s) && room in s.cells && !IsClosed(s, room)
    ensures room in s.registry
  {
    assert CellOk(s, room, s.cells[room]);
    assert !Senderless(s, room) ==> room in s.registry;
  }

  lemma ListedIsUsedAtRest(s: System, room: RoomId, excused: set<RoomId>)
    requires Tended(s, excused) && Quiescent(s) && room in s.registry && room !in excused
    ensures InUse(s, room)
  {
    var a := s.cells[room].actor;
    assert AttendedTo(s, room, excused) && CellOk(s, room, s.cells[room]);
    assert a.hadMembers && !a.closed && a.room.members != [];
    assert a.room.members[0] in a.members;
  }

  /** In every run, cancellations included, at rest: every open room is registered; and every registered room is open with
      a member, unless a call on it was cancelled at a harmful point: a creation after registering and before its
      Join was queued, or while taking the room back, or a departure after its Leave was queued and before it evicted. */
  lemma AtRestRegistryIsSound(states: seq<System>, labels: seq<Label>, n: nat, room: RoomId)
    requires IsRun(states, labels) && StartsEmpty(states) && n < |states| && Quiescent(states[n])
    ensures room in states[n].cells && !IsClosed(states[n], room) ==> room in states[n].registry
    ensures room in states[n].registry && !InUse(states[n], room) ==> HarmedBefore(states, labels, n, room)
  {
    RunTends(states, labels, n);
    ExcusedIsHarmed(states, labels, n, room);
    if room in states[n].cells && !IsClosed(states[n], room) {
      OpenIsListedAtRest(states[n], room);
    }
    if room in states[n].registry && room !in Excused(states, labels, n) {
      ListedIsUsedAtRest(states[n], room, Excused(states, labels, n));
    }
  }

  /** No call is cancelled at a harmful point; harmless cancellations are allowed. */
  ghost predicate Unharmed(states: seq<System>, labels: seq<Label>, n: nat)
    requires n <= |labels| && |labels| < |states|
  {
    forall i :: 0 <= i < n ==> Excuse(states[i], labels[i]) == {}
  }

  /** In every run without a harmful cancellation, at rest the registry lists exactly the open rooms, and each has a member. */
  lemma AtRestRegistryIsExact(states: seq<System>, labels: seq<Label>, n: nat)
    requires IsRun(states, labels) && StartsEmpty(states) && n < |states|
    requires Unharmed(states, labels, n) && Quiescent(states[n])
    ensures forall r :: r in states[n].registry <==> r in states[n].cells && !IsClosed(states[n], r)
    ensures forall r :: r in states[n].registry ==> InUse(states[n], r)
  {
    forall r
      ensures r in states[n].registry <==> r in states[n].cells && !IsClosed(states[n], r)
      ensures r in states[n].registry ==> InUse(states[n], r)
    {
      AtRestRegistryIsSound(states, labels, n, r);
    }
  }
}
