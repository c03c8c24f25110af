/** Rest is reached: as long as something is in flight or queued, some step can be taken, and without new calls only so many
    steps can be. */
module RoomServiceProgress {
  import opened Prelude
  import opened RoomAggregate
  import opened RoomActors
  import opened RoomService
  import opened RoomServiceInvariant
  import opened RoomServiceQuiescence

  // ---- Something can always be done ----

  /** An actor that has nothing to do is gone, or waits with an empty queue. */
  lemma IdleActor(s: System, room: RoomId)
    requires Inv(s) && room in s.cells && Worked(s, room) == None
    ensures s.cells[room].queue == [] && (s.cells[room].phase.Idle? || s.cells[room].phase.Stopped?)
  {
    assert CellOk(s, room, s.cells[room]);
  }

  lemma JoinCanAdvance(s: System, id: OpId)
    requires Inv(s) && s.capacity > 0 && id in s.ops && s.ops[id].Joining?
    requires forall r :: r in s.cells ==> Worked(s, r) == None
    ensures AdvanceJoin(s, id, s.ops[id]).Some?
  {
    var op := s.ops[id];
    assert OpOk(s, id, op);
    if op.room in s.cells {
      IdleActor(s, op.room);
    }
  }

  lemma LeaveCanAdvance(s: System, id: OpId)
    requires Inv(s) && s.capacity > 0 && id in s.ops && s.ops[id].Leaving?
    requires forall r :: r in s.cells ==> Worked(s, r) == None
    ensures AdvanceLeave(s, id, s.ops[id]).Some?
  {
    var op := s.ops[id];
    assert OpOk(s, id, op);
    if op.room in s.cells {
      IdleActor(s, op.room);
    }
  }

  /** Once no actor has anything to do, every call that is not over can go on. */
  lemma CallCanAdvance(s: System, id: OpId)
    requires Inv(s) && s.capacity > 0 && id in s.ops && !Finished(s.ops[id])
    requires !s.ops[id].LeavingAll? && !s.ops[id].ClosingAll?
    requires forall r :: r in s.cells ==> Worked(s, r) == None
    ensures Advanced(s, id, s.ops[id]).Some?
  {
    var op := s.ops[id];
    assert OpOk(s, id, op);
    match op {
      case Joining(_, _, _, _) => JoinCanAdvance(s, id);
      case Leaving(_, _, _, _, _, _) => LeaveCanAdvance(s, id);
      case Closing(_, rest) =>
        if rest != [] {
          assert Holds(op, rest[0]);
          IdleActor(s, rest[0]);
        }
      case Chatting(_, _, room, found) =>
        if found {
          assert Holds(op, room);
        }
      case _ =>
    }
  }

  lemma {:induction false} SetCanBeListed(rooms: set<RoomId>) returns (order: seq<RoomId>)
    ensures Lists(order, rooms)
    decreases rooms
  {
    if rooms == {} {
      order := [];
    } else {
      var r :| r in rooms;
      var front := SetCanBeListed(rooms - {r});
      order := front + [r];
      forall x ensures x in order <==> x in rooms {
        assert x in order <==> x in front || x == r;
      }
    }
  }

  lemma SnapshotCanBeTaken(s: System, id: OpId) returns (l: Label, s': System)
    requires id in s.ops && (s.ops[id].LeavingAll? || s.ops[id].ClosingAll?)
    ensures Next(s, l, s') && l.Snapshot?
  {
    if s.ops[id].LeavingAll? {
      var order := SetCanBeListed(LiveRooms(s));
      l, s' := Snapshot(id, order), Listed(s, id, order);
    } else {
      var order := SetCanBeListed(s.registry);
      l, s' := Snapshot(id, order), Drained(s, id, order);
    }
  }

  /** With queues that hold anything at all: unless everything is at rest, somebody can take a step, without a new call and
      without cancelling one. */
  lemma SomebodyCanStep(s: System) returns (l: Label, s': System)
    requires Inv(s) && s.capacity > 0 && !Quiescent(s)
    ensures Next(s, l, s') && !l.Begin? && !l.Abort?
  {
    if r :| r in s.cells && Worked(s, r) != None {
      l, s' := Work(r), Worked(s, r).value;
    } else {
      forall r | r in s.cells ensures s.cells[r].queue == [] {
        IdleActor(s, r);
      }
      var id :| id in s.ops && !Finished(s.ops[id]);
      if s.ops[id].LeavingAll? || s.ops[id].ClosingAll? {
        l, s' := SnapshotCanBeTaken(s, id);
      } else {
        CallCanAdvance(s, id);
        l, s' := Advance(id), Advanced(s, id, s.ops[id]).value;
      }
    }
  }

  // ---- Only so much can be done ----

  ghost function Sum(m: map<nat, nat>): nat {
    if m == map[] then 0
    else
      var k :| k in m;
      m[k] + Sum(m - {k})
  }

  lemma {:induction false} SumWithout(m: map<nat, nat>, k: nat)
    requires k in m
    ensures Sum(m) == m[k] + Sum(m - {k})
    decreases |m|
  {
    var first :| first in m && Sum(m) == m[first] + Sum(m - {first});
    if first != k {
      SumWithout(m - {first}, k);
      SumWithout(m - {k}, first);
      assert (m - {first}) - {k} == (m - {k}) - {first};
    }
  }

  lemma SumChanged(m: map<nat, nat>, k: nat, v: nat)
    requires k in m
    ensures Sum(m[k := v]) + m[k] == Sum(m) + v
  {
    SumWithout(m, k);
    SumWithout(m[k := v], k);
    assert m[k := v] - {k} == m - {k};
  }

  function PhaseWeight(phase: Phase): nat {
    match phase
    case Idle => 2
    case Replying(_, _, _) => 4
    case Stopping => 1
    case Stopped => 0
  }

  /** Bounds the steps an actor can still take. */
  function CellWeight(cell: Cell): nat {
    5 * |cell.queue| + PhaseWeight(cell.phase)
  }

  function JoinWeight(stage: JoinStage): nat {
    match stage
    case JoinLookup => 9
    case JoinSend => 8
    case JoinWait => 2
    case JoinPublish => 1
  }

  function LeaveWeight(stage: LeaveStage): nat {
    match stage
    case LeaveLookup => 10
    case LeaveSend => 9
    case LeaveWait => 3
    case LeaveEvict(_) => 2
    case LeavePublish => 1
  }

  /** Bounds the steps a call can still take, and five for each command it can still queue; `rooms` bounds what a look round
      the registry can find. */
  function OpWeight(op: Op, rooms: nat): nat {
    match op
    case Registering(_, _) => 10
    case Joining(_, _, _, stage) => JoinWeight(stage)
    case Undoing(_, _, _) => 1
    case Leaving(_, _, _, _, rest, stage) => LeaveWeight(stage) + 10 * |rest|
    case LeavingAll(_, _) => 10 * rooms + 1
    case ClosingAll(_) => 6 * rooms + 2
    case Closing(_, rest) => 6 * |rest| + 1
    case Chatting(_, _, _, found) => if found then 6 else 7
    case _ => 0
  }

  function WeightsOf(ops: map<OpId, Op>, rooms: nat): map<nat, nat> {
    map id | id in ops :: OpWeight(ops[id], rooms)
  }

  function OpWeights(s: System): map<nat, nat> {
    WeightsOf(s.ops, |s.cells|)
  }

  function CellWeights(s: System): map<nat, nat> {
    WeightsOfCells(s.cells)
  }

  function WeightsOfCells(cells: map<RoomId, Cell>): map<nat, nat> {
    map r | r in cells :: CellWeight(cells[r])
  }

  ghost function Weight(s: System): nat {
    Sum(OpWeights(s)) + Sum(CellWeights(s))
  }

  lemma OpsLighter(s: System, s': System, id: OpId)
    requires id in s.ops && id in s'.ops && s'.ops == s.ops[id := s'.ops[id]] && |s'.cells| == |s.cells|
    ensures Sum(OpWeights(s')) + OpWeight(s.ops[id], |s.cells|) == Sum(OpWeights(s)) + OpWeight(s'.ops[id], |s.cells|)
  {
    var w := OpWeight(s'.ops[id], |s.cells|);
    SumChanged(OpWeights(s), id, w);
    WeightsChange(s.ops, s'.ops, id, |s.cells|);
  }

  lemma WeightsChange(ops: map<OpId, Op>, ops': map<OpId, Op>, id: OpId, rooms: nat)
    requires id in ops && id in ops' && ops' == ops[id := ops'[id]]
    ensures WeightsOf(ops', rooms) == WeightsOf(ops, rooms)[id := OpWeight(ops'[id], rooms)]
  {
  }

  lemma CellsLighter(s: System, s': System, room: RoomId)
    requires room in s.cells && room in s'.cells && s'.cells == s.cells[room := s'.cells[room]]
    ensures Sum(CellWeights(s')) + CellWeight(s.cells[room]) == Sum(CellWeights(s)) + CellWeight(s'.cells[room])
    ensures |s'.cells| == |s.cells|
  {
    CellsChange(s.cells, s'.cells, room);
    SumChanged(CellWeights(s), room, CellWeight(s'.cells[room]));
  }

  lemma CellsChange(cells: map<RoomId, Cell>, cells': map<RoomId, Cell>, room: RoomId)
    requires room in cells && room in cells' && cells' == cells[room := cells'[room]]
    ensures WeightsOfCells(cells') == WeightsOfCells(cells)[room := CellWeight(cells'[room])] && |cells'| == |cells|
  {
    assert cells'.Keys == cells.Keys;
    assert |cells'| == |cells'.Keys| && |cells| == |cells.Keys|;
  }

  /** A call moves on, and no queue is touched. */
  lemma MoveCosts(s: System, id: OpId, registry: set<RoomId>, mail: map<OpId, Reply>, next: Op)
    requires id in s.ops && OpWeight(next, |s.cells|) < OpWeight(s.ops[id], |s.cells|)
    ensures Weight(SetOp(s.(registry := registry, mail := mail), id, next)) < Weight(s)
  {
    var s' := SetOp(s.(registry := registry, mail := mail), id, next);
    OpsLighter(s, s', id);
    assert CellWeights(s') == CellWeights(s);
  }

  lemma SendCosts(s: System, id: OpId, room: RoomId, c: Command, next: Op)
    requires id in s.ops && room in s.cells && OpWeight(next, |s.cells|) + 5 < OpWeight(s.ops[id], |s.cells|)
    ensures Weight(SetOp(Enqueue(s, room, c), id, next)) < Weight(s)
  {
    var s' := SetOp(Enqueue(s, room, c), id, next);
    CellsLighter(s, s', room);
    OpsLighter(s, s', id);
    assert CellWeight(s'.cells[room]) == CellWeight(s.cells[room]) + 5;
  }

  lemma JoinCosts(s: System, id: OpId, s': System)
    requires id in s.ops && s.ops[id].Joining? && AdvanceJoin(s, id, s.ops[id]) == Some(s')
    ensures Weight(s') < Weight(s)
  {
    var op := s.ops[id];
    if op.join == JoinSend && !s.cells[op.room].phase.Stopped? {
      SendCosts(s, id, op.room, RoomCommand.Join(op.guest.player, op.guest.nickname, op.guest.sink, id), s'.ops[id]);
    } else {
      MoveCosts(s, id, s'.registry, s'.mail, s'.ops[id]);
    }
  }

  lemma LeaveCosts(s: System, id: OpId, s': System)
    requires id in s.ops && s.ops[id].Leaving? && AdvanceLeave(s, id, s.ops[id]) == Some(s')
    ensures Weight(s') < Weight(s)
  {
    var op := s.ops[id];
    if op.leave == LeaveSend && !s.cells[op.room].phase.Stopped? {
      SendCosts(s, id, op.room, RoomCommand.Leave(op.player, op.reason, id), s'.ops[id]);
    } else {
      LeaveMoves(s, id, op, s');
      LeaveGetsLighter(s, id, s');
      MoveCosts(s, id, s'.registry, s'.mail, s'.ops[id]);
    }
  }

  lemma LeaveGetsLighter(s: System, id: OpId, s': System)
    requires id in s.ops && s.ops[id].Leaving? && AdvanceLeave(s, id, s.ops[id]) == Some(s')
    requires s.ops[id].leave != LeaveSend || s.cells[s.ops[id].room].phase.Stopped?
    ensures id in s'.ops && OpWeight(s'.ops[id], |s.cells|) < OpWeight(s.ops[id], |s.cells|)
  {
    NextLeaveIsLighter(s.ops[id], |s.cells|);
  }

  lemma NextLeaveIsLighter(op: Op, rooms: nat)
    requires op.Leaving?
    ensures OpWeight(NextLeave(op), rooms) < OpWeight(op, rooms)
  {
  }

  lemma ClosingCosts(s: System, id: OpId, s': System)
    requires id in s.ops && s.ops[id].Closing? && AdvanceClosing(s, id, s.ops[id]) == Some(s')
    ensures Weight(s') < Weight(s)
  {
    var op := s.ops[id];
    if op.rest != [] && !s.cells[op.rest[0]].phase.Stopped? {
      SendCosts(s, id, op.rest[0], RoomCommand.Close(op.reason), s'.ops[id]);
    } else {
      MoveCosts(s, id, s'.registry, s'.mail, s'.ops[id]);
    }
  }

  lemma ChatCosts(s: System, id: OpId, s': System)
    requires id in s.ops && s.ops[id].Chatting? && AdvanceChat(s, id, s.ops[id]) == Some(s')
    ensures Weight(s') < Weight(s)
  {
    var op, trimmed := s.ops[id], Trim(s.ops[id].text);
    if SayableChat(trimmed) && op.found && !s.cells[op.room].phase.Stopped? && |s.cells[op.room].queue| < s.capacity {
      SendCosts(s, id, op.room, RoomCommand.Chat(op.player, trimmed), s'.ops[id]);
    } else {
      MoveCosts(s, id, s'.registry, s'.mail, s'.ops[id]);
    }
  }

  lemma AdvanceCosts(s: System, id: OpId, s': System)
    requires id in s.ops && Advanced(s, id, s.ops[id]) == Some(s')
    ensures Weight(s') < Weight(s)
  {
    match s.ops[id] {
      case Joining(_, _, _, _) => JoinCosts(s, id, s');
      case Leaving(_, _, _, _, _, _) => LeaveCosts(s, id, s');
      case Closing(_, _) => ClosingCosts(s, id, s');
      case Chatting(_, _, _, _) => ChatCosts(s, id, s');
      case Registering(_, _) => MoveCosts(s, id, s'.registry, s'.mail, s'.ops[id]);
      case Undoing(_, _, _) => MoveCosts(s, id, s'.registry, s'.mail, s'.ops[id]);
      case _ => assert false;
    }
  }

  lemma {:induction false} ListIsNoLonger(order: seq<RoomId>, rooms: set<RoomId>)
    requires NoDuplicates(order) && forall r :: r in order ==> r in rooms
    ensures |order| <= |rooms|
    decreases |order|
  {
    if order != [] {
      var front, last := order[..|order| - 1], order[|order| - 1];
      forall r | r in front ensures r in rooms - {last} {
        assert r in order;
      }
      ListIsNoLonger(front, rooms - {last});
    }
  }

  lemma ListedCosts(s: System, id: OpId, order: seq<RoomId>)
    requires id in s.ops && s.ops[id].LeavingAll? && |order| <= |s.cells|
    ensures Weight(Listed(s, id, order)) < Weight(s)
  {
    var op := s.ops[id];
    var next := if order == [] then LeaveDone(Ok(())) else Leaving(op.player, op.reason, order[0], true, order[1..], LeaveLookup);
    MoveCosts(s, id, LiveRooms(s), s.mail, next);
  }

  lemma DrainedCosts(s: System, id: OpId, order: seq<RoomId>)
    requires id in s.ops && s.ops[id].ClosingAll? && |order| <= |s.cells|
    ensures Weight(Drained(s, id, order)) < Weight(s)
  {
    MoveCosts(s, id, {}, s.mail, Closing(s.ops[id].reason, order));
  }

  lemma SnapshotCosts(s: System, id: OpId, order: seq<RoomId>, s': System)
    requires s.registry <= s.cells.Keys && Next(s, Snapshot(id, order), s')
    ensures Weight(s') < Weight(s)
  {
    ListIsNoLonger(order, s.cells.Keys);
    assert |s.cells| == |s.cells.Keys|;
    if s.ops[id].LeavingAll? {
      ListedCosts(s, id, order);
    } else {
      DrainedCosts(s, id, order);
    }
  }

  lemma AbortCosts(s: System, id: OpId)
    requires id in s.ops && !Finished(s.ops[id])
    ensures Weight(SetOp(s, id, Aborted)) < Weight(s)
  {
    MoveCosts(s, id, s.registry, s.mail, Aborted);
  }

  lemma WorkedIsLighter(s: System, room: RoomId, s': System)
    requires room in s.cells && Worked(s, room) == Some(s')
    ensures room in s'.cells && s'.cells == s.cells[room := s'.cells[room]] && s'.ops == s.ops
    ensures CellWeight(s'.cells[room]) < CellWeight(s.cells[room])
  {
  }

  lemma WorkCosts(s: System, room: RoomId, s': System)
    requires room in s.cells && Worked(s, room) == Some(s')
    ensures Weight(s') < Weight(s)
  {
    WorkedIsLighter(s, room, s');
    CellsLighter(s, s', room);
    assert OpWeights(s') == OpWeights(s);
  }

  /** Every step other than a new call makes the system lighter. */
  lemma StepCosts(s: System, l: Label, s': System)
    requires s.registry <= s.cells.Keys && Next(s, l, s') && !l.Begin?
    ensures Weight(s') < Weight(s)
  {
    match l {
      case Advance(id) => AdvanceCosts(s, id, s');
      case Snapshot(id, order) => SnapshotCosts(s, id, order, s');
      case Work(room) => WorkCosts(s, room, s');
      case Abort(id) => AbortCosts(s, id);
    }
  }

  /** In every run: from any point on, without new calls, the number of further steps is bounded by the weight at that
      point, whatever is cancelled and however the steps interleave. */
  lemma {:induction false} RunsOutOfSteps(states: seq<System>, labels: seq<Label>, m: nat, n: nat)
    requires IsRun(states, labels) && StartsEmpty(states) && m <= n < |states|
    requires forall i :: m <= i < n ==> !labels[i].Begin?
    ensures n - m + Weight(states[n]) <= Weight(states[m])
    decreases n
  {
    if m < n {
      RunsOutOfSteps(states, labels, m, n - 1);
      var capacity, maxPlayers :| states[0] == Initial(capacity, maxPlayers);
      RunOk(states, labels, n - 1);
      StepCosts(states[n - 1], labels[n - 1], states[n]);
    }
  }

  /** In every run with queues that hold anything at all: a state from which nobody can take a step other than starting or
      cancelling a call is at rest. With the bound above, rest is reached whenever calls stop coming. */
  lemma StuckIsAtRest(states: seq<System>, labels: seq<Label>, n: nat)
    requires IsRun(states, labels) && StartsEmpty(states) && n < |states| && states[n].capacity > 0
    requires forall l, s' :: Next(states[n], l, s') ==> l.Begin? || l.Abort?
    ensures Quiescent(states[n])
  {
    var capacity, maxPlayers :| states[0] == Initial(capacity, maxPlayers);
    RunOk(states, labels, n);
    if !Quiescent(states[n]) {
      var l, s' := SomebodyCanStep(states[n]);
    }
  }
}
