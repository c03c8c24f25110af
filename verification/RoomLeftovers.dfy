/** Runs in which a call is cancelled at a harmful point and its room stays in the registry: closed, or empty. */
module RoomLeftovers {
  import opened Prelude
  import opened RoomAggregate
  import opened RoomActors
  import opened RoomService
  import opened RoomServiceInvariant
  import opened RoomServiceQuiescence

  const GUEST := Guest(7, "", 0)

  function Empty(): Actor<SinkId> {
    Spawned(Opened(0, 1))
  }

  function Joined(): Actor<SinkId> {
    Actor(RoomValue(0, [7], 1, Waiting), map[7 := Member("", 0)], true, false)
  }

  function Left(): Actor<SinkId> {
    Actor(RoomValue(0, [], 1, RoomState.Closed), map[], true, true)
  }

  function Tale(listed: set<RoomId>, cell: Cell, ops: map<OpId, Op>, mail: map<OpId, Reply>): System {
    System(1, 1, listed, map[0 := cell], ops, mail)
  }

  function Entering(stage: JoinStage): Op {
    Joining(GUEST, 0, true, stage)
  }

  function Departing(stage: LeaveStage): Op {
    Leaving(7, "", 0, false, [], stage)
  }

  /** One player creates a room and joins it. */
  function EnterLabel(k: nat): Label
    requires k < 8
  {
    match k
    case 0 => Begin(0, Registering(GUEST, 0))
    case 4 => Work(0)
    case 5 => Work(0)
    case _ => Advance(0)
  }

  function EnterState(k: nat): System
    requires k < 9
  {
    var welcome := Reply.Joined(Ok(()));
    match k
    case 0 => Initial(1, 1)
    case 1 => Tale({}, Cell(Empty(), [], Idle), map[0 := Registering(GUEST, 0)], map[])
    case 2 => Tale({0}, Cell(Empty(), [], Idle), map[0 := Entering(JoinLookup)], map[])
    case 3 => Tale({0}, Cell(Empty(), [], Idle), map[0 := Entering(JoinSend)], map[])
    case 4 => Tale({0}, Cell(Empty(), [RoomCommand.Join(7, "", 0, 0)], Idle), map[0 := Entering(JoinWait)], map[])
    case 5 => Tale({0}, Cell(Joined(), [], Replying(0, welcome, false)), map[0 := Entering(JoinWait)], map[])
    case 6 => Tale({0}, Cell(Joined(), [], Idle), map[0 := Entering(JoinWait)], map[0 := welcome])
    case 7 => Tale({0}, Cell(Joined(), [], Idle), map[0 := Entering(JoinPublish)], map[])
    case 8 => Tale({0}, Cell(Joined(), [], Idle), map[0 := JoinDone(Ok(0))], map[])
  }

  lemma TableStays<T>(a: T, b: T)
    ensures map[0 := a][0 := b] == map[0 := b]
  {
  }

  lemma EnterBegins(k: nat)
    requires k < 4
    ensures Next(EnterState(k), EnterLabel(k), EnterState(k + 1))
  {
    match k {
      case 0 =>
        assert EnterState(1).cells == map[0 := FreshCell(0, 1)];
      case 1 =>
        TableStays<Op>(Registering(GUEST, 0), Entering(JoinLookup));
        assert {} + {0} == {0};
      case 2 => TableStays<Op>(Entering(JoinLookup), Entering(JoinSend));
      case 3 =>
        TableStays<Op>(Entering(JoinSend), Entering(JoinWait));
        assert EnterState(3).cells[0].queue + EnterState(4).cells[0].queue == EnterState(4).cells[0].queue;
        TableStays<Cell>(EnterState(3).cells[0], EnterState(4).cells[0]);
    }
  }

  lemma JoinIsServed()
    ensures AfterHandle(EnterState(4).cells[0]) == EnterState(5).cells[0]
  {
    assert [] + [7] == [7];
    assert Handle(Empty(), RoomCommand.Join(7, "", 0, 0)).next == Joined();
  }

  lemma EnterEnds(k: nat)
    requires 4 <= k < 8
    ensures Next(EnterState(k), EnterLabel(k), EnterState(k + 1))
  {
    match k {
      case 4 =>
        JoinIsServed();
        TableStays<Cell>(EnterState(4).cells[0], EnterState(5).cells[0]);
      case 5 => TableStays<Cell>(EnterState(5).cells[0], EnterState(6).cells[0]);
      case 6 =>
        TableStays<Op>(Entering(JoinWait), Entering(JoinPublish));
        assert EnterState(6).mail - {0} == map[];
      case 7 => TableStays<Op>(Entering(JoinPublish), JoinDone(Ok(0)));
    }
  }

  lemma EnterStep(k: nat)
    requires k < 8
    ensures Next(EnterState(k), EnterLabel(k), EnterState(k + 1))
  {
    if k < 4 {
      EnterBegins(k);
    } else {
      EnterEnds(k);
    }
  }

  /** A creation cancelled right after it has registered its room: at rest, the room is registered, open and empty. */
  lemma CancelledCreationLingers() returns (states: seq<System>, labels: seq<Label>)
    ensures IsRun(states, labels) && StartsEmpty(states) && |states| == 4 && Quiescent(states[3])
    ensures 0 in states[3].registry && 0 in states[3].cells && 0 in states[2].ops && !IsClosed(states[3], 0) && states[3].cells[0].actor.members == map[]
    ensures labels[2] == Abort(0) && states[2].ops[0] == Entering(JoinLookup)
  {
    var last := Tale({0}, Cell(Empty(), [], Idle), map[0 := Aborted], map[]);
    states := [EnterState(0), EnterState(1), EnterState(2), last];
    labels := [EnterLabel(0), EnterLabel(1), Abort(0)];
    EnterStep(0);
    EnterStep(1);
    TableStays<Op>(Entering(JoinLookup), Aborted);
  }

  /** The player then leaves, and the call is cancelled once its Leave is queued. */
  function DepartLabel(k: nat): Label
    requires k < 7
  {
    match k
    case 0 => Begin(1, Departing(LeaveLookup))
    case 1 => Advance(1)
    case 2 => Advance(1)
    case 3 => Abort(1)
    case _ => Work(0)
  }

  function Calls(op: Op): map<OpId, Op> {
    map[0 := JoinDone(Ok(0)), 1 := op]
  }

  function DepartState(k: nat): System
    requires k < 8
  {
    var goodbye := Reply.Left(Ok(true));
    match k
    case 0 => EnterState(8)
    case 1 => Tale({0}, Cell(Joined(), [], Idle), Calls(Departing(LeaveLookup)), map[])
    case 2 => Tale({0}, Cell(Joined(), [], Idle), Calls(Departing(LeaveSend)), map[])
    case 3 => Tale({0}, Cell(Joined(), [RoomCommand.Leave(7, "", 1)], Idle), Calls(Departing(LeaveWait)), map[])
    case 4 => Tale({0}, Cell(Joined(), [RoomCommand.Leave(7, "", 1)], Idle), Calls(Aborted), map[])
    case 5 => Tale({0}, Cell(Left(), [], Replying(1, goodbye, true)), Calls(Aborted), map[])
    case 6 => Tale({0}, Cell(Left(), [], Stopping), Calls(Aborted), map[1 := goodbye])
    case 7 => Tale({0}, Cell(Left(), [], Stopped), Calls(Aborted), map[1 := goodbye])
  }

  lemma CallsStay(a: Op, b: Op)
    ensures Calls(a)[1 := b] == Calls(b)
  {
  }

  lemma DepartBegins(k: nat)
    requires k < 4
    ensures Next(DepartState(k), DepartLabel(k), DepartState(k + 1))
  {
    match k {
      case 0 => assert map[0 := JoinDone(Ok(0))][1 := Departing(LeaveLookup)] == Calls(Departing(LeaveLookup));
      case 1 => CallsStay(Departing(LeaveLookup), Departing(LeaveSend));
      case 2 =>
        CallsStay(Departing(LeaveSend), Departing(LeaveWait));
        assert DepartState(2).cells[0].queue + DepartState(3).cells[0].queue == DepartState(3).cells[0].queue;
        TableStays<Cell>(DepartState(2).cells[0], DepartState(3).cells[0]);
      case 3 => CallsStay(Departing(LeaveWait), Aborted);
    }
  }

  lemma LeaveIsServed()
    ensures AfterHandle(DepartState(4).cells[0]) == DepartState(5).cells[0]
  {
    assert Without([7], 7) == Without([], 7) == [];
    assert map[7 := Member("", 0 as SinkId)] - {7} == map[];
    assert Handle(Joined(), RoomCommand.Leave(7, "", 1)).next == Left();
  }

  lemma DepartEnds(k: nat)
    requires 4 <= k < 7
    ensures Next(DepartState(k), DepartLabel(k), DepartState(k + 1))
  {
    match k {
      case 4 =>
        LeaveIsServed();
        TableStays<Cell>(DepartState(4).cells[0], DepartState(5).cells[0]);
      case 5 => TableStays<Cell>(DepartState(5).cells[0], DepartState(6).cells[0]);
      case 6 => TableStays<Cell>(DepartState(6).cells[0], DepartState(7).cells[0]);
    }
  }

  function WholeState(k: nat): System
    requires k < 16
  {
    if k < 8 then EnterState(k) else DepartState(k - 8)
  }

  function WholeLabel(k: nat): Label
    requires k < 15
  {
    if k < 8 then EnterLabel(k) else DepartLabel(k - 8)
  }

  lemma WholeStep(k: nat)
    requires k < 15
    ensures Next(WholeState(k), WholeLabel(k), WholeState(k + 1))
  {
    if k < 8 {
      EnterStep(k);
    } else if k < 12 {
      DepartBegins(k - 8);
    } else {
      DepartEnds(k - 8);
    }
  }

  lemma RestsClosed()
    ensures var s := WholeState(15); Quiescent(s) && 0 in s.registry && IsClosed(s, 0)
    ensures WholeState(0) == Initial(1, 1)
  {
  }

  /** A departure of the last member, cancelled once its Leave is queued: at rest, the room is closed and still registered. */
  lemma CancelledDepartureLingers() returns (states: seq<System>, labels: seq<Label>)
    ensures IsRun(states, labels) && StartsEmpty(states) && |states| == 16 && Quiescent(states[15])
    ensures 0 in states[15].registry && IsClosed(states[15], 0)
    ensures labels[11] == Abort(1) && 1 in states[11].ops && states[11].ops[1] == Departing(LeaveWait)
  {
    states := seq(16, k requires 0 <= k < 16 => WholeState(k));
    labels := seq(15, k requires 0 <= k < 15 => WholeLabel(k));
    forall k | 0 <= k < 15 ensures Next(states[k], labels[k], states[k + 1]) {
      WholeStep(k);
    }
    RestsClosed();
    assert states[0] == WholeState(0) && states[15] == WholeState(15) && states[11] == WholeState(11);
  }
}
