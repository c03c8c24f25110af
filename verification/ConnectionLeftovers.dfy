/** A history in which the clean-up of a dropped connection runs out of time: the connection registry is empty and the player is
    still in an open registered room. */
module ConnectionLeftovers {
  import opened Prelude
  import opened RoomAggregate
  import opened RoomService
  import opened RoomLeftovers
  import RoomCleanup
  import A = Admission
  import AI = AdmissionInvariant
  import C = ConnectionCleanup

  /** The task gets as far as serving, is bound and asks for a room; the room lets the player in; the task is
      aborted, and the clean-up it leaves behind is too late. */
  function Tell(k: nat): C.Event
    requires k < 17
  {
    if k < 5 then C.Gate(AI.LateLabel(k))
    else if k == 5 then C.Bind(0, 7)
    else if k == 6 then C.Ask(0, 0, Registering(GUEST, 0))
    else if k < 14 then C.Rooms(EnterLabel(k - 6))
    else if k == 14 then C.Stop(AI.LateLabel(6))
    else if k == 15 then C.Gate(AI.LateLabel(7))
    else C.EndCleanup(AI.LateLabel(8))
  }

  function TaskPart(k: nat): A.Server
    requires k < 18
  {
    if k <= 5 then AI.LateState(k) else if k <= 14 then AI.LateState(6) else AI.LateState(k - 8)
  }

  function RoomPart(k: nat): System
    requires k < 18
  {
    if k <= 6 then EnterState(0) else if k <= 14 then EnterState(k - 6) else EnterState(8)
  }

  function Whole(k: nat): C.Joint
    requires k < 18
  {
    C.Joint(TaskPart(k), RoomPart(k),
            if k <= 5 then map[] else map[0 := 7],
            if k <= 5 then map[] else map[7 := 0],
            if k <= 6 then map[] else map[0 := 0],
            map[])
  }

  lemma TaskSteps(k: nat)
    requires k < 6 || 14 <= k < 17
    ensures C.Happens(Whole(k), Tell(k), Whole(k + 1))
  {
    AI.LateStep(if k < 6 then k else k - 8);
  }

  lemma RoomSteps(k: nat)
    requires 6 <= k < 14
    ensures C.Happens(Whole(k), Tell(k), Whole(k + 1))
  {
    EnterStep(k - 6);
  }

  lemma EndsInside()
    ensures var j := Whole(17);
            && j.server.conns == map[] && RoomCleanup.OpenAndListed(j.rooms, 0) && 7 in j.rooms.cells[0].actor.members
            && 7 in j.latest && j.latest[7] in j.server.late
  {
  }

  lemma LateCleanupLeavesThePlayerInside() returns (states: seq<C.Joint>, events: seq<C.Event>)
    ensures C.IsHistory(states, events) && |states| == 18
    ensures states[17].server.conns == map[] && 7 in states[17].latest
    ensures RoomCleanup.OpenAndListed(states[17].rooms, 0) && 7 in states[17].rooms.cells[0].actor.members
  {
    states := seq(18, k requires 0 <= k < 18 => Whole(k));
    events := seq(17, k requires 0 <= k < 17 => Tell(k));
    forall k | 0 <= k < 17 ensures C.Happens(states[k], events[k], states[k + 1]) {
      if 6 <= k < 14 {
        RoomSteps(k);
      } else {
        TaskSteps(k);
      }
    }
    EndsInside();
    assert states[0] == Whole(0) && states[17] == Whole(17);
    assert C.Begins(Whole(0));
  }
}
