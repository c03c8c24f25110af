/** The room aggregate: an ordered member list with a capacity, and a lifecycle state.
    The value functions say what each operation does; class `Room` updates its fields in place. */
module RoomAggregate {
  import opened Prelude

  type PlayerId = nat
  type RoomId = nat

  datatype RoomState = Waiting | InProgress | Settling | Closed

  datatype DomainError =
    | RoomClosed(room: RoomId)
    | RoomFull(room: RoomId)
    | IllegalTransition(from: RoomState, to: RoomState)

  datatype RoomValue = RoomValue(id: RoomId, members: seq<PlayerId>, maxPlayers: nat, state: RoomState)

  /** A new room; the configured capacity is raised to at least one player. */
  function Opened(id: RoomId, maxPlayers: nat): RoomValue {
    RoomValue(id, [], if maxPlayers < 1 then 1 else maxPlayers, Waiting)
  }

  /** `Vec::retain` for everybody but `player`. */
  function Without(members: seq<PlayerId>, player: PlayerId): seq<PlayerId> {
    if members == [] then []
    else
      var last := members[|members| - 1];
      var front := Without(members[..|members| - 1], player);
      if last == player then front else front + [last]
  }

  function TryJoin(room: RoomValue, player: PlayerId): (RoomValue, Result<bool, DomainError>) {
    if room.state == Closed then (room, Err(RoomClosed(room.id)))
    else if player in room.members then (room, Ok(false))
    else if |room.members| >= room.maxPlayers then (room, Err(RoomFull(room.id)))
    else (room.(members := room.members + [player]), Ok(true))
  }

  function TryLeave(room: RoomValue, player: PlayerId): (RoomValue, Result<bool, DomainError>) {
    if room.state == Closed then (room, Err(RoomClosed(room.id)))
    else
      var kept := Without(room.members, player);
      (room.(members := kept), Ok(|kept| != |room.members|))
  }

  function TransitionTo(room: RoomValue, target: RoomState): (RoomValue, Result<(), DomainError>) {
    if (room.state == Waiting && target == InProgress)
       || (room.state == InProgress && target == Settling)
       || (room.state == Settling && target == Closed)
    then (room.(state := target), Ok(()))
    else (room, Err(IllegalTransition(room.state, target)))
  }

  function Shut(room: RoomValue): (RoomValue, bool) {
    if room.state == Closed then (room, false) else (room.(state := Closed), true)
  }

  // ---- What the operations mean ----

  ghost predicate ValidRoom(room: RoomValue) {
    && NoDuplicates(room.members)
    && |room.members| <= room.maxPlayers
    && 1 <= room.maxPlayers
  }

  /** `Without` removes exactly the occurrences of `player`, keeps the others in order,
      and gets shorter exactly when there was something to remove. */
  lemma {:induction false} WithoutRemoves(members: seq<PlayerId>, player: PlayerId)
    ensures forall q :: q in Without(members, player) <==> q in members && q != player
    ensures |Without(members, player)| <= |members|
    ensures |Without(members, player)| == |members| <==> player !in members
    ensures player !in members ==> Without(members, player) == members
    ensures NoDuplicates(members) ==> NoDuplicates(Without(members, player))
  {
    if members != [] {
      var front, last := members[..|members| - 1], members[|members| - 1];
      WithoutRemoves(front, player);
      assert members == front + [last];
      if NoDuplicates(members) {
        assert last !in front;
        assert last !in Without(front, player);
      }
    }
  }

  /** Every operation keeps the capacity bound and the absence of duplicates. */
  lemma JoinKeepsValid(room: RoomValue, player: PlayerId)
    requires ValidRoom(room)
    ensures ValidRoom(TryJoin(room, player).0)
  {
  }

  lemma LeaveKeepsValid(room: RoomValue, player: PlayerId)
    requires ValidRoom(room)
    ensures ValidRoom(TryLeave(room, player).0)
  {
    WithoutRemoves(room.members, player);
  }

  /** Leaving undoes a successful join, and says so. */
  lemma LeaveUndoesJoin(room: RoomValue, player: PlayerId)
    requires TryJoin(room, player).1 == Ok(true)
    ensures TryLeave(TryJoin(room, player).0, player) == (room, Ok(true))
  {
    WithoutRemoves(room.members, player);
    var joined := room.members + [player];
    assert joined[..|joined| - 1] == room.members;
  }

  datatype RoomCall = CallJoin(player: PlayerId) | CallLeave(player: PlayerId) | CallTransition(to: RoomState) | CallClose

  function Call(room: RoomValue, call: RoomCall): RoomValue {
    match call
    case CallJoin(p) => TryJoin(room, p).0
    case CallLeave(p) => TryLeave(room, p).0
    case CallTransition(to) => TransitionTo(room, to).0
    case CallClose => Shut(room).0
  }

  function CallAll(room: RoomValue, calls: seq<RoomCall>): RoomValue
    decreases |calls|
  {
    if calls == [] then room else CallAll(Call(room, calls[0]), calls[1..])
  }

  function Rank(state: RoomState): nat {
    match state case Waiting => 0 case InProgress => 1 case Settling => 2 case Closed => 3
  }

  /** Whatever is called on an opened room, it stays valid, its state never goes back,
      and once closed neither state nor members ever change again. */
  lemma {:induction false} RoomRuns(room: RoomValue, calls: seq<RoomCall>)
    requires ValidRoom(room)
    ensures ValidRoom(CallAll(room, calls))
    ensures CallAll(room, calls).id == room.id && CallAll(room, calls).maxPlayers == room.maxPlayers
    ensures Rank(room.state) <= Rank(CallAll(room, calls).state)
    ensures room.state == Closed ==> CallAll(room, calls) == room
    decreases |calls|
  {
    if calls != [] {
      match calls[0] {
        case CallJoin(p) => JoinKeepsValid(room, p);
        case CallLeave(p) => LeaveKeepsValid(room, p);
        case CallTransition(_) =>
        case CallClose =>
      }
      RoomRuns(Call(room, calls[0]), calls[1..]);
    }
  }

  lemma {:induction false} CallAllThen(room: RoomValue, calls: seq<RoomCall>, call: RoomCall)
    ensures CallAll(room, calls + [call]) == Call(CallAll(room, calls), call)
    decreases |calls|
  {
    if calls == [] {
      assert CallAll(room, [call]) == CallAll(Call(room, call), [call][1..]);
    } else {
      CallAllThen(Call(room, calls[0]), calls[1..], call);
      assert (calls + [call])[1..] == calls[1..] + [call];
    }
  }

  /** The places a room opened for `maxPlayers` has. */
  function Places(maxPlayers: nat): nat {
    if maxPlayers == 0 then 1 else maxPlayers
  }

  function Joins(players: seq<PlayerId>): (calls: seq<RoomCall>)
    ensures |calls| == |players|
  {
    seq(|players|, i requires 0 <= i < |players| => CallJoin(players[i]))
  }

  /** First come, first served: of different players who join a room opened for `n`, exactly the first `n` are let in, in
      that order, and each of the others is told that the room is full. */
  lemma {:induction false} FirstComeFirstServed(id: RoomId, maxPlayers: nat, players: seq<PlayerId>, k: nat)
    requires NoDuplicates(players) && k <= |players|
    ensures var room, let := CallAll(Opened(id, maxPlayers), Joins(players[..k])), Places(maxPlayers);
            && room.members == players[..if k <= let then k else let] && room.state == Waiting && room.id == id
            && (k < |players| ==> TryJoin(room, players[k]).1 == if k < let then Ok(true) else Err(RoomFull(id)))
  {
    var room := CallAll(Opened(id, maxPlayers), Joins(players[..k]));
    RoomRuns(Opened(id, maxPlayers), Joins(players[..k]));
    if k > 0 {
      FirstComeFirstServed(id, maxPlayers, players, k - 1);
      CallAllThen(Opened(id, maxPlayers), Joins(players[..k - 1]), CallJoin(players[k - 1]));
      assert Joins(players[..k]) == Joins(players[..k - 1]) + [CallJoin(players[k - 1])];
    } else {
      assert Joins(players[..0]) == [];
    }
  }

  /** A closed room turns everybody away, members included, and says so. */
  lemma ClosedRoomRefuses(room: RoomValue, player: PlayerId)
    requires room.state == Closed
    ensures TryJoin(room, player) == (room, Err(RoomClosed(room.id))) && TryLeave(room, player) == (room, Err(RoomClosed(room.id)))
  {
  }

  // ---- The aggregate as the program holds it ----

  class Room {
    const id: RoomId
    const maxPlayers: nat
    var members: seq<PlayerId>
    var state: RoomState

    ghost function Value(): RoomValue
      reads this
    {
      RoomValue(id, members, maxPlayers, state)
    }

    constructor Open(id: RoomId, maxPlayers: nat)
      ensures Value() == Opened(id, maxPlayers)
      ensures ValidRoom(Value()) && Value().id == id && Value().members == [] && Value().state == Waiting
      ensures Value().maxPlayers >= 1 && (maxPlayers >= 1 ==> Value().maxPlayers == maxPlayers)
    {
      this.id := id;
      this.maxPlayers := if maxPlayers < 1 then 1 else maxPlayers;
      members := [];
      state := Waiting;
    }

    method MemberCount() returns (count: nat)
      ensures count == |Value().members|
    {
      count := |members|;
    }

    method Join(player: PlayerId) returns (outcome: Result<bool, DomainError>)
      modifies this
      ensures (Value(), outcome) == TryJoin(old(Value()), player)
      ensures old(ValidRoom(Value())) ==> ValidRoom(Value())
      ensures outcome == Ok(true) ==> player in members && player !in old(members)
    {
      if state == Closed {
        return Err(RoomClosed(id));
      }
      if player in members {
        return Ok(false);
      }
      if |members| >= maxPlayers {
        return Err(RoomFull(id));
      }
      members := members + [player];
      outcome := Ok(true);
    }

    method Leave(player: PlayerId) returns (outcome: Result<bool, DomainError>)
      modifies this
      ensures (Value(), outcome) == TryLeave(old(Value()), player)
      ensures old(ValidRoom(Value())) ==> ValidRoom(Value())
      ensures outcome.Ok? ==> player !in members && (outcome.value <==> player in old(members))
    {
      WithoutRemoves(members, player);
      if state == Closed {
        return Err(RoomClosed(id));
      }
      var before := |members|;
      members := Without(members, player);
      outcome := Ok(|members| != before);
    }

    method Transition(target: RoomState) returns (outcome: Result<(), DomainError>)
      modifies this`state
      ensures (Value(), outcome) == TransitionTo(old(Value()), target)
      ensures outcome.Ok? <==> Rank(target) == Rank(old(state)) + 1
    {
      match (state, target) {
        case (Waiting, InProgress) => state := target; outcome := Ok(());
        case (InProgress, Settling) => state := target; outcome := Ok(());
        case (Settling, Closed) => state := target; outcome := Ok(());
        case _ => outcome := Err(IllegalTransition(state, target));
      }
    }

    method Close() returns (changed: bool)
      modifies this`state
      ensures (Value(), changed) == Shut(old(Value()))
      ensures state == Closed && (changed <==> old(state) != Closed)
    {
      changed := state != Closed;
      state := Closed;
    }
  }
}
