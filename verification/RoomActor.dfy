/** A member's event sink: a bounded queue plus a failure flag that is never lowered. */
module RoomSinks {
  import opened RoomAggregate

  datatype RoomEvent =
    | MemberJoined(room: RoomId, player: PlayerId, nickname: string)
    | MemberLeft(room: RoomId, player: PlayerId)
    | ChatSaid(room: RoomId, sender: PlayerId, nickname: string, text: string)
    | RoomShut(room: RoomId, reason: string)

  predicate JoinOf(e: RoomEvent, p: PlayerId) {
    e.MemberJoined? && e.player == p
  }

  predicate LeaveOf(e: RoomEvent, p: PlayerId) {
    e.MemberLeft? && e.player == p
  }

  /** `offered`, `accepted` and `taken` record everything ever passed to `try_send`, everything
      the queue took, and everything the receiver has removed. */
  datatype SinkValue = SinkValue(
    capacity: nat, queue: seq<RoomEvent>, open: bool, failed: bool,
    offered: seq<RoomEvent>, accepted: seq<RoomEvent>, taken: seq<RoomEvent>)

  function NewSink(capacity: nat): SinkValue {
    SinkValue(capacity, [], true, false, [], [], [])
  }

  function Offer(s: SinkValue, e: RoomEvent): SinkValue {
    if s.open && |s.queue| < s.capacity
    then s.(queue := s.queue + [e], offered := s.offered + [e], accepted := s.accepted + [e])
    else s.(failed := true, offered := s.offered + [e])
  }

  function Take(s: SinkValue): SinkValue {
    if s.queue == [] then s else s.(queue := s.queue[1..], taken := s.taken + [s.queue[0]])
  }

  function HangUp(s: SinkValue): SinkValue {
    s.(open := false, queue := [])
  }

  function OfferTimes(s: SinkValue, e: RoomEvent, times: nat): SinkValue {
    if times == 0 then s else Offer(OfferTimes(s, e, times - 1), e)
  }

  /** Each event in turn, `times` times each: what a sink sees when `times` members share it. */
  function OfferAll(s: SinkValue, events: seq<RoomEvent>, times: nat): SinkValue
    decreases |events|
  {
    if events == [] then s
    else OfferTimes(OfferAll(s, events[..|events| - 1], times), events[|events| - 1], times)
  }

  ghost predicate ValidSink(s: SinkValue) {
    && |s.queue| <= s.capacity
    && s.taken <= s.accepted
    && (if s.open then s.accepted == s.taken + s.queue else s.queue == [])
    && (!s.failed ==> s.accepted == s.offered)
  }

  lemma {:induction false} OfferAllKeepsValid(s: SinkValue, events: seq<RoomEvent>, times: nat)
    requires ValidSink(s)
    ensures ValidSink(OfferAll(s, events, times))
    ensures s.failed ==> OfferAll(s, events, times).failed
    ensures OfferAll(s, events, times).capacity == s.capacity
    decreases |events|, times
  {
    if events != [] {
      var front := events[..|events| - 1];
      OfferAllKeepsValid(s, front, times);
      OfferTimesKeepsValid(OfferAll(s, front, times), events[|events| - 1], times);
    }
  }

  lemma {:induction false} OfferTimesKeepsValid(s: SinkValue, e: RoomEvent, times: nat)
    requires ValidSink(s)
    ensures ValidSink(OfferTimes(s, e, times))
    ensures s.failed ==> OfferTimes(s, e, times).failed
    ensures OfferTimes(s, e, times).capacity == s.capacity
  {
    if times != 0 {
      OfferTimesKeepsValid(s, e, times - 1);
    }
  }

  /** With one member on the sink, the offered history simply grows by the events. */
  lemma {:induction false} OfferAllOnce(s: SinkValue, events: seq<RoomEvent>)
    ensures OfferAll(s, events, 1).offered == s.offered + events
    decreases |events|
  {
    if events != [] {
      var front, last := events[..|events| - 1], events[|events| - 1];
      OfferAllOnce(s, front);
      var mid := OfferAll(s, front, 1);
      assert OfferTimes(mid, last, 1) == Offer(OfferTimes(mid, last, 0), last);
      assert events == front + [last];
    }
  }

  lemma {:induction false} OfferAllNever(s: SinkValue, events: seq<RoomEvent>)
    ensures OfferAll(s, events, 0) == s
    decreases |events|
  {
    if events != [] {
      OfferAllNever(s, events[..|events| - 1]);
    }
  }

  lemma {:induction false} OfferAllOnlyAdds(s: SinkValue, events: seq<RoomEvent>, times: nat)
    ensures s.offered <= OfferAll(s, events, times).offered
    decreases |events|
  {
    if events != [] {
      var front := events[..|events| - 1];
      OfferAllOnlyAdds(s, front, times);
      OfferTimesOnlyAdds(OfferAll(s, front, times), events[|events| - 1], times);
    }
  }

  lemma {:induction false} OfferTimesOnlyAdds(s: SinkValue, e: RoomEvent, times: nat)
    ensures s.offered <= OfferTimes(s, e, times).offered
  {
    if times != 0 {
      OfferTimesOnlyAdds(s, e, times - 1);
    }
  }

  lemma {:induction false} OfferAllTakesNothing(s: SinkValue, events: seq<RoomEvent>, times: nat)
    ensures OfferAll(s, events, times).taken == s.taken
    decreases |events|
  {
    if events != [] {
      OfferAllTakesNothing(s, events[..|events| - 1], times);
      OfferTimesTakesNothing(OfferAll(s, events[..|events| - 1], times), events[|events| - 1], times);
    }
  }

  lemma {:induction false} OfferTimesTakesNothing(s: SinkValue, e: RoomEvent, times: nat)
    ensures OfferTimes(s, e, times).taken == s.taken
  {
    if times != 0 {
      OfferTimesTakesNothing(s, e, times - 1);
    }
  }

  datatype SinkCall = CallTrySend(event: RoomEvent) | CallTake | CallHangUp

  function SinkRun(s: SinkValue, calls: seq<SinkCall>): SinkValue
    decreases |calls|
  {
    if calls == [] then s
    else
      var next := match calls[0]
                  case CallTrySend(e) => Offer(s, e)
                  case CallTake => Take(s)
                  case CallHangUp => HangUp(s);
      SinkRun(next, calls[1..])
  }

  /** A lost event raises the failure flag, and nothing that happens later lowers it. */
  lemma {:induction false} LossIsSticky(s: SinkValue, calls: seq<SinkCall>)
    requires ValidSink(s)
    ensures ValidSink(SinkRun(s, calls))
    ensures s.accepted != s.offered ==> SinkRun(s, calls).failed
    ensures s.failed ==> SinkRun(s, calls).failed
    decreases |calls|
  {
    if calls != [] {
      match calls[0] {
        case CallTrySend(e) => LossIsSticky(Offer(s, e), calls[1..]);
        case CallTake => LossIsSticky(Take(s), calls[1..]);
        case CallHangUp => LossIsSticky(HangUp(s), calls[1..]);
      }
    }
  }

  /** The receiver has hung up, or lags behind by as many events as the queue holds. */
  predicate Choked(s: SinkValue) {
    !s.open || |s.queue| >= s.capacity
  }

  /** Some send of the calls meets a choked sink. */
  ghost predicate MeetsChoked(s: SinkValue, calls: seq<SinkCall>)
    decreases |calls|
  {
    calls != [] && ((calls[0].CallTrySend? && Choked(s)) || MeetsChoked(SinkRun(s, calls[..1]), calls[1..]))
  }

  /** The events sent by the calls. */
  function Sent(calls: seq<SinkCall>): seq<RoomEvent>
    decreases |calls|
  {
    if calls == [] then [] else (if calls[0].CallTrySend? then [calls[0].event] else []) + Sent(calls[1..])
  }

  lemma SinkRunNext(s: SinkValue, calls: seq<SinkCall>)
    requires calls != []
    ensures SinkRun(s, calls) == SinkRun(SinkRun(s, calls[..1]), calls[1..])
  {
    assert calls[..1][1..] == [];
  }

  /** A sink that has not failed fails if and only if some send meets a receiver that has hung up or lags behind by as
      many events as the queue holds. */
  lemma {:induction false} FailsExactlyWhenChoked(s: SinkValue, calls: seq<SinkCall>)
    ensures SinkRun(s, calls).failed <==> s.failed || MeetsChoked(s, calls)
    ensures SinkRun(s, calls).offered == s.offered + Sent(calls)
    decreases |calls|
  {
    if calls != [] {
      SinkRunNext(s, calls);
      assert calls[..1][1..] == [];
      FailsExactlyWhenChoked(SinkRun(s, calls[..1]), calls[1..]);
    }
  }

  /** A receiver that keeps up gets everything, in order: what it has taken and what still waits for it are all that was
      ever sent. */
  lemma {:induction false} KeepingUpLosesNothing(s: SinkValue, calls: seq<SinkCall>)
    requires ValidSink(s) && s.open && !s.failed && !MeetsChoked(s, calls)
    requires forall i :: 0 <= i < |calls| ==> !calls[i].CallHangUp?
    ensures var s' := SinkRun(s, calls);
            s'.open && !s'.failed && s'.taken + s'.queue == s.offered + Sent(calls)
  {
    LossIsSticky(s, calls);
    FailsExactlyWhenChoked(s, calls);
    StaysOpen(s, calls);
  }

  lemma {:induction false} StaysOpen(s: SinkValue, calls: seq<SinkCall>)
    requires s.open && forall i :: 0 <= i < |calls| ==> !calls[i].CallHangUp?
    ensures SinkRun(s, calls).open
    decreases |calls|
  {
    if calls != [] {
      SinkRunNext(s, calls);
      assert calls[..1][1..] == [];
      StaysOpen(SinkRun(s, calls[..1]), calls[1..]);
    }
  }

  function Takes(n: nat): seq<SinkCall> {
    seq(n, _ => CallTake)
  }

  /** As many receives as there are events waiting take them all. */
  lemma {:induction false} TakingEmptiesTheQueue(s: SinkValue)
    ensures SinkRun(s, Takes(|s.queue|)) == s.(queue := [], taken := s.taken + s.queue)
    decreases |s.queue|
  {
    if s.queue == [] {
      assert Takes(0) == [] && s.taken + [] == s.taken;
    } else {
      var next := Take(s);
      TakingEmptiesTheQueue(next);
      assert Takes(|s.queue|)[1..] == Takes(|next.queue|);
      assert (s.taken + [s.queue[0]]) + s.queue[1..] == s.taken + s.queue;
    }
  }

  class RoomEventSink {
    const capacity: nat
    var queue: seq<RoomEvent>
    var open: bool
    var failed: bool
    ghost var offered: seq<RoomEvent>
    ghost var accepted: seq<RoomEvent>
    ghost var taken: seq<RoomEvent>

    ghost function Value(): SinkValue
      reads this
    {
      SinkValue(capacity, queue, open, failed, offered, accepted, taken)
    }

    constructor (capacity: nat)
      ensures Value() == NewSink(capacity) && ValidSink(Value())
    {
      this.capacity := capacity;
      queue, open, failed := [], true, false;
      offered, accepted, taken := [], [], [];
    }

    method TrySend(event: RoomEvent)
      modifies this
      ensures Value() == Offer(old(Value()), event)
      ensures old(open && |queue| < capacity) ==> queue == old(queue) + [event] && failed == old(failed)
      ensures !old(open && |queue| < capacity) ==> queue == old(queue) && failed
      ensures open == old(open) && (old(ValidSink(Value())) ==> ValidSink(Value()))
    {
      if open && |queue| < capacity {
        queue := queue + [event];
        accepted := accepted + [event];
      } else {
        failed := true;
      }
      offered := offered + [event];
    }
  }
}

/** The room actor: the only owner of a room's state, serving one command at a time.
    `S` is whatever stands for a sink: a reference in the running program, an id in a model. */
module RoomActors {
  import opened Prelude
  import Texts
  import opened RoomAggregate
  import opened RoomSinks

  type ReplyId = nat

  const MAX_CHAT_CHARS := 512

  datatype Member<S> = Member(nickname: string, sink: S)

  datatype RoomCommand<S> =
    | Join(player: PlayerId, nickname: string, sink: S, reply: ReplyId)
    | Chat(player: PlayerId, text: string)
    | Leave(player: PlayerId, reason: string, reply: ReplyId)
    | Close(reason: string)

  datatype Reply = Joined(joined: Result<(), DomainError>) | Left(left: Result<bool, DomainError>)

  /** `closed` is the watch flag that every handle reads. */
  datatype Actor<S> = Actor(room: RoomValue, members: map<PlayerId, Member<S>>, hadMembers: bool, closed: bool)

  /** What serving one command does: the new state, the events broadcast and to whom,
      the reply if the command wants one, and whether the actor must stop. */
  datatype Effect<S> = Effect(
    next: Actor<S>, audience: map<PlayerId, Member<S>>, events: seq<RoomEvent>, reply: Option<Reply>, stop: bool)

  predicate IsWhitespace(c: char) {
    || c in " \t\n\r\U{0B}\U{0C}\U{85}\U{A0}\U{1680}\U{2028}\U{2029}\U{202F}\U{205F}\U{3000}"
    || '\U{2000}' <= c <= '\U{200A}'
  }

  function Trim(text: string): string {
    Texts.Trimmed(text, IsWhitespace)
  }

  predicate SayableChat(trimmed: string) {
    trimmed != [] && |trimmed| <= MAX_CHAT_CHARS
  }

  function Spawned<S>(room: RoomValue): Actor<S> {
    Actor(room, map[], false, false)
  }

  predicate Emptied<S>(a: Actor<S>) {
    a.hadMembers && |a.room.members| == 0
  }

  /** Close the aggregate once, tell the members, and raise the closed flag. */
  function Finish<S>(a: Actor<S>, reason: string): (Actor<S>, seq<RoomEvent>) {
    var (room, changed) := Shut(a.room);
    (a.(room := room, closed := true), if changed then [RoomShut(room.id, reason)] else [])
  }

  const LAST_MEMBER_LEFT := "最后一名成员已离开"
  const CHANNEL_CLOSED := "房间通道已关闭"

  function HandleJoin<S>(a: Actor<S>, player: PlayerId, nickname: string, sink: S): Effect<S> {
    var (room, outcome) := TryJoin(a.room, player);
    match outcome
    case Ok(true) =>
      var members := a.members[player := Member(nickname, sink)];
      var next := a.(room := room, members := members, hadMembers := true);
      Effect(next, members, [MemberJoined(room.id, player, nickname)], Some(Joined(Ok(()))), Emptied(next))
    case Ok(false) => Effect(a, a.members, [], Some(Joined(Ok(()))), Emptied(a))
    case Err(e) => Effect(a, a.members, [], Some(Joined(Err(e))), Emptied(a))
  }

  function HandleChat<S>(a: Actor<S>, player: PlayerId, text: string): Effect<S> {
    var trimmed := Trim(text);
    if player in a.members && SayableChat(trimmed)
    then Effect(a, a.members, [ChatSaid(a.room.id, player, a.members[player].nickname, trimmed)], None, Emptied(a))
    else Effect(a, a.members, [], None, Emptied(a))
  }

  function HandleLeave<S>(a: Actor<S>, player: PlayerId): Effect<S> {
    var (room, outcome) := TryLeave(a.room, player);
    match outcome
    case Ok(true) =>
      var left := a.(room := room);
      var (last, shut) := if Emptied(left) then Finish(left, LAST_MEMBER_LEFT) else (left, []);
      var next := last.(members := a.members - {player});
      Effect(next, a.members, [MemberLeft(room.id, player)] + shut, Some(Left(Ok(true))), Emptied(next))
    case Ok(false) => Effect(a, a.members, [], Some(Left(Ok(false))), Emptied(a))
    case Err(e) => Effect(a, a.members, [], Some(Left(Err(e))), Emptied(a))
  }

  function Handle<S>(a: Actor<S>, c: RoomCommand<S>): Effect<S> {
    match c
    case Join(player, nickname, sink, _) => HandleJoin(a, player, nickname, sink)
    case Chat(player, text) => HandleChat(a, player, text)
    case Leave(player, _, _) => HandleLeave(a, player)
    case Close(reason) =>
      var (next, shut) := Finish(a, reason);
      Effect(next, a.members, shut, None, true)
  }

  // ---- What holds at every command boundary ----

  ghost predicate ValidActor<S>(a: Actor<S>) {
    && ValidRoom(a.room)
    && (forall p :: p in a.members <==> p in a.room.members)
    && (a.closed <==> a.room.state == Closed)
    && (Emptied(a) ==> a.closed)
    && (!a.hadMembers ==> a.room.members == [])
  }

  lemma SpawnedIsValid<S>(id: RoomId, maxPlayers: nat)
    ensures ValidActor(Spawned<S>(Opened(id, maxPlayers)))
    ensures !Spawned<S>(Opened(id, maxPlayers)).closed
  {
  }

  /** Serving a command on a live actor keeps the member map equal to the aggregate's member list,
      the closed flag equal to the aggregate's state, and asks to stop exactly when the room closed.
      A leave never fails, and leaves the player out; a refused joiner is out as well. */
  lemma HandleKeepsValid<S>(a: Actor<S>, c: RoomCommand<S>)
    requires ValidActor(a) && !a.closed
    ensures ValidActor(Handle(a, c).next)
    ensures Handle(a, c).stop <==> Handle(a, c).next.closed
    ensures a.hadMembers ==> Handle(a, c).next.hadMembers
    ensures Handle(a, c).next.room.id == a.room.id && Handle(a, c).next.room.maxPlayers == a.room.maxPlayers
    ensures c.Leave? ==>
      && Handle(a, c).reply == Some(Left(Ok(c.player in a.members)))
      && c.player !in Handle(a, c).next.members
    ensures c.Join? ==>
      && Handle(a, c).reply.Some? && Handle(a, c).reply.value.Joined?
      && Handle(a, c).next.hadMembers
      && (Handle(a, c).reply.value.joined.Ok? <==> c.player in Handle(a, c).next.members)
      && !Handle(a, c).next.closed
    ensures c.Chat? || c.Close? ==> Handle(a, c).reply == None && Handle(a, c).next.members == a.members
    ensures c.Leave? && Handle(a, c).next.closed ==> c.player in a.members
    ensures forall q :: q in Handle(a, c).next.members <==>
      (c.Join? && q == c.player && Handle(a, c).reply.value.joined.Ok?)
      || (q in a.members && !(c.Leave? && q == c.player))
  {
    if c.Leave? {
      WithoutRemoves(a.room.members, c.player);
      LeaveKeepsValid(a.room, c.player);
    }
  }

  /** What a chat says, told from the text: a member's text with a core of one to 512 characters goes to everybody as that
      core, under the member's own name; any other chat goes to nobody. */
  lemma ChatSaysTheCore<S>(a: Actor<S>, player: PlayerId, text: string, pre: string, core: string, post: string)
    requires Texts.HasCore(text, pre, core, post, IsWhitespace)
    ensures var e := Handle(a, RoomCommand.Chat(player, text));
            && e.audience == a.members
            && e.events == if player in a.members && 1 <= |core| <= 512
                           then [ChatSaid(a.room.id, player, a.members[player].nickname, core)] else []
  {
    Texts.TrimIsCore(text, pre, core, post, IsWhitespace);
  }

  /** What the other commands say, told from who is a member: a newcomer is announced to everybody, itself included, under the
      name and with the sink it brought; a departure is announced to everybody including the leaver, followed by the
      closing if nobody remains; a closing gives the reason it was asked for. */
  lemma CommandsSay<S>(a: Actor<S>, c: RoomCommand<S>)
    requires ValidActor(a) && !a.closed
    ensures var e, id := Handle(a, c), a.room.id;
            match c
            case Join(p, nickname, sink, _) =>
              if p !in a.members && |a.room.members| < a.room.maxPlayers
              then e.events == [MemberJoined(id, p, nickname)] && e.audience == a.members[p := Member(nickname, sink)] == e.next.members
              else e.events == [] && e.next.members == a.members
            case Leave(p, _, _) =>
              && e.audience == a.members && e.next.members == a.members - {p}
              && e.events == if p !in a.members then []
                             else [MemberLeft(id, p)] + if a.room.members == [p] then [RoomShut(id, LAST_MEMBER_LEFT)] else []
            case Close(reason) => e.events == [RoomShut(id, reason)] && e.audience == a.members
            case Chat(_, _) => true
  {
    if c.Leave? {
      WithoutRemoves(a.room.members, c.player);
      if c.player in a.members {
        LeavesNobody(a.room.members, c.player);
      } else {
        assert a.members - {c.player} == a.members;
      }
    }
  }

  lemma LeavesNobody(members: seq<PlayerId>, p: PlayerId)
    requires NoDuplicates(members) && p in members
    ensures Without(members, p) == [] <==> members == [p]
  {
    WithoutRemoves(members, p);
    if |members| == 1 {
      assert members == [p] && Without(members, p) == Without(members[..0], p);
    } else {
      var k := if members[0] == p then 1 else 0;
      assert members[k] in Without(members, p);
    }
  }

  /** A log agrees with an actor when the room's closing is its last event and appears once,
      exactly if the room is closed; nothing is logged before the first member arrives. */
  ghost predicate LogAgrees<S>(log: seq<RoomEvent>, a: Actor<S>) {
    && (!a.hadMembers && !a.closed ==> log == [])
    && (forall i :: 0 <= i < |log| && log[i].RoomShut? ==> i == |log| - 1 && a.closed)
    && (a.closed ==> log != [] && log[|log| - 1].RoomShut?)
  }

  function ReplayEvent(before: seq<PlayerId>, e: RoomEvent): seq<PlayerId> {
    match e
    case MemberJoined(_, p, _) => before + [p]
    case MemberLeft(_, p) => Without(before, p)
    case _ => before
  }

  /** Membership rebuilt from nothing but the event log. */
  function Replay(log: seq<RoomEvent>): seq<PlayerId>
    decreases |log|
  {
    if log == [] then [] else ReplayEvent(Replay(log[..|log| - 1]), log[|log| - 1])
  }

  lemma ReplayAppend(log: seq<RoomEvent>, e: RoomEvent)
    ensures Replay(log + [e]) == ReplayEvent(Replay(log), e)
  {
    assert (log + [e])[..|log + [e]| - 1] == log;
  }

  /** Only members leave, only outsiders join, and nothing follows the closing. */
  ghost predicate Coherent(log: seq<RoomEvent>)
    decreases |log|
  {
    log != [] ==>
      var front, last := log[..|log| - 1], log[|log| - 1];
      && Coherent(front)
      && (last.MemberLeft? ==> last.player in Replay(front))
      && (last.MemberJoined? ==> last.player !in Replay(front))
      && (front != [] ==> !front[|front| - 1].RoomShut?)
  }

  lemma CoherentAppend(log: seq<RoomEvent>, e: RoomEvent)
    requires Coherent(log)
    requires e.MemberLeft? ==> e.player in Replay(log)
    requires e.MemberJoined? ==> e.player !in Replay(log)
    requires log != [] ==> !log[|log| - 1].RoomShut?
    ensures Coherent(log + [e])
  {
    assert (log + [e])[..|log + [e]| - 1] == log;
  }

  ghost predicate LogFits<S>(log: seq<RoomEvent>, a: Actor<S>) {
    Coherent(log) && LogAgrees(log, a) && Replay(log) == a.room.members
  }

  lemma EventExtendsLog<S>(a: Actor<S>, e: RoomEvent, log: seq<RoomEvent>, next: Actor<S>)
    requires Coherent(log) && Replay(log) == a.room.members
    requires forall i :: 0 <= i < |log| ==> !log[i].RoomShut?
    requires e.MemberLeft? ==> e.player in a.room.members
    requires e.MemberJoined? ==> e.player !in a.room.members
    requires next.room.members == ReplayEvent(a.room.members, e)
    requires next.closed <==> e.RoomShut?
    requires next.hadMembers || next.closed
    ensures LogFits(log + [e], next)
  {
    CoherentAppend(log, e);
    ReplayAppend(log, e);
  }

  lemma LeaveExtendsLog<S>(a: Actor<S>, player: PlayerId, log: seq<RoomEvent>)
    requires ValidActor(a) && !a.closed && LogFits(log, a)
    ensures LogFits(log + HandleLeave(a, player).events, HandleLeave(a, player).next)
  {
    var e := HandleLeave(a, player);
    WithoutRemoves(a.room.members, player);
    if e.events == [] {
      assert log + [] == log;
    } else {
      var left := a.(room := TryLeave(a.room, player).0);
      EventExtendsLog(a, e.events[0], log, left);
      if |e.events| == 2 {
        var mid := log + [e.events[0]];
        assert log + e.events == mid + [e.events[1]];
        EventExtendsLog(left, e.events[1], mid, e.next);
      } else {
        assert e.events == [e.events[0]];
      }
    }
  }

  lemma HandleExtendsLog<S>(a: Actor<S>, c: RoomCommand<S>, log: seq<RoomEvent>)
    requires ValidActor(a) && !a.closed && LogFits(log, a)
    ensures LogFits(log + Handle(a, c).events, Handle(a, c).next)
  {
    if c.Leave? {
      LeaveExtendsLog(a, c.player, log);
    } else {
      var events := Handle(a, c).events;
      if events == [] {
        assert log + [] == log;
      } else {
        EventExtendsLog(a, events[0], log, Handle(a, c).next);
        assert events == [events[0]];
      }
    }
  }

  // ---- A whole life of the actor: a fold of its command sequence ----

  datatype Transcript<S> = Transcript(
    actor: Actor<S>, log: seq<RoomEvent>, replies: seq<(ReplyId, Reply)>, stopped: bool)

  function Start<S>(room: RoomValue): Transcript<S> {
    Transcript(Spawned(room), [], [], false)
  }

  function RepliesOf<S>(c: RoomCommand<S>, reply: Option<Reply>): seq<(ReplyId, Reply)> {
    if reply.Some? && (c.Join? || c.Leave?) then [(c.reply, reply.value)] else []
  }

  /** Serve one command; when the actor stops, `run` calls `finish` once more and drops the channel,
      so later commands are never looked at. */
  function Serve<S>(t: Transcript<S>, c: RoomCommand<S>): Transcript<S> {
    if t.stopped then t
    else
      var e := Handle(t.actor, c);
      var (last, shut) := if e.stop then Finish(e.next, CHANNEL_CLOSED) else (e.next, []);
      Transcript(last, t.log + e.events + shut, t.replies + RepliesOf(c, e.reply), e.stop)
  }

  /** Every sender is gone and the queue is drained. */
  function EndOfCommands<S>(t: Transcript<S>): Transcript<S> {
    if t.stopped then t
    else
      var (last, shut) := Finish(t.actor, CHANNEL_CLOSED);
      t.(actor := last, log := t.log + shut, stopped := true)
  }

  /** What `recv` hands to the run loop: a command, or `None` once no sender is left. */
  type Signal<S> = Option<RoomCommand<S>>

  function Hear<S>(t: Transcript<S>, signal: Signal<S>): Transcript<S> {
    match signal case Some(c) => Serve(t, c) case None => EndOfCommands(t)
  }

  function Life<S>(t: Transcript<S>, signals: seq<Signal<S>>): Transcript<S>
    decreases |signals|
  {
    if signals == [] then t else Hear(Life(t, signals[..|signals| - 1]), signals[|signals| - 1])
  }

  ghost predicate ValidTranscript<S>(t: Transcript<S>) {
    && ValidActor(t.actor)
    && (t.stopped <==> t.actor.closed)
    && LogFits(t.log, t.actor)
  }

  lemma ServeKeepsValid<S>(t: Transcript<S>, c: RoomCommand<S>)
    requires ValidTranscript(t)
    ensures ValidTranscript(Serve(t, c))
    ensures !t.stopped ==> Serve(t, c).actor == Handle(t.actor, c).next
    ensures !t.stopped ==> Serve(t, c).log == t.log + Handle(t.actor, c).events
  {
    if !t.stopped {
      HandleKeepsValid(t.actor, c);
      HandleExtendsLog(t.actor, c, t.log);
      var e := Handle(t.actor, c);
      assert t.log + e.events + [] == t.log + e.events;
    }
  }

  /** Whatever commands arrive, after each of them: the member map has exactly the aggregate's members,
      without duplicates and within capacity; the flag equals the aggregate's Closed state; a stopped
      actor has logged exactly one closing, as its last event; and the log alone rebuilds the members. */
  lemma {:induction false} EveryLifeIsValid<S>(id: RoomId, maxPlayers: nat, signals: seq<Signal<S>>)
    ensures ValidTranscript(Life(Start<S>(Opened(id, maxPlayers)), signals))
    decreases |signals|
  {
    if signals != [] {
      var front, last := signals[..|signals| - 1], signals[|signals| - 1];
      EveryLifeIsValid(id, maxPlayers, front);
      HearKeepsValid(Life(Start(Opened(id, maxPlayers)), front), last);
    }
  }

  lemma HearKeepsValid<S>(t: Transcript<S>, signal: Signal<S>)
    requires ValidTranscript(t)
    ensures ValidTranscript(Hear(t, signal))
  {
    match signal {
      case Some(c) => ServeKeepsValid(t, c);
      case None =>
        if !t.stopped {
          var shut := RoomShut(t.actor.room.id, CHANNEL_CLOSED);
          ReplayAppend(t.log, shut);
          CoherentAppend(t.log, shut);
        }
    }
  }
}
