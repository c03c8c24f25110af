/** The actor as the program holds it: an aggregate and member sinks on the heap, updated in place. */
module RoomActorProgram {
  import opened Prelude
  import opened RoomAggregate
  import opened RoomSinks
  import opened RoomActors
  import RoomBroadcast

  type Audience = map<PlayerId, Member<RoomEventSink>>

  ghost function SinksOf(audience: Audience): set<RoomEventSink> {
    set p | p in audience :: audience[p].sink
  }

  /** How often a sink has been told once the members in `done` have been visited. */
  ghost function Visits(audience: Audience, done: set<PlayerId>, sink: RoomEventSink): nat {
    |RoomBroadcast.Sharers(audience, sink) * done|
  }

  lemma VisitsGrow(audience: Audience, done: set<PlayerId>, p: PlayerId, sink: RoomEventSink)
    requires p in audience && p !in done
    ensures Visits(audience, done + {p}, sink)
         == Visits(audience, done, sink) + if audience[p].sink == sink then 1 else 0
  {
    var all := RoomBroadcast.Sharers(audience, sink);
    assert all * (done + {p}) == if audience[p].sink == sink then all * done + {p} else all * done;
  }

  lemma VisitsComplete(audience: Audience, sink: RoomEventSink, before: SinkValue, event: RoomEvent)
    ensures OfferTimes(before, event, Visits(audience, audience.Keys, sink))
         == OfferAll(before, [event], RoomBroadcast.Shares(audience, sink))
  {
    assert RoomBroadcast.Sharers(audience, sink) * audience.Keys == RoomBroadcast.Sharers(audience, sink);
    assert [event][..|[event]| - 1] == [];
    assert OfferAll(before, [], RoomBroadcast.Shares(audience, sink)) == before;
  }

  ghost predicate VisitedSoFar(audience: Audience, before: map<RoomEventSink, SinkValue>, event: RoomEvent, done: set<PlayerId>)
    reads before.Keys
  {
    forall s :: s in before ==> s.Value() == OfferTimes(before[s], event, Visits(audience, done, s))
  }

  method Visit(
    audience: Audience, ghost before: map<RoomEventSink, SinkValue>, event: RoomEvent, ghost done: set<PlayerId>, p: PlayerId)
    requires p in audience && p !in done && audience[p].sink in before
    requires VisitedSoFar(audience, before, event, done)
    modifies audience[p].sink
    ensures VisitedSoFar(audience, before, event, done + {p})
  {
    audience[p].sink.TrySend(event);
    forall s | s in before
      ensures s.Value() == OfferTimes(before[s], event, Visits(audience, done + {p}, s))
    {
      VisitsGrow(audience, done, p, s);
    }
  }

  /** Every sink of the audience has been offered the events once per member that uses it. */
  twostate predicate Told(audience: Audience, events: seq<RoomEvent>)
    reads SinksOf(audience)
  {
    forall s :: s in SinksOf(audience) ==>
      s.Value() == OfferAll(old(s.Value()), events, RoomBroadcast.Shares(audience, s))
  }

  /** Visits the members in any order, as a hash map does: the outcome does not depend on it. */
  method VisitAll(audience: Audience, ghost before: map<RoomEventSink, SinkValue>, event: RoomEvent)
    requires before.Keys == SinksOf(audience) && forall s :: s in before ==> s.Value() == before[s]
    modifies SinksOf(audience)
    ensures VisitedSoFar(audience, before, event, audience.Keys)
  {
    var left := audience.Keys;
    ghost var done: set<PlayerId> := {};
    NothingVisited(audience, before, event);
    while left != {}
      invariant left !! done && left + done == audience.Keys
      invariant VisitedSoFar(audience, before, event, done)
      decreases left
    {
      var p :| p in left;
      Visit(audience, before, event, done, p);
      OneFewer(left, done, p);
      done, left := done + {p}, left - {p};
    }
    assert done == audience.Keys;
  }

  lemma OneFewer(left: set<PlayerId>, done: set<PlayerId>, p: PlayerId)
    requires left !! done && p in left
    ensures left - {p} !! done + {p} && (left - {p}) + (done + {p}) == left + done && left - {p} < left
  {
  }

  method TellAll(audience: Audience, event: RoomEvent)
    modifies SinksOf(audience)
    ensures Told(audience, [event])
  {
    ghost var before := map s | s in SinksOf(audience) :: s.Value();
    VisitAll(audience, before, event);
    forall s | s in SinksOf(audience)
      ensures s.Value() == OfferAll(old(s.Value()), [event], RoomBroadcast.Shares(audience, s))
    {
      VisitsComplete(audience, s, before[s], event);
    }
  }

  lemma NothingVisited(audience: Audience, before: map<RoomEventSink, SinkValue>, event: RoomEvent)
    requires forall s :: s in before ==> s.Value() == before[s]
    ensures VisitedSoFar(audience, before, event, {})
  {
    forall s | s in before
      ensures Visits(audience, {}, s) == 0
    {
      assert RoomBroadcast.Sharers(audience, s) * {} == {};
    }
  }

  /** The same, for every sink of the program: those outside the audience are told nothing. */
  twostate predicate Heard(sinks: set<RoomEventSink>, audience: Audience, events: seq<RoomEvent>)
    reads sinks
  {
    forall s :: s in sinks ==> s.Value() == OfferAll(old(s.Value()), events, RoomBroadcast.Shares(audience, s))
  }

  lemma OutsidersShareNothing(audience: Audience, s: RoomEventSink, value: SinkValue, events: seq<RoomEvent>)
    requires s !in SinksOf(audience)
    ensures OfferAll(value, events, RoomBroadcast.Shares(audience, s)) == value
  {
    assert RoomBroadcast.Sharers(audience, s) == {};
    OfferAllNever(value, events);
  }

  lemma {:induction false} OfferAllConcat(s: SinkValue, before: seq<RoomEvent>, after: seq<RoomEvent>, times: nat)
    ensures OfferAll(s, before + after, times) == OfferAll(OfferAll(s, before, times), after, times)
    decreases |after|
  {
    if after == [] {
      assert before + after == before;
    } else {
      var front := after[..|after| - 1];
      OfferAllConcat(s, before, front, times);
      var all := before + after;
      assert all[..|all| - 1] == before + front;
    }
  }

  class RoomActor {
    const room: Room
    var members: Audience
    var hadMembers: bool
    var closed: bool
    ghost var log: seq<RoomEvent>

    ghost function Value(): Actor<RoomEventSink>
      reads this, room
    {
      Actor(room.Value(), members, hadMembers, closed)
    }

    constructor (room: Room)
      ensures this.room == room && log == []
      ensures Value() == Spawned(room.Value())
    {
      this.room := room;
      members := map[];
      hadMembers, closed := false, false;
      log := [];
    }

    method Broadcast(event: RoomEvent, ghost sinks: set<RoomEventSink>)
      requires SinksOf(members) <= sinks
      modifies sinks, this`log
      ensures Heard(sinks, members, [event])
      ensures log == old(log) + [event]
    {
      log := log + [event];
      TellAll(members, event);
      forall s | s in sinks && s !in SinksOf(members)
        ensures OfferAll(old(s.Value()), [event], RoomBroadcast.Shares(members, s)) == s.Value()
      {
        OutsidersShareNothing(members, s, s.Value(), [event]);
      }
    }

    method FinishRoom(reason: string, ghost sinks: set<RoomEventSink>)
      requires SinksOf(members) <= sinks
      modifies this`closed, this`log, room, sinks
      ensures var (next, shut) := Finish(old(Value()), reason);
              Value() == next && log == old(log) + shut && Heard(sinks, members, shut)
    {
      var changed := room.Close();
      if changed {
        Broadcast(RoomShut(room.id, reason), sinks);
      } else {
        assert log + [] == log;
      }
      closed := true;
    }

    method Join(player: PlayerId, nickname: string, sink: RoomEventSink, ghost sinks: set<RoomEventSink>)
      returns (reply: Reply)
      requires SinksOf(members) <= sinks && sink in sinks
      modifies this, room, sinks
      ensures var e := HandleJoin(old(Value()), player, nickname, sink);
              && Value() == e.next && Some(reply) == e.reply && log == old(log) + e.events
              && Heard(sinks, e.audience, e.events)
      ensures SinksOf(members) <= sinks
    {
      var outcome := room.Join(player);
      var newlyJoined := false;
      match outcome {
        case Ok(true) =>
          members := members[player := Member(nickname, sink)];
          newlyJoined := true;
          hadMembers := true;
          reply := Joined(Ok(()));
        case Ok(false) => reply := Joined(Ok(()));
        case Err(e) => reply := Joined(Err(e));
      }
      if newlyJoined {
        Broadcast(MemberJoined(room.id, player, nickname), sinks);
      } else {
        assert log + [] == log;
      }
    }

    method Chat(player: PlayerId, text: string, ghost sinks: set<RoomEventSink>)
      requires SinksOf(members) <= sinks
      modifies sinks, this`log
      ensures var e := HandleChat(old(Value()), player, text);
              && Value() == e.next && log == old(log) + e.events && Heard(sinks, e.audience, e.events)
    {
      assert log + [] == log;
      if player !in members {
        return;
      }
      var trimmed := Trim(text);
      if trimmed == [] || |trimmed| > MAX_CHAT_CHARS {
        return;
      }
      Broadcast(ChatSaid(room.id, player, members[player].nickname, trimmed), sinks);
    }

    method Leave(player: PlayerId, ghost sinks: set<RoomEventSink>) returns (reply: Reply)
      requires SinksOf(members) <= sinks
      modifies this, room, sinks
      ensures var e := HandleLeave(old(Value()), player);
              && Value() == e.next && Some(reply) == e.reply && log == old(log) + e.events
              && Heard(sinks, e.audience, e.events)
      ensures SinksOf(members) <= sinks
    {
      WithoutRemoves(room.members, player);
      var outcome := room.Leave(player);
      match outcome {
        case Ok(true) =>
          LeaveTold(player, sinks);
          members := members - {player};
          reply := Left(Ok(true));
        case Ok(false) =>
          assert log + [] == log;
          reply := Left(Ok(false));
        case Err(e) =>
          assert log + [] == log;
          reply := Left(Err(e));
      }
    }

    /** The events of a departure: the receipt, and the closing while the last one out is still listed. */
    method LeaveTold(player: PlayerId, ghost sinks: set<RoomEventSink>)
      requires SinksOf(members) <= sinks
      modifies this`closed, this`log, room, sinks
      ensures var (next, shut) := if Emptied(old(Value())) then Finish(old(Value()), LAST_MEMBER_LEFT) else (old(Value()), []);
              var events := [MemberLeft(room.id, player)] + shut;
              Value() == next && log == old(log) + events && Heard(sinks, members, events)
    {
      var receipt := MemberLeft(room.id, player);
      Broadcast(receipt, sinks);
      var count := room.MemberCount();
      if hadMembers && count == 0 {
        label told:
        ghost var shut := Finish(Value(), LAST_MEMBER_LEFT).1;
        FinishRoom(LAST_MEMBER_LEFT, sinks);
        forall s | s in sinks
          ensures s.Value() == OfferAll(old(s.Value()), [receipt] + shut, RoomBroadcast.Shares(members, s))
        {
          assert s.Value() == OfferAll(old@told(s.Value()), shut, RoomBroadcast.Shares(members, s));
          OfferAllConcat(old(s.Value()), [receipt], shut, RoomBroadcast.Shares(members, s));
        }
      } else {
        assert [receipt] + [] == [receipt];
      }
    }

    /** Serve one command: the sinks, the state, the log, the reply and the decision to stop. */
    method HandleCommand(c: RoomCommand<RoomEventSink>, ghost sinks: set<RoomEventSink>)
      returns (reply: Option<Reply>, stop: bool)
      requires SinksOf(members) <= sinks && (c.Join? ==> c.sink in sinks)
      modifies this, room, sinks
      ensures var e := Handle(old(Value()), c);
              && Value() == e.next && reply == e.reply && stop == e.stop && log == old(log) + e.events
              && Heard(sinks, e.audience, e.events)
      ensures SinksOf(members) <= sinks
    {
      reply := None;
      match c {
        case Join(player, nickname, sink, _) =>
          var joined := this.Join(player, nickname, sink, sinks);
          reply := Some(joined);
        case Chat(player, text) => this.Chat(player, text, sinks);
        case Leave(player, _, _) =>
          var left := this.Leave(player, sinks);
          reply := Some(left);
        case Close(reason) =>
          FinishRoom(reason, sinks);
          return None, true;
      }
      var count := room.MemberCount();
      stop := hadMembers && count == 0;
    }

    ghost function Now(replies: seq<(ReplyId, Reply)>, stopped: bool, sinks: set<RoomEventSink>)
      : RoomBroadcast.World<RoomEventSink>
      reads this, room, sinks
    {
      RoomBroadcast.World(Transcript(Value(), log, replies, stopped), map s | s in sinks :: s.Value())
    }

    /** One turn of the run loop is one step of the model, sinks included. */
    method Turn(c: RoomCommand<RoomEventSink>, ghost replies: seq<(ReplyId, Reply)>, ghost sinks: set<RoomEventSink>)
      returns (reply: Option<Reply>, stop: bool)
      requires SinksOf(members) <= sinks && (c.Join? ==> c.sink in sinks)
      modifies this, room, sinks
      ensures Now(replies + RepliesOf(c, reply), stop, sinks)
           == RoomBroadcast.Step(old(Now(replies, false, sinks)), RoomBroadcast.Control(Some(c)))
      ensures SinksOf(members) <= sinks
    {
      ghost var before := Now(replies, false, sinks);
      ghost var e := Handle(Value(), c);
      reply, stop := HandleCommand(c, sinks);
      ghost var mid := Now(replies + RepliesOf(c, reply), stop, sinks);
      AllTold(sinks, before.sinks, e.audience, e.events);
      if stop {
        FinishRoom(CHANNEL_CLOSED, sinks);
        AllTold(sinks, mid.sinks, mid.t.actor.members, Finish(mid.t.actor, CHANNEL_CLOSED).1);
      }
      ServedIsStep(before, c, mid);
    }

    /** The run loop over a command queue whose senders are then all gone. */
    method Run(commands: seq<RoomCommand<RoomEventSink>>, ghost sinks: set<RoomEventSink>)
      returns (replies: seq<(ReplyId, Reply)>)
      requires SinksOf(members) <= sinks
      requires forall i :: 0 <= i < |commands| && commands[i].Join? ==> commands[i].sink in sinks
      modifies this, room, sinks
      ensures Now(replies, true, sinks)
           == RoomBroadcast.Run(old(Now([], false, sinks)), Inputs(commands) + [RoomBroadcast.Control(None)])
    {
      replies := [];
      ghost var start := Now([], false, sinks);
      var i, stopped := 0, false;
      while i < |commands| && !stopped
        invariant 0 <= i <= |commands| && SinksOf(members) <= sinks
        invariant Now(replies, stopped, sinks) == RoomBroadcast.Run(start, Inputs(commands)[..i])
      {
        LongerRun(start, commands, i);
        var reply;
        reply, stopped := Turn(commands[i], replies, sinks);
        replies := replies + RepliesOf(commands[i], reply);
        i := i + 1;
      }
      LastRun(start, commands, i);
      if !stopped {
        EndOfQueue(replies, sinks);
      }
    }

    method EndOfQueue(ghost replies: seq<(ReplyId, Reply)>, ghost sinks: set<RoomEventSink>)
      requires SinksOf(members) <= sinks
      modifies this, room, sinks
      ensures Now(replies, true, sinks)
           == RoomBroadcast.Step(old(Now(replies, false, sinks)), RoomBroadcast.Control(None))
    {
      ghost var before := Now(replies, false, sinks);
      ghost var shut := Finish(Value(), CHANNEL_CLOSED).1;
      FinishRoom(CHANNEL_CLOSED, sinks);
      assert (map s | s in sinks :: s.Value()) == RoomBroadcast.Spread(before.sinks, members, shut);
    }
  }

  lemma AllTold(
    sinks: set<RoomEventSink>, before: map<RoomEventSink, SinkValue>, audience: Audience, events: seq<RoomEvent>)
    requires before.Keys == sinks
    requires forall s :: s in sinks ==> s.Value() == OfferAll(before[s], events, RoomBroadcast.Shares(audience, s))
    ensures (map s | s in sinks :: s.Value()) == RoomBroadcast.Spread(before, audience, events)
  {
  }

  /** What serving a command leaves, before a stopping actor finishes once more. */
  ghost predicate Served<S>(w: RoomBroadcast.World<S>, c: RoomCommand<S>, mid: RoomBroadcast.World<S>) {
    var e := Handle(w.t.actor, c);
    && mid.t == Transcript(e.next, w.t.log + e.events, w.t.replies + RepliesOf(c, e.reply), e.stop)
    && mid.sinks == RoomBroadcast.Spread(w.sinks, e.audience, e.events)
  }

  lemma ServedIsStep<S>(w: RoomBroadcast.World<S>, c: RoomCommand<S>, mid: RoomBroadcast.World<S>)
    requires !w.t.stopped && Served(w, c, mid)
    ensures var (last, shut) := Finish(mid.t.actor, CHANNEL_CLOSED);
            RoomBroadcast.Step(w, RoomBroadcast.Control(Some(c))) == (
              if mid.t.stopped
              then RoomBroadcast.World(mid.t.(actor := last, log := mid.t.log + shut),
                                       RoomBroadcast.Spread(mid.sinks, mid.t.actor.members, shut))
              else mid)
  {
    assert mid.t.log + [] == mid.t.log;
  }

  function Inputs(commands: seq<RoomCommand<RoomEventSink>>): (inputs: seq<RoomBroadcast.Input<RoomEventSink>>)
    ensures |inputs| == |commands|
  {
    seq(|commands|, i requires 0 <= i < |commands| => RoomBroadcast.Control(Some(commands[i])))
  }

  lemma OneStep<S>(w: RoomBroadcast.World<S>, input: RoomBroadcast.Input<S>)
    ensures RoomBroadcast.Run(w, [input]) == RoomBroadcast.Step(w, input)
  {
    assert [input][..|[input]| - 1] == [];
    assert RoomBroadcast.Run(w, []) == w;
  }

  lemma {:induction false} RunInTwo<S>(
    w: RoomBroadcast.World<S>, first: seq<RoomBroadcast.Input<S>>, second: seq<RoomBroadcast.Input<S>>)
    ensures RoomBroadcast.Run(w, first + second) == RoomBroadcast.Run(RoomBroadcast.Run(w, first), second)
    decreases |second|
  {
    if second == [] {
      assert first + second == first;
      EmptyRun(RoomBroadcast.Run(w, first));
    } else {
      var front, last := second[..|second| - 1], second[|second| - 1];
      RunInTwo(w, first, front);
      assert second == front + [last] && first + second == (first + front) + [last];
      OneMore(w, first + front, last);
      OneMore(RoomBroadcast.Run(w, first), front, last);
    }
  }

  lemma EmptyRun<S>(w: RoomBroadcast.World<S>)
    ensures RoomBroadcast.Run(w, []) == w
  {
  }

  lemma OneMore<S>(w: RoomBroadcast.World<S>, inputs: seq<RoomBroadcast.Input<S>>, input: RoomBroadcast.Input<S>)
    ensures RoomBroadcast.Run(w, inputs + [input]) == RoomBroadcast.Step(RoomBroadcast.Run(w, inputs), input)
  {
    assert (inputs + [input])[..|inputs + [input]| - 1] == inputs;
  }

  lemma LongerRun(start: RoomBroadcast.World<RoomEventSink>, commands: seq<RoomCommand<RoomEventSink>>, i: nat)
    requires i < |commands|
    ensures RoomBroadcast.Run(start, Inputs(commands)[..i + 1])
         == RoomBroadcast.Step(RoomBroadcast.Run(start, Inputs(commands)[..i]), RoomBroadcast.Control(Some(commands[i])))
  {
    var next := Inputs(commands)[..i + 1];
    assert next[..|next| - 1] == Inputs(commands)[..i];
  }

  /** The whole run, from where the loop ended: stopped for good, or at the end of the queue. */
  lemma LastRun(start: RoomBroadcast.World<RoomEventSink>, commands: seq<RoomCommand<RoomEventSink>>, i: nat)
    requires i <= |commands|
    requires i == |commands| || RoomBroadcast.Run(start, Inputs(commands)[..i]).t.stopped
    ensures var w := RoomBroadcast.Run(start, Inputs(commands)[..i]);
            RoomBroadcast.Run(start, Inputs(commands) + [RoomBroadcast.Control(None)])
            == if w.t.stopped then w else RoomBroadcast.Step(w, RoomBroadcast.Control(None))
  {
    var done, left := Inputs(commands)[..i], Inputs(commands)[i..] + [RoomBroadcast.Control(None)];
    var w := RoomBroadcast.Run(start, done);
    RunInTwo(start, done, left);
    assert done + left == Inputs(commands) + [RoomBroadcast.Control(None)];
    if w.t.stopped {
      StoppedStays(w, left);
    } else {
      assert left == [RoomBroadcast.Control(None)];
      OneStep(w, RoomBroadcast.Control(None));
    }
  }

  /** A stopped actor never looks at another command. */
  lemma {:induction false} StoppedStays<S>(w: RoomBroadcast.World<S>, inputs: seq<RoomBroadcast.Input<S>>)
    requires w.t.stopped && forall i :: 0 <= i < |inputs| ==> inputs[i].Control?
    ensures RoomBroadcast.Run(w, inputs) == w
    decreases |inputs|
  {
    if inputs != [] {
      StoppedStays(w, inputs[..|inputs| - 1]);
    }
  }
}
