/** The actor together with its members' sinks, under any interleaving of commands with
    receivers that take events, lag behind or hang up. */
module RoomBroadcast {
  import opened Prelude
  import opened RoomAggregate
  import opened RoomSinks
  import opened RoomActors

  datatype World<S> = World(t: Transcript<S>, sinks: map<S, SinkValue>)

  /** A connection's sink serves every room it joins, so another room may offer it an event at any time (`Elsewhere`). */
  datatype Input<S> = Control(signal: Signal<S>) | TakeFrom(sink: S) | HangUpOn(sink: S) | Elsewhere(sink: S, event: RoomEvent)

  ghost function Sharers<S>(audience: map<PlayerId, Member<S>>, sink: S): set<PlayerId> {
    set p | p in audience && audience[p].sink == sink
  }

  /** The number of members that share a sink. */
  ghost function Shares<S>(audience: map<PlayerId, Member<S>>, sink: S): nat {
    |Sharers(audience, sink)|
  }

  ghost function Spread<S>(sinks: map<S, SinkValue>, audience: map<PlayerId, Member<S>>, events: seq<RoomEvent>)
    : map<S, SinkValue>
  {
    map s | s in sinks :: OfferAll(sinks[s], events, Shares(audience, s))
  }

  ghost function SpreadSignal<S>(w: World<S>, signal: Signal<S>): map<S, SinkValue> {
    if w.t.stopped then w.sinks
    else match signal
      case None => Spread(w.sinks, w.t.actor.members, Finish(w.t.actor, CHANNEL_CLOSED).1)
      case Some(c) =>
        var e := Handle(w.t.actor, c);
        var sinks := Spread(w.sinks, e.audience, e.events);
        if e.stop then Spread(sinks, e.next.members, Finish(e.next, CHANNEL_CLOSED).1) else sinks
  }

  ghost function Step<S>(w: World<S>, input: Input<S>): World<S> {
    match input
    case Control(signal) => World(Hear(w.t, signal), SpreadSignal(w, signal))
    case TakeFrom(s) => if s in w.sinks then w.(sinks := w.sinks[s := Take(w.sinks[s])]) else w
    case HangUpOn(s) => if s in w.sinks then w.(sinks := w.sinks[s := HangUp(w.sinks[s])]) else w
    case Elsewhere(s, e) =>
      if s in w.sinks && e.room != w.t.actor.room.id then w.(sinks := w.sinks[s := Offer(w.sinks[s], e)]) else w
  }

  ghost function Run<S>(w: World<S>, inputs: seq<Input<S>>): World<S>
    decreases |inputs|
  {
    if inputs == [] then w else Step(Run(w, inputs[..|inputs| - 1]), inputs[|inputs| - 1])
  }

  function Signals<S>(inputs: seq<Input<S>>): seq<Signal<S>>
    decreases |inputs|
  {
    if inputs == [] then []
    else
      var front := Signals(inputs[..|inputs| - 1]);
      if inputs[|inputs| - 1].Control? then front + [inputs[|inputs| - 1].signal] else front
  }

  /** The actor's state, replies and log are a fold of the commands alone: no sink's capacity,
      backlog or hang-up has any influence. */
  lemma {:induction false} ActorIgnoresSinks<S>(w: World<S>, inputs: seq<Input<S>>)
    ensures Run(w, inputs).t == Life(w.t, Signals(inputs))
    decreases |inputs|
  {
    if inputs != [] {
      var front, last := inputs[..|inputs| - 1], inputs[|inputs| - 1];
      ActorIgnoresSinks(w, front);
      if last.Control? {
        var all := Signals(inputs);
        assert all[..|all| - 1] == Signals(front);
      }
    }
  }

  predicate Concerns<S(==)>(input: Input<S>, sink: S) {
    input.Control? || input.sink == sink
  }

  function About<S(==)>(inputs: seq<Input<S>>, sink: S): seq<Input<S>>
    decreases |inputs|
  {
    if inputs == [] then []
    else
      var front := About(inputs[..|inputs| - 1], sink);
      if Concerns(inputs[|inputs| - 1], sink) then front + [inputs[|inputs| - 1]] else front
  }

  ghost function Alone<S>(w: World<S>, sink: S): World<S>
    requires sink in w.sinks
  {
    World(w.t, map[sink := w.sinks[sink]])
  }

  lemma StepAlone<S>(w: World<S>, input: Input<S>, sink: S)
    requires sink in w.sinks
    ensures sink in Step(w, input).sinks
    ensures Alone(Step(w, input), sink) == if Concerns(input, sink) then Step(Alone(w, sink), input) else Alone(w, sink)
  {
  }

  /** One sink alone, with everything about the other sinks erased, evolves exactly as in the full run. */
  lemma {:induction false} OneSinkAlone<S>(w: World<S>, inputs: seq<Input<S>>, sink: S)
    requires sink in w.sinks
    ensures sink in Run(w, inputs).sinks
    ensures Run(Alone(w, sink), About(inputs, sink)) == Alone(Run(w, inputs), sink)
    decreases |inputs|
  {
    if inputs != [] {
      var front, last := inputs[..|inputs| - 1], inputs[|inputs| - 1];
      OneSinkAlone(w, front, sink);
      StepAlone(Run(w, front), last, sink);
      if Concerns(last, sink) {
        var about := About(inputs, sink);
        assert about[..|about| - 1] == About(front, sink);
      }
    }
  }

  /** A slow or dead member cannot change what a member with a different sink is given: two runs that
      agree on the commands and on this sink's own receiver agree on this sink. */
  lemma SlowMemberIsIsolated<S>(w: World<S>, w': World<S>, inputs: seq<Input<S>>, inputs': seq<Input<S>>, sink: S)
    requires sink in w.sinks && sink in w'.sinks
    requires w.t == w'.t && w.sinks[sink] == w'.sinks[sink]
    requires About(inputs, sink) == About(inputs', sink)
    ensures sink in Run(w, inputs).sinks && sink in Run(w', inputs').sinks
    ensures Run(w, inputs).sinks[sink] == Run(w', inputs').sinks[sink]
    ensures Run(w, inputs).t == Run(w', inputs').t
  {
    OneSinkAlone(w, inputs, sink);
    OneSinkAlone(w', inputs', sink);
    assert map[sink := Run(w, inputs).sinks[sink]][sink] == map[sink := Run(w', inputs').sinks[sink]][sink];
  }

  // ---- What a member hears, told from the log alone ----

  predicate Inside(log: seq<RoomEvent>, p: PlayerId)
    decreases |log|
  {
    if log == [] then false
    else match log[|log| - 1]
      case MemberJoined(_, q, _) => q == p || Inside(log[..|log| - 1], p)
      case MemberLeft(_, q) => q != p && Inside(log[..|log| - 1], p)
      case _ => Inside(log[..|log| - 1], p)
  }

  /** `p` has just left and nobody remains, so the closing that follows still reaches `p`. */
  predicate LeftLast(log: seq<RoomEvent>, p: PlayerId) {
    log != [] && log[|log| - 1].MemberLeft? && log[|log| - 1].player == p && Replay(log) == []
  }

  predicate Hears(log: seq<RoomEvent>, e: RoomEvent, p: PlayerId) {
    Inside(log, p) || (e.MemberJoined? && e.player == p) || (e.RoomShut? && LeftLast(log, p))
  }

  function Heard(log: seq<RoomEvent>, p: PlayerId): seq<RoomEvent>
    decreases |log|
  {
    if log == [] then []
    else
      var front, last := log[..|log| - 1], log[|log| - 1];
      Heard(front, p) + (if Hears(front, last, p) then [last] else [])
  }

  lemma HeardAppend(log: seq<RoomEvent>, e: RoomEvent, p: PlayerId)
    ensures Heard(log + [e], p) == Heard(log, p) + (if Hears(log, e, p) then [e] else [])
    ensures Inside(log + [e], p) <==>
      (e.MemberJoined? && e.player == p) || (Inside(log, p) && !(e.MemberLeft? && e.player == p))
  {
    assert (log + [e])[..|log + [e]| - 1] == log;
  }

  // ---- This room's share of what a sink carries ----

  function OfRoom(events: seq<RoomEvent>, room: RoomId): seq<RoomEvent>
    decreases |events|
  {
    if events == [] then []
    else
      var front := OfRoom(events[..|events| - 1], room);
      if events[|events| - 1].room == room then front + [events[|events| - 1]] else front
  }

  lemma {:induction false} OfRoomConcat(a: seq<RoomEvent>, b: seq<RoomEvent>, room: RoomId)
    ensures OfRoom(a + b, room) == OfRoom(a, room) + OfRoom(b, room)
    decreases |b|
  {
    if b == [] {
      assert a + b == a;
    } else {
      var front := b[..|b| - 1];
      OfRoomConcat(a, front, room);
      assert (a + b)[..|a + b| - 1] == a + front;
    }
  }

  lemma {:induction false} OfRoomAll(events: seq<RoomEvent>, room: RoomId)
    requires forall i :: 0 <= i < |events| ==> events[i].room == room
    ensures OfRoom(events, room) == events
    decreases |events|
  {
    if events != [] {
      OfRoomAll(events[..|events| - 1], room);
    }
  }

  lemma OfRoomPrefix(a: seq<RoomEvent>, b: seq<RoomEvent>, room: RoomId)
    requires a <= b
    ensures OfRoom(a, room) <= OfRoom(b, room)
  {
    assert b == a + b[|a|..];
    OfRoomConcat(a, b[|a|..], room);
  }

  /** What this room has offered the sink, among all it was offered. */
  function Share<S(==)>(w: World<S>, sink: S): seq<RoomEvent>
    requires sink in w.sinks
  {
    OfRoom(w.sinks[sink].offered, w.t.actor.room.id)
  }

  /** What an actor broadcasts is about its own room, and its room stays the same. */
  lemma EventsAreOfTheRoom<S>(t: Transcript<S>, signal: Signal<S>)
    requires ValidTranscript(t)
    ensures forall i :: 0 <= i < |Events(t, signal)| ==> Events(t, signal)[i].room == t.actor.room.id
    ensures Hear(t, signal).actor.room.id == t.actor.room.id
  {
    if signal.Some? && !t.stopped {
      HandleKeepsValid(t.actor, signal.value);
    }
  }

  lemma ShareGrows<S>(w: World<S>, signal: Signal<S>, sink: S, heard: seq<RoomEvent>)
    requires ValidTranscript(w.t) && sink in w.sinks && sink in Step(w, Control(signal)).sinks
    requires heard == Events(w.t, signal) || heard == []
    requires Step(w, Control(signal)).sinks[sink].offered == w.sinks[sink].offered + heard
    ensures Share(Step(w, Control(signal)), sink) == Share(w, sink) + heard
  {
    EventsAreOfTheRoom(w.t, signal);
    OfRoomAll(heard, w.t.actor.room.id);
    OfRoomConcat(w.sinks[sink].offered, heard, w.t.actor.room.id);
  }

  /** Whatever is offered from elsewhere, taken or hung up leaves the room's share alone. */
  lemma ShareStays<S>(w: World<S>, input: Input<S>, sink: S)
    requires sink in w.sinks && !input.Control?
    ensures sink in Step(w, input).sinks && Share(Step(w, input), sink) == Share(w, sink)
  {
    if input.Elsewhere? {
      OfRoomConcat(w.sinks[sink].offered, [input.event], w.t.actor.room.id);
    }
  }

  // ---- What a sink is offered while one player at most uses it ----

  /** Among the members, `p` and nobody else uses the sink. */
  ghost predicate SoleUser<S>(members: map<PlayerId, Member<S>>, p: PlayerId, sink: S) {
    forall q :: q in members ==> (q == p <==> members[q].sink == sink)
  }

  ghost predicate Sound<S>(w: World<S>, sink: S) {
    ValidTranscript(w.t) && sink in w.sinks && ValidSink(w.sinks[sink])
  }

  /** Beyond `base`, the room has offered the sink what `p` heard after its first `from` events. */
  ghost predicate Tracks<S>(w: World<S>, p: PlayerId, sink: S, base: seq<RoomEvent>, from: nat) {
    && Sound(w, sink)
    && from <= |Heard(w.t.log, p)|
    && Share(w, sink) == base + Heard(w.t.log, p)[from..]
    && SoleUser(w.t.actor.members, p, sink)
  }

  lemma SharesOfOne<S>(audience: map<PlayerId, Member<S>>, p: PlayerId, sink: S)
    requires SoleUser(audience, p, sink)
    ensures Shares(audience, sink) == if p in audience then 1 else 0
  {
    assert Sharers(audience, sink) == if p in audience then {p} else {};
  }

  /** A sink used by `p` alone is offered the events once if `p` is in the audience, and otherwise not at all. */
  lemma SoleUserIsTold<S>(
    sinks: map<S, SinkValue>, audience: map<PlayerId, Member<S>>, events: seq<RoomEvent>, p: PlayerId, sink: S)
    requires sink in sinks && ValidSink(sinks[sink]) && SoleUser(audience, p, sink)
    ensures sink in Spread(sinks, audience, events) && ValidSink(Spread(sinks, audience, events)[sink])
    ensures Spread(sinks, audience, events)[sink].offered == sinks[sink].offered + (if p in audience then events else [])
  {
    SharesOfOne(audience, p, sink);
    OfferAllKeepsValid(sinks[sink], events, Shares(audience, sink));
    OfferAllOnce(sinks[sink], events);
    OfferAllNever(sinks[sink], events);
  }

  lemma MemberIsInside<S>(t: Transcript<S>, p: PlayerId)
    requires ValidTranscript(t)
    ensures p in t.actor.members <==> Inside(t.log, p)
  {
    InsideIsReplayed(t.log, p);
  }

  /** At a command boundary nobody has just left an emptied room: its closing has been logged already. */
  lemma NobodyLeftLast<S>(t: Transcript<S>, p: PlayerId)
    requires ValidTranscript(t)
    ensures !LeftLast(t.log, p)
  {
    if t.log != [] {
      assert t.log[|t.log| - 1].MemberLeft? ==> !t.actor.closed;
    }
  }

  /** The events of one signal and those they are sent to. */
  ghost function Audience<S>(t: Transcript<S>, signal: Signal<S>): map<PlayerId, Member<S>> {
    if signal.Some? then Handle(t.actor, signal.value).audience else t.actor.members
  }

  ghost function Events<S>(t: Transcript<S>, signal: Signal<S>): seq<RoomEvent> {
    if t.stopped then []
    else if signal.Some? then Handle(t.actor, signal.value).events
    else Finish(t.actor, CHANNEL_CLOSED).1
  }

  /** A signal extends the log by its events and spreads them to its audience, and nothing else. */
  lemma SignalSpreads<S>(w: World<S>, signal: Signal<S>)
    requires ValidTranscript(w.t)
    ensures ValidTranscript(Hear(w.t, signal))
    ensures Step(w, Control(signal)).t.log == w.t.log + Events(w.t, signal)
    ensures Step(w, Control(signal)).sinks == Spread(w.sinks, Audience(w.t, signal), Events(w.t, signal))
  {
    HearKeepsValid(w.t, signal);
    if w.t.stopped {
      assert w.t.log + [] == w.t.log;
      NothingSpreads(w.sinks, Audience(w.t, signal));
    } else if signal.Some? {
      ServeKeepsValid(w.t, signal.value);
      CommandSpreads(w, signal.value);
    }
  }

  lemma CommandSpreads<S>(w: World<S>, c: RoomCommand<S>)
    requires ValidTranscript(w.t) && !w.t.stopped
    ensures SpreadSignal(w, Some(c)) == Spread(w.sinks, Handle(w.t.actor, c).audience, Handle(w.t.actor, c).events)
  {
    var e := Handle(w.t.actor, c);
    HandleKeepsValid(w.t.actor, c);
    NothingSpreads(Spread(w.sinks, e.audience, e.events), e.next.members);
  }

  lemma NothingSpreads<S>(sinks: map<S, SinkValue>, audience: map<PlayerId, Member<S>>)
    ensures Spread(sinks, audience, []) == sinks
  {
  }

  /** Whoever is told is a member before or after: a newcomer hears its own joining, a leaver its own leaving. */
  lemma AudienceIsPresent<S>(t: Transcript<S>, signal: Signal<S>)
    requires ValidTranscript(t)
    ensures Audience(t, signal) == t.actor.members
         || Audience(t, signal) == Hear(t, signal).actor.members
         || t.stopped
  {
  }

  /** What one signal adds to what `p` hears. */
  lemma SignalIsHeard<S>(t: Transcript<S>, signal: Signal<S>, p: PlayerId)
    requires ValidTranscript(t)
    ensures Heard(t.log + Events(t, signal), p)
         == Heard(t.log, p) + (if p in Audience(t, signal) then Events(t, signal) else [])
  {
    MemberIsInside(t, p);
    if t.stopped {
      assert t.log + [] == t.log;
    } else if signal.Some? {
      HandleIsHeard(t.actor, t.log, signal.value, p);
    } else {
      OneEventIsHeard(t.actor, t.log, Events(t, signal)[0], p);
    }
  }

  /** One event sent to the current members, and heard by exactly those inside. */
  lemma OneEventIsHeard<S>(a: Actor<S>, log: seq<RoomEvent>, e: RoomEvent, p: PlayerId)
    requires ValidActor(a) && !a.closed && LogFits(log, a)
    requires p in a.members <==> Inside(log, p)
    ensures Heard(log + [e], p)
         == Heard(log, p) + (if p in a.members || (e.MemberJoined? && e.player == p) then [e] else [])
  {
    HeardAppend(log, e, p);
    assert !LeftLast(log, p);
  }

  /** What one command's events add to what `p` hears. */
  lemma HandleIsHeard<S>(a: Actor<S>, log: seq<RoomEvent>, c: RoomCommand<S>, p: PlayerId)
    requires ValidActor(a) && !a.closed && LogFits(log, a)
    requires p in a.members <==> Inside(log, p)
    ensures Heard(log + Handle(a, c).events, p)
         == Heard(log, p) + (if p in Handle(a, c).audience then Handle(a, c).events else [])
  {
    var e := Handle(a, c);
    HandleKeepsValid(a, c);
    if e.events == [] {
      assert log + [] == log;
    } else {
      OneEventIsHeard(a, log, e.events[0], p);
      if |e.events| == 1 {
        assert e.events == [e.events[0]];
      } else {
        LastLeaveIsHeard(a, log, c.player, p);
      }
    }
  }

  lemma LastLeaveIsHeard<S>(a: Actor<S>, log: seq<RoomEvent>, who: PlayerId, p: PlayerId)
    requires ValidActor(a) && !a.closed && LogFits(log, a)
    requires p in a.members <==> Inside(log, p)
    requires |HandleLeave(a, who).events| == 2
    ensures Heard(log + HandleLeave(a, who).events, p)
         == Heard(log, p) + (if p in a.members then HandleLeave(a, who).events else [])
  {
    var events := HandleLeave(a, who).events;
    WithoutRemoves(a.room.members, who);
    var mid := log + [events[0]];
    ReplayAppend(log, events[0]);
    OneEventIsHeard(a, log, events[0], p);
    HeardAppend(log, events[0], p);
    HeardAppend(mid, events[1], p);
    assert log + events == mid + [events[1]];
    assert events == [events[0]] + [events[1]];
  }

  /** A sink used by `p` alone is offered what `p` hears, and nothing else. */
  lemma SoleUserHears<S>(w: World<S>, signal: Signal<S>, p: PlayerId, sink: S)
    requires Sound(w, sink) && SoleUser(w.t.actor.members, p, sink)
    requires SoleUser(Hear(w.t, signal).actor.members, p, sink)
    ensures Sound(Step(w, Control(signal)), sink)
    ensures var w', heard := Step(w, Control(signal)), if p in Audience(w.t, signal) then Events(w.t, signal) else [];
            && Share(w', sink) == Share(w, sink) + heard
            && Heard(w'.t.log, p) == Heard(w.t.log, p) + heard
  {
    var audience, events := Audience(w.t, signal), Events(w.t, signal);
    SignalSpreads(w, signal);
    SignalIsHeard(w.t, signal, p);
    if w.t.stopped {
      NothingSpreads(w.sinks, audience);
    } else {
      AudienceIsPresent(w.t, signal);
      SoleUserIsTold(w.sinks, audience, events, p, sink);
    }
    ShareGrows(w, signal, sink, if p in audience then events else []);
  }

  lemma StepKeepsTrack<S>(w: World<S>, input: Input<S>, p: PlayerId, sink: S, base: seq<RoomEvent>, from: nat)
    requires Tracks(w, p, sink, base, from) && SoleUser(Step(w, input).t.actor.members, p, sink)
    ensures Tracks(Step(w, input), p, sink, base, from)
  {
    StepOnlyAdds(w, input, sink);
    if input.Control? {
      SoleUserHears(w, input.signal, p, sink);
      TailGrows(base, Heard(w.t.log, p), if p in Audience(w.t, input.signal) then Events(w.t, input.signal) else [], from);
    } else {
      ShareStays(w, input, sink);
    }
  }

  lemma TailGrows(base: seq<RoomEvent>, heard: seq<RoomEvent>, more: seq<RoomEvent>, from: nat)
    requires from <= |heard|
    ensures (base + heard[from..]) + more == base + (heard + more)[from..]
  {
    assert (heard + more)[from..] == heard[from..] + more;
  }

  /** At every point of the run the sink is in use by `p` alone, or by nobody. */
  ghost predicate UsedAlone<S>(w: World<S>, inputs: seq<Input<S>>, p: PlayerId, sink: S) {
    forall k :: 0 <= k <= |inputs| ==> SoleUser(Run(w, inputs[..k]).t.actor.members, p, sink)
  }

  lemma {:induction false} EveryRunKeepsTrack<S>(
    w: World<S>, inputs: seq<Input<S>>, p: PlayerId, sink: S, base: seq<RoomEvent>, from: nat)
    requires Tracks(w, p, sink, base, from) && UsedAlone(w, inputs, p, sink)
    ensures Tracks(Run(w, inputs), p, sink, base, from)
    decreases |inputs|
  {
    if inputs != [] {
      var front, last := inputs[..|inputs| - 1], inputs[|inputs| - 1];
      assert forall k :: 0 <= k <= |front| ==> front[..k] == inputs[..k];
      assert inputs[..|inputs|] == inputs;
      EveryRunKeepsTrack(w, front, p, sink, base, from);
      StepKeepsTrack(Run(w, front), last, p, sink, base, from);
    }
  }

  /** From any point of a room's life and any sink, whatever it carried before and whatever other rooms offer it: while `p`
      alone uses the sink in this room, the room offers it exactly what the log says `p` hears from there on; if the sink
      never failed, all of that was queued and the room's share of what the receiver took is a prefix of it; if anything
      was lost, the failure flag is up. */
  lemma MemberHearsItsPartOfTheLog<S>(w: World<S>, inputs: seq<Input<S>>, p: PlayerId, sink: S)
    requires Sound(w, sink) && UsedAlone(w, inputs, p, sink)
    ensures sink in Run(w, inputs).sinks && |Heard(w.t.log, p)| <= |Heard(Run(w, inputs).t.log, p)|
    ensures var w', s' := Run(w, inputs), Run(w, inputs).sinks[sink];
            var carried := Share(w, sink) + Heard(w'.t.log, p)[|Heard(w.t.log, p)|..];
            && Share(w', sink) == carried
            && (!s'.failed ==> OfRoom(s'.accepted, w'.t.actor.room.id) == carried && OfRoom(s'.taken, w'.t.actor.room.id) <= carried)
            && (!s'.failed && s'.open ==> OfRoom(s'.taken + s'.queue, w'.t.actor.room.id) == carried)
            && (s'.accepted != s'.offered ==> s'.failed)
  {
    assert inputs[..0] == [];
    assert w == Run(w, inputs[..0]);
    EveryRunKeepsTrack(w, inputs, p, sink, Share(w, sink), |Heard(w.t.log, p)|);
    var w' := Run(w, inputs);
    OfRoomPrefix(w'.sinks[sink].taken, w'.sinks[sink].accepted, w'.t.actor.room.id);
  }

  // ---- One stay in the room is one contiguous slice of the log ----

  /** Where the stay that began at `at` ends, so far. */
  function StayEnd(log: seq<RoomEvent>, p: PlayerId, at: nat): (end: nat)
    requires at < |log|
    ensures at < end <= |log|
    decreases |log|
  {
    if at == |log| - 1 then |log|
    else
      var front, last := log[..|log| - 1], log[|log| - 1];
      var end := StayEnd(front, p, at);
      if end == |front| && Hears(front, last, p) && !JoinOf(last, p) then |log| else end
  }

  /** `p` left just before `end`, or was the last one out and the closing came in between. */
  predicate LeftAt(log: seq<RoomEvent>, p: PlayerId, at: nat, end: nat)
    requires at < end <= |log|
  {
    || LeaveOf(log[end - 1], p)
    || (at < end - 1 && log[end - 1].RoomShut? && LeftLast(log[..end - 1], p))
  }

  /** The stay from `at` to `end`: one joining at its start and none inside, no leaving but at its end; it lasts while `p`
      is inside, and a closing that follows because `p` was the last one out belongs to it. */
  ghost predicate Stay(log: seq<RoomEvent>, p: PlayerId, at: nat, end: nat) {
    && at < end <= |log| && JoinOf(log[at], p)
    && (forall i :: at < i < end ==> !JoinOf(log[i], p))
    && (forall i :: at < i < end && LeaveOf(log[i], p) ==>
          i == end - 1 || (i == end - 2 && log[end - 1].RoomShut? && LeftLast(log[..end - 1], p)))
    && ((end == |log| && Inside(log, p)) || LeftAt(log, p, at, end))
    && (end < |log| && log[end].RoomShut? ==> !LeftLast(log[..end], p))
  }

  ghost predicate JoinsLater(log: seq<RoomEvent>, p: PlayerId, end: nat) {
    exists i :: end <= i < |log| && JoinOf(log[i], p)
  }

  /** In a coherent log, being inside is being among the members the log rebuilds. */
  lemma {:induction false} InsideIsReplayed(log: seq<RoomEvent>, p: PlayerId)
    ensures Inside(log, p) <==> p in Replay(log)
    decreases |log|
  {
    if log != [] {
      var front, last := log[..|log| - 1], log[|log| - 1];
      InsideIsReplayed(front, p);
      if last.MemberLeft? {
        WithoutRemoves(Replay(front), last.player);
      }
    }
  }

  /** What the induction over the log carries. */
  ghost predicate Sliced(log: seq<RoomEvent>, p: PlayerId, at: nat) {
    && at < |log|
    && var end := StayEnd(log, p, at);
       && Stay(log, p, at, end)
       && Heard(log[..at], p) + log[at..end] <= Heard(log, p)
       && (!JoinsLater(log, p, end) ==> Heard(log[..at], p) + log[at..end] == Heard(log, p))
       && (!JoinsLater(log, p, end) && (Inside(log, p) || LeaveOf(log[|log| - 1], p)) ==> end == |log|)
  }

  lemma SliceBegins(front: seq<RoomEvent>, last: RoomEvent, p: PlayerId)
    requires JoinOf(last, p)
    ensures Sliced(front + [last], p, |front|)
  {
    var log := front + [last];
    HeardAppend(front, last, p);
    assert log[..|front|] == front && log[|front|..] == [last];
  }

  lemma SliceGrows(front: seq<RoomEvent>, last: RoomEvent, p: PlayerId, at: nat)
    requires Sliced(front, p, at) && StayEnd(front, p, at) == |front| && Hears(front, last, p) && !JoinOf(last, p)
    ensures Sliced(front + [last], p, at)
  {
    var log := front + [last];
    HeardAppend(front, last, p);
    assert log[..|front|] == front && log[..at] == front[..at];
    assert log[at..] == front[at..] + [last];
    assert StayEnd(log, p, at) == |log|;
    StayLonger(front, last, p, at);
  }

  lemma InsideHasNotLeft(front: seq<RoomEvent>, p: PlayerId, at: nat)
    requires Stay(front, p, at, |front|) && Inside(front, p)
    ensures forall i :: at < i < |front| ==> !LeaveOf(front[i], p)
  {
    var before := front[..|front| - 1];
    assert front == before + [front[|front| - 1]];
    HeardAppend(before, front[|front| - 1], p);
    assert LeftLast(before, p) ==> !Inside(before, p);
  }

  /** An event that belongs to the stay makes it longer. */
  lemma StayLonger(front: seq<RoomEvent>, last: RoomEvent, p: PlayerId, at: nat)
    requires Stay(front, p, at, |front|) && Hears(front, last, p) && !JoinOf(last, p)
    ensures Stay(front + [last], p, at, |front| + 1)
  {
    var log := front + [last];
    HeardAppend(front, last, p);
    assert log[..|front|] == front;
    if Inside(front, p) {
      InsideHasNotLeft(front, p, at);
    }
  }

  lemma SliceStays(front: seq<RoomEvent>, last: RoomEvent, p: PlayerId, at: nat)
    requires Sliced(front, p, at) && (last.MemberLeft? ==> last.player in Replay(front))
    requires JoinOf(last, p) ==> p !in Replay(front)
    requires !(StayEnd(front, p, at) == |front| && Hears(front, last, p)) || JoinOf(last, p)
    ensures Sliced(front + [last], p, at)
  {
    var log, end := front + [last], StayEnd(front, p, at);
    HeardAppend(front, last, p);
    InsideIsReplayed(front, p);
    assert log[..|front|] == front && log[..at] == front[..at];
    assert log[at..end] == front[at..end];
    assert StayEnd(log, p, at) == end;
    JoinsLaterGrows(front, last, p, end);
    StayIsThere(front, last, p, at, end);
  }

  lemma JoinsLaterGrows(front: seq<RoomEvent>, last: RoomEvent, p: PlayerId, end: nat)
    requires end <= |front|
    ensures JoinsLater(front + [last], p, end) <==> JoinsLater(front, p, end) || JoinOf(last, p)
  {
    var log := front + [last];
    assert log[|front|] == last;
    if JoinsLater(front, p, end) {
      var i :| end <= i < |front| && JoinOf(front[i], p);
      assert log[i] == front[i];
    }
  }

  /** A stay that an event does not belong to is the same stay in the longer log. */
  lemma StayIsThere(front: seq<RoomEvent>, last: RoomEvent, p: PlayerId, at: nat, end: nat)
    requires Stay(front, p, at, end) && (end == |front| ==> !Inside(front, p) && !(last.RoomShut? && LeftLast(front, p)))
    ensures Stay(front + [last], p, at, end)
  {
    var log := front + [last];
    assert log[..end] == front[..end] && log[..end - 1] == front[..end - 1];
    assert front[..|front|] == front;
  }

  /** For every coherent log and every joining in it: that stay was heard as one contiguous slice of the log, from its own
      joining to its own leaving, plus the closing if the member was the last one out; nothing else was heard after
      it unless the member joined again. */
  lemma {:induction false} EveryStayIsOneSlice(log: seq<RoomEvent>, p: PlayerId, at: nat)
    requires Coherent(log) && at < |log| && JoinOf(log[at], p)
    ensures Sliced(log, p, at)
    decreases |log|
  {
    var front, last := log[..|log| - 1], log[|log| - 1];
    assert log == front + [last];
    if at == |front| {
      SliceBegins(front, last, p);
    } else {
      EveryStayIsOneSlice(front, p, at);
      if StayEnd(front, p, at) == |front| && Hears(front, last, p) && !JoinOf(last, p) {
        SliceGrows(front, last, p, at);
      } else {
        SliceStays(front, last, p, at);
      }
    }
  }

  // ---- One stay is delivered ----

  ghost predicate NobodyElse<S>(members: map<PlayerId, Member<S>>, p: PlayerId, sink: S) {
    forall q :: q in members && q != p ==> members[q].sink != sink
  }

  ghost function MembersAt<S>(w: World<S>, inputs: seq<Input<S>>, k: nat): map<PlayerId, Member<S>>
    requires k <= |inputs|
  {
    Run(w, inputs[..k]).t.actor.members
  }

  /** From the first input on, `p` has not been out of the room. */
  ghost predicate StillIn<S>(w: World<S>, inputs: seq<Input<S>>, p: PlayerId, n: nat)
    requires n <= |inputs|
  {
    forall k :: 1 <= k <= n ==> p in MembersAt(w, inputs, k)
  }

  /** The first input lets `p` in, with this sink; while that stay lasts, nobody else in the room uses the sink. */
  ghost predicate StaysWith<S>(w: World<S>, inputs: seq<Input<S>>, p: PlayerId, sink: S) {
    && inputs != [] && inputs[0].Control? && inputs[0].signal.Some?
    && (var c := inputs[0].signal.value; c.Join? && c.player == p && c.sink == sink)
    && p !in w.t.actor.members && p in Step(w, inputs[0]).t.actor.members
    && forall k :: 1 <= k <= |inputs| && StillIn(w, inputs, p, k) ==> NobodyElse(MembersAt(w, inputs, k), p, sink)
  }

  /** During the stay the room has offered the sink all of its log from the joining on; after it, the whole slice. */
  ghost predicate Delivered<S>(w: World<S>, p: PlayerId, sink: S, base: seq<RoomEvent>, at: nat, inside: bool) {
    && sink in w.sinks && at < |w.t.log|
    && var log, offered := w.t.log, Share(w, sink);
       if inside
       then && p in w.t.actor.members && w.t.actor.members[p].sink == sink
            && offered == base + log[at..] && StayEnd(log, p, at) == |log|
       else base + log[at..StayEnd(log, p, at)] <= offered && Settled(log, p, at)
  }

  /** Nothing logged from here on belongs to the stay. */
  predicate Settled(log: seq<RoomEvent>, p: PlayerId, at: nat)
    requires at < |log|
  {
    StayEnd(log, p, at) < |log| || (!Inside(log, p) && !LeftLast(log, p))
  }

  lemma {:induction false} SettledStays(log: seq<RoomEvent>, more: seq<RoomEvent>, p: PlayerId, at: nat)
    requires at < |log| && Settled(log, p, at)
    ensures StayEnd(log + more, p, at) == StayEnd(log, p, at) && Settled(log + more, p, at)
    decreases |more|
  {
    if more == [] {
      assert log + more == log;
    } else {
      var front := more[..|more| - 1];
      SettledStays(log, front, p, at);
      assert (log + more)[..|log + more| - 1] == log + front;
    }
  }

  lemma StayGoesOn(log: seq<RoomEvent>, events: seq<RoomEvent>, p: PlayerId, at: nat)
    requires at < |log| && StayEnd(log, p, at) == |log| && |events| <= 2
    requires Heard(log + events, p) == Heard(log, p) + events
    requires forall i :: 0 <= i < |events| ==> !JoinOf(events[i], p)
    ensures StayEnd(log + events, p, at) == |log + events|
  {
    if events == [] {
      assert log + events == log;
    } else {
      var mid := log + [events[0]];
      HeardAppend(log, events[0], p);
      assert mid[..|mid| - 1] == log;
      if |events| == 1 {
        assert log + events == mid;
      } else {
        HeardAppend(mid, events[1], p);
        assert log + events == mid + [events[1]];
        assert (log + events)[..|log + events| - 1] == mid;
      }
    }
  }

  lemma MemberDoesNotJoin<S>(t: Transcript<S>, signal: Signal<S>, p: PlayerId)
    requires ValidTranscript(t) && p in t.actor.members
    ensures |Events(t, signal)| <= 2 && forall i :: 0 <= i < |Events(t, signal)| ==> !JoinOf(Events(t, signal)[i], p)
    ensures t.stopped || p in Audience(t, signal)
    ensures p in Hear(t, signal).actor.members ==> Hear(t, signal).actor.members[p] == t.actor.members[p]
  {
  }

  /** A member whose sink nobody else uses is offered all events, its own leaving included. */
  lemma MemberIsTold<S>(w: World<S>, signal: Signal<S>, p: PlayerId, sink: S)
    requires Sound(w, sink) && p in w.t.actor.members && w.t.actor.members[p].sink == sink
    requires NobodyElse(w.t.actor.members, p, sink)
    requires p in Hear(w.t, signal).actor.members ==> NobodyElse(Hear(w.t, signal).actor.members, p, sink)
    ensures var w', events := Step(w, Control(signal)), Events(w.t, signal);
            && Sound(w', sink) && w'.t.log == w.t.log + events
            && Share(w', sink) == Share(w, sink) + events
            && Heard(w.t.log + events, p) == Heard(w.t.log, p) + events
            && |events| <= 2 && (forall i :: 0 <= i < |events| ==> !JoinOf(events[i], p))
            && (p in w'.t.actor.members ==> w'.t.actor.members[p].sink == sink)
  {
    var audience, events := Audience(w.t, signal), Events(w.t, signal);
    SignalSpreads(w, signal);
    SignalIsHeard(w.t, signal, p);
    MemberDoesNotJoin(w.t, signal, p);
    if w.t.stopped {
      NothingSpreads(w.sinks, audience);
    } else {
      AudienceIsPresent(w.t, signal);
      assert SoleUser(audience, p, sink);
      SoleUserIsTold(w.sinks, audience, events, p, sink);
    }
    ShareGrows(w, signal, sink, events);
  }

  /** A step during the stay. */
  lemma StayStep<S>(w: World<S>, signal: Signal<S>, p: PlayerId, sink: S, base: seq<RoomEvent>, at: nat)
    requires Sound(w, sink) && Delivered(w, p, sink, base, at, true)
    requires NobodyElse(w.t.actor.members, p, sink)
    requires var w' := Step(w, Control(signal));
             p in w'.t.actor.members ==> NobodyElse(w'.t.actor.members, p, sink)
    ensures var w' := Step(w, Control(signal));
            Delivered(w', p, sink, base, at, p in w'.t.actor.members)
  {
    var w', events := Step(w, Control(signal)), Events(w.t, signal);
    MemberIsTold(w, signal, p, sink);
    StayGoesOn(w.t.log, events, p, at);
    TailGrows(base, w.t.log, events, at);
    OutsiderIsGone(w'.t, p);
  }

  lemma OutsiderIsGone<S>(t: Transcript<S>, p: PlayerId)
    requires ValidTranscript(t)
    ensures p !in t.actor.members ==> !Inside(t.log, p) && !LeftLast(t.log, p)
  {
    MemberIsInside(t, p);
    NobodyLeftLast(t, p);
  }

  lemma SignalOnlyAdds<S>(w: World<S>, signal: Signal<S>, sink: S)
    requires Sound(w, sink)
    ensures Sound(Step(w, Control(signal)), sink)
    ensures w.sinks[sink].offered <= Step(w, Control(signal)).sinks[sink].offered
    ensures w.t.log <= Step(w, Control(signal)).t.log
  {
    SignalSpreads(w, signal);
    var events, times := Events(w.t, signal), Shares(Audience(w.t, signal), sink);
    OfferAllKeepsValid(w.sinks[sink], events, times);
    OfferAllOnlyAdds(w.sinks[sink], events, times);
  }

  lemma StepOnlyAdds<S>(w: World<S>, input: Input<S>, sink: S)
    requires Sound(w, sink)
    ensures Sound(Step(w, input), sink)
    ensures Share(w, sink) <= Share(Step(w, input), sink) && w.t.log <= Step(w, input).t.log
    ensures Step(w, input).t.actor.room.id == w.t.actor.room.id
  {
    if input.Control? {
      SignalOnlyAdds(w, input.signal, sink);
      EventsAreOfTheRoom(w.t, input.signal);
      OfRoomPrefix(w.sinks[sink].offered, Step(w, input).sinks[sink].offered, w.t.actor.room.id);
    } else {
      ShareStays(w, input, sink);
    }
  }

  /** Only the receiver takes from a sink. */
  lemma TakenStays<S>(w: World<S>, input: Input<S>, sink: S)
    requires Sound(w, sink) && input != TakeFrom(sink)
    ensures sink in Step(w, input).sinks && Step(w, input).sinks[sink].taken == w.sinks[sink].taken
  {
    if input.Control? {
      SignalSpreads(w, input.signal);
      OfferAllTakesNothing(w.sinks[sink], Events(w.t, input.signal), Shares(Audience(w.t, input.signal), sink));
    }
  }

  /** A step after the stay changes nothing about it, whoever uses the sink by then. */
  lemma LaterStep<S>(w: World<S>, input: Input<S>, p: PlayerId, sink: S, base: seq<RoomEvent>, at: nat)
    requires Sound(w, sink) && Delivered(w, p, sink, base, at, false)
    ensures Delivered(Step(w, input), p, sink, base, at, false)
  {
    StepOnlyAdds(w, input, sink);
    SettledSlice(w.t.log, Step(w, input).t.log, p, at);
  }

  lemma SettledSlice(log: seq<RoomEvent>, log': seq<RoomEvent>, p: PlayerId, at: nat)
    requires at < |log| && log <= log' && Settled(log, p, at)
    ensures Settled(log', p, at) && StayEnd(log', p, at) == StayEnd(log, p, at)
    ensures log'[at..StayEnd(log, p, at)] == log[at..StayEnd(log, p, at)]
  {
    SettledStays(log, log'[|log|..], p, at);
    assert log' == log + log'[|log|..];
  }

  lemma NextStep<S>(
    w: World<S>, input: Input<S>, p: PlayerId, sink: S, base: seq<RoomEvent>, at: nat, inside: bool)
    requires Sound(w, sink) && Delivered(w, p, sink, base, at, inside) && JoinOf(w.t.log[at], p)
    requires inside ==> NobodyElse(w.t.actor.members, p, sink)
    requires var w' := Step(w, input);
             inside && p in w'.t.actor.members ==> NobodyElse(w'.t.actor.members, p, sink)
    ensures var w' := Step(w, input);
            Delivered(w', p, sink, base, at, inside && p in w'.t.actor.members) && JoinOf(w'.t.log[at], p)
  {
    StepOnlyAdds(w, input, sink);
    if !inside {
      LaterStep(w, input, p, sink, base, at);
    } else if input.Control? {
      StayStep(w, input.signal, p, sink, base, at);
    } else {
      ShareStays(w, input, sink);
    }
  }

  lemma FirstStep<S>(w: World<S>, c: RoomCommand<S>, p: PlayerId, sink: S)
    requires Sound(w, sink) && c.Join? && c.player == p && c.sink == sink
    requires p !in w.t.actor.members
    requires var w' := Step(w, Control(Some(c)));
             p in w'.t.actor.members && NobodyElse(w'.t.actor.members, p, sink)
    ensures Delivered(Step(w, Control(Some(c))), p, sink, Share(w, sink), |w.t.log|, true)
    ensures JoinOf(Step(w, Control(Some(c))).t.log[|w.t.log|], p)
  {
    var w', events := Step(w, Control(Some(c))), Events(w.t, Some(c));
    SignalSpreads(w, Some(c));
    SoleUserIsTold(w.sinks, Audience(w.t, Some(c)), events, p, sink);
    ShareGrows(w, Some(c), sink, events);
    assert w'.t.log[|w.t.log|..] == events;
  }

  lemma {:induction false} RunIsSound<S>(w: World<S>, inputs: seq<Input<S>>, sink: S)
    requires Sound(w, sink)
    ensures Sound(Run(w, inputs), sink)
    decreases |inputs|
  {
    if inputs != [] {
      RunIsSound(w, inputs[..|inputs| - 1], sink);
      StepOnlyAdds(Run(w, inputs[..|inputs| - 1]), inputs[|inputs| - 1], sink);
    }
  }

  lemma StillInNext<S>(w: World<S>, inputs: seq<Input<S>>, p: PlayerId, sink: S, n: nat)
    requires StaysWith(w, inputs, p, sink) && 2 <= n <= |inputs|
    ensures StillIn(w, inputs, p, n) <==> StillIn(w, inputs, p, n - 1) && p in MembersAt(w, inputs, n)
    ensures StillIn(w, inputs, p, n - 1) ==> NobodyElse(MembersAt(w, inputs, n - 1), p, sink)
    ensures StillIn(w, inputs, p, n) ==> NobodyElse(MembersAt(w, inputs, n), p, sink)
  {
  }

  lemma RunNext<S>(w: World<S>, inputs: seq<Input<S>>, n: nat)
    requires 1 <= n <= |inputs|
    ensures Run(w, inputs[..n]) == Step(Run(w, inputs[..n - 1]), inputs[n - 1])
  {
    assert inputs[..n][..n - 1] == inputs[..n - 1];
  }

  lemma StayBegins<S>(w: World<S>, inputs: seq<Input<S>>, p: PlayerId, sink: S)
    requires Sound(w, sink) && StaysWith(w, inputs, p, sink)
    ensures var w' := Run(w, inputs[..1]);
            && StillIn(w, inputs, p, 1) && Delivered(w', p, sink, Share(w, sink), |w.t.log|, true)
            && JoinOf(w'.t.log[|w.t.log|], p)
  {
    RunNext(w, inputs, 1);
    assert inputs[..0] == [];
    assert StillIn(w, inputs, p, 1);
    FirstStep(w, inputs[0].signal.value, p, sink);
  }

  lemma {:induction false} StayIsKept<S>(w: World<S>, inputs: seq<Input<S>>, p: PlayerId, sink: S, n: nat)
    requires Sound(w, sink) && StaysWith(w, inputs, p, sink) && 1 <= n <= |inputs|
    ensures var w' := Run(w, inputs[..n]);
            && Delivered(w', p, sink, Share(w, sink), |w.t.log|, StillIn(w, inputs, p, n))
            && JoinOf(w'.t.log[|w.t.log|], p)
  {
    if n == 1 {
      StayBegins(w, inputs, p, sink);
    } else {
      StayIsKept(w, inputs, p, sink, n - 1);
      RunIsSound(w, inputs[..n - 1], sink);
      RunNext(w, inputs, n);
      StillInNext(w, inputs, p, sink, n);
      NextStep(Run(w, inputs[..n - 1]), inputs[n - 1], p, sink, Share(w, sink), |w.t.log|, StillIn(w, inputs, p, n - 1));
    }
  }

  /** The promise to a member, for every stay of every player in every run: whatever the sink carried before, whatever
      happens after, and whatever other rooms offer it meanwhile, the stay adds to the room's share of the sink exactly the
      contiguous slice of the room's log from the member's own joining to its own leaving (plus the closing if it was the
      last one out), in order, with no gap and no repetition. If the sink never failed, all of it was queued; anything lost
      leaves the failure flag up. Only while the stay lasts must nobody else in the room use the sink. */
  lemma EveryStayIsDelivered<S>(w: World<S>, inputs: seq<Input<S>>, p: PlayerId, sink: S)
    requires Sound(w, sink) && StaysWith(w, inputs, p, sink)
    ensures var w' := Run(w, inputs);
            && sink in w'.sinks && |w.t.log| < |w'.t.log|
            && var at, after, id := |w.t.log|, w'.sinks[sink], w'.t.actor.room.id;
               var end := StayEnd(w'.t.log, p, at);
               var carried := Share(w, sink) + w'.t.log[at..end];
               && Stay(w'.t.log, p, at, end)
               && carried <= Share(w', sink)
               && (StillIn(w, inputs, p, |inputs|) ==> carried == Share(w', sink) && end == |w'.t.log|)
               && (!after.failed ==> carried <= OfRoom(after.accepted, id))
               && (!(carried <= OfRoom(after.accepted, id)) ==> after.failed)
  {
    StayIsKept(w, inputs, p, sink, |inputs|);
    assert inputs[..|inputs|] == inputs;
    RunIsSound(w, inputs, sink);
    StayIsStay(Run(w, inputs).t, p, |w.t.log|);
  }

  lemma StayIsStay<S>(t: Transcript<S>, p: PlayerId, at: nat)
    requires ValidTranscript(t) && at < |t.log| && JoinOf(t.log[at], p)
    ensures Stay(t.log, p, at, StayEnd(t.log, p, at))
  {
    EveryStayIsOneSlice(t.log, p, at);
  }

  /** Every run from an opened room reaches only sound worlds, so the above holds from any point of any run. */
  lemma EveryRunIsSound<S>(
    id: RoomId, maxPlayers: nat, sinks: map<S, SinkValue>, inputs: seq<Input<S>>, sink: S)
    requires sink in sinks && ValidSink(sinks[sink])
    ensures Sound(Run(World(Start(Opened(id, maxPlayers)), sinks), inputs), sink)
  {
    EveryLifeIsValid<S>(id, maxPlayers, []);
    RunIsSound(World(Start(Opened(id, maxPlayers)), sinks), inputs, sink);
  }
}
