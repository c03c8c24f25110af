/** Under which name a member speaks: the one it brought when its present stay began. */
module RoomNames {
  import opened Prelude
  import opened RoomAggregate
  import opened RoomSinks
  import opened RoomActors

  /** The name under which `p` is inside, told from the log alone. */
  function NameIn(log: seq<RoomEvent>, p: PlayerId): Option<string>
    decreases |log|
  {
    if log == [] then None
    else
      var last := log[|log| - 1];
      if JoinOf(last, p) then Some(last.nickname)
      else if LeaveOf(last, p) then None
      else NameIn(log[..|log| - 1], p)
  }

  /** A stay of `p` that is going on after `log` began under that name. */
  ghost predicate StaysAs(log: seq<RoomEvent>, p: PlayerId, name: string) {
    exists at :: BeganAt(log, at, p, name)
  }

  ghost predicate BeganAt(log: seq<RoomEvent>, at: int, p: PlayerId, name: string) {
    && 0 <= at < |log| && JoinOf(log[at], p) && log[at].nickname == name
    && forall k :: at < k < |log| ==> !JoinOf(log[k], p) && !LeaveOf(log[k], p)
  }

  lemma {:induction false} NameIsOfTheStay(log: seq<RoomEvent>, p: PlayerId, name: string)
    requires NameIn(log, p) == Some(name)
    ensures StaysAs(log, p, name)
    decreases |log|
  {
    var front, last := log[..|log| - 1], log[|log| - 1];
    if JoinOf(last, p) {
      assert BeganAt(log, |log| - 1, p, name);
    } else {
      NameIsOfTheStay(front, p, name);
      var at :| BeganAt(front, at, p, name);
      assert BeganAt(log, at, p, name);
    }
  }

  /** The member map has everybody under the name the log knows. */
  ghost predicate NamesKnown<S>(log: seq<RoomEvent>, members: map<PlayerId, Member<S>>) {
    forall p :: p in members ==> NameIn(log, p) == Some(members[p].nickname)
  }

  /** Whatever was said was said under the name its sender had at that point. */
  ghost predicate ChatsNamed(log: seq<RoomEvent>) {
    forall i :: 0 <= i < |log| && log[i].ChatSaid? ==> NameIn(log[..i], log[i].sender) == Some(log[i].nickname)
  }

  lemma NameAfter(log: seq<RoomEvent>, e: RoomEvent, p: PlayerId)
    ensures NameIn(log + [e], p) ==
            if JoinOf(e, p) then Some(e.nickname) else if LeaveOf(e, p) then None else NameIn(log, p)
  {
    assert (log + [e])[..|log + [e]| - 1] == log;
  }

  lemma ChatsAfter(log: seq<RoomEvent>, e: RoomEvent)
    requires ChatsNamed(log) && (e.ChatSaid? ==> NameIn(log, e.sender) == Some(e.nickname))
    ensures ChatsNamed(log + [e])
  {
    var all := log + [e];
    forall i | 0 <= i < |all| && all[i].ChatSaid?
      ensures NameIn(all[..i], all[i].sender) == Some(all[i].nickname)
    {
      assert all[..i] == log[..i];
      assert i < |log| ==> all[i] == log[i];
      assert log[..|log|] == log;
    }
  }

  lemma OneEvent<S>(log: seq<RoomEvent>, e: RoomEvent, before: map<PlayerId, Member<S>>, after: map<PlayerId, Member<S>>)
    requires ChatsNamed(log) && NamesKnown(log, before)
    requires e.ChatSaid? ==> e.sender in before && before[e.sender].nickname == e.nickname
    requires forall p :: p in after ==>
      !LeaveOf(e, p) && if JoinOf(e, p) then after[p].nickname == e.nickname else p in before && after[p] == before[p]
    ensures ChatsNamed(log + [e]) && NamesKnown(log + [e], after)
  {
    ChatsAfter(log, e);
    forall p | p in after ensures NameIn(log + [e], p) == Some(after[p].nickname) {
      NameAfter(log, e, p);
    }
  }

  lemma LeaveKeepsNames<S>(log: seq<RoomEvent>, a: Actor<S>, p: PlayerId)
    requires ChatsNamed(log) && NamesKnown(log, a.members)
    ensures var e := HandleLeave(a, p); ChatsNamed(log + e.events) && NamesKnown(log + e.events, e.next.members)
  {
    var e := HandleLeave(a, p);
    if e.events == [] {
      assert log + [] == log;
    } else {
      var mid := log + [e.events[0]];
      OneEvent(log, e.events[0], a.members, e.next.members);
      if |e.events| == 1 {
        assert log + e.events == mid;
      } else {
        OneEvent(mid, e.events[1], e.next.members, e.next.members);
        assert log + e.events == mid + [e.events[1]];
      }
    }
  }

  lemma CommandKeepsNames<S>(log: seq<RoomEvent>, a: Actor<S>, c: RoomCommand<S>)
    requires ChatsNamed(log) && NamesKnown(log, a.members)
    ensures var e := Handle(a, c); ChatsNamed(log + e.events) && NamesKnown(log + e.events, e.next.members)
  {
    var e := Handle(a, c);
    if c.Leave? {
      LeaveKeepsNames(log, a, c.player);
    } else if e.events == [] {
      assert log + [] == log;
    } else {
      OneEvent(log, e.events[0], a.members, e.next.members);
      assert e.events == [e.events[0]];
    }
  }

  lemma FinishKeepsNames<S>(log: seq<RoomEvent>, a: Actor<S>, reason: string)
    requires ChatsNamed(log) && NamesKnown(log, a.members)
    ensures var (next, shut) := Finish(a, reason); ChatsNamed(log + shut) && NamesKnown(log + shut, next.members)
  {
    var (next, shut) := Finish(a, reason);
    if shut == [] {
      assert log + [] == log;
    } else {
      OneEvent(log, shut[0], a.members, a.members);
      assert shut == [shut[0]];
    }
  }

  lemma HearKeepsNames<S>(t: Transcript<S>, signal: Signal<S>)
    requires ChatsNamed(t.log) && NamesKnown(t.log, t.actor.members)
    ensures ChatsNamed(Hear(t, signal).log) && NamesKnown(Hear(t, signal).log, Hear(t, signal).actor.members)
  {
    if t.stopped {
    } else if signal.None? {
      FinishKeepsNames(t.log, t.actor, CHANNEL_CLOSED);
    } else {
      var e := Handle(t.actor, signal.value);
      CommandKeepsNames(t.log, t.actor, signal.value);
      if e.stop {
        FinishKeepsNames(t.log + e.events, e.next, CHANNEL_CLOSED);
      } else {
        assert t.log + e.events + [] == t.log + e.events;
      }
    }
  }

  lemma {:induction false} LifeKeepsNames<S>(id: RoomId, maxPlayers: nat, signals: seq<Signal<S>>)
    ensures var t := Life(Start<S>(Opened(id, maxPlayers)), signals);
            ChatsNamed(t.log) && NamesKnown(t.log, t.actor.members)
    decreases |signals|
  {
    if signals != [] {
      LifeKeepsNames(id, maxPlayers, signals[..|signals| - 1]);
      HearKeepsNames(Life(Start<S>(Opened(id, maxPlayers)), signals[..|signals| - 1]), signals[|signals| - 1]);
    }
  }

  /** In every life of a room: whatever was said lies in a stay of its sender that began under the very name it was said
      under; and a member is listed under the name its stay began with. */
  lemma EveryChatIsNamed<S>(id: RoomId, maxPlayers: nat, signals: seq<Signal<S>>, i: nat, p: PlayerId)
    ensures var t := Life(Start<S>(Opened(id, maxPlayers)), signals);
            && (i < |t.log| && t.log[i].ChatSaid? ==> StaysAs(t.log[..i], t.log[i].sender, t.log[i].nickname))
            && (p in t.actor.members ==> StaysAs(t.log, p, t.actor.members[p].nickname))
  {
    LifeKeepsNames<S>(id, maxPlayers, signals);
    var t := Life(Start<S>(Opened(id, maxPlayers)), signals);
    if i < |t.log| && t.log[i].ChatSaid? {
      NameIsOfTheStay(t.log[..i], t.log[i].sender, t.log[i].nickname);
    }
    if p in t.actor.members {
      NameIsOfTheStay(t.log, p, t.actor.members[p].nickname);
    }
  }
}
