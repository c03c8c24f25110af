/** Why a call ended the way it did: each outcome of a join and of a chat, told from the registry, the queue and the actor's
    reply at the point where it was decided. */
module RoomServiceOutcomes {
  import opened Prelude
  import Texts
  import opened RoomAggregate
  import opened RoomActors
  import opened RoomService
  import opened RoomServiceInvariant

  // ---- Joins ----

  /** The room is registered and open. */
  predicate Available(s: System, room: RoomId) {
    room in s.registry && !(room in s.cells && s.cells[room].actor.closed)
  }

  /** What makes a joining call fail, where it stands. */
  ghost predicate FailsWith(s: System, id: OpId, op: Op, error: AppError)
    requires op.Joining?
  {
    match error
    case NotFound =>
      || (op.join == JoinLookup && !Available(s, op.room))
      || (op.join == JoinSend && op.room in s.cells && s.cells[op.room].phase.Stopped?)
    case Domain(e) => op.join == JoinWait && id in s.mail && s.mail[id] == Joined(Err(e))
    case JoinUnknown =>
      op.join == JoinWait && id !in s.mail && op.room in s.cells && !Outstanding(s.cells[op.room], id)
    case _ => false
  }

  /** A joining call fails with an error exactly if that is what it meets; a creating one takes its room back first. */
  lemma JoinFailsExactlyWhen(s: System, id: OpId, s': System, error: AppError)
    requires id in s.ops && s.ops[id].Joining? && AdvanceJoin(s, id, s.ops[id]) == Some(s')
    ensures id in s'.ops
    ensures var op, next := s.ops[id], s'.ops[id];
            (next == if op.creating then Undoing(op.guest, op.room, error) else JoinDone(Err(error))) <==> FailsWith(s, id, op, error)
  {
  }

  /** Otherwise it goes on: from an available room to sending, from a queue with space to waiting with its own command at the
      end of the queue, from a welcome to success. */
  lemma JoinGoesOnExactlyWhen(s: System, id: OpId, s': System)
    requires id in s.ops && s.ops[id].Joining? && AdvanceJoin(s, id, s.ops[id]) == Some(s')
    ensures id in s'.ops
    ensures var op, next := s.ops[id], s'.ops[id];
            && (next == op.(join := JoinSend) <==> op.join == JoinLookup && Available(s, op.room))
            && (next == op.(join := JoinWait) <==> op.join == JoinSend && op.room in s.cells && !s.cells[op.room].phase.Stopped?)
            && (next == op.(join := JoinPublish) <==> op.join == JoinWait && id in s.mail && s.mail[id].Joined? && s.mail[id].joined.Ok?)
            && (next == JoinDone(Ok(op.room)) <==> op.join == JoinPublish)
    ensures var op := s.ops[id];
            op.join == JoinSend && op.room in s.cells && !s.cells[op.room].phase.Stopped? ==>
              op.room in s'.cells && s'.cells[op.room].queue ==
              s.cells[op.room].queue + [RoomCommand.Join(op.guest.player, op.guest.nickname, op.guest.sink, id)]
  {
  }

  lemma UndoingEnds(s: System, id: OpId, s': System)
    requires id in s.ops && s.ops[id].Undoing? && Advanced(s, id, s.ops[id]) == Some(s')
    ensures id in s'.ops && s'.ops[id] == JoinDone(Err(s.ops[id].error)) && s'.registry == s.registry - {s.ops[id].room}
  {
  }

  /** In the first `n` states the call met what makes it fail with that error. */
  ghost predicate MetBefore(states: seq<System>, n: nat, id: OpId, error: AppError)
    requires n <= |states|
  {
    exists i :: 0 <= i < n && MeetsAt(states[i], id, error)
  }

  ghost predicate MeetsAt(s: System, id: OpId, error: AppError) {
    id in s.ops && s.ops[id].Joining? && FailsWith(s, id, s.ops[id], error)
  }

  ghost predicate WelcomedBefore(states: seq<System>, n: nat, id: OpId, room: RoomId)
    requires n <= |states|
  {
    exists i :: 0 <= i < n && WelcomedAt(states[i], id, room)
  }

  ghost predicate WelcomedAt(s: System, id: OpId, room: RoomId) {
    && id in s.ops && s.ops[id].Joining? && s.ops[id].room == room && s.ops[id].join == JoinWait
    && id in s.mail && s.mail[id].Joined? && s.mail[id].joined.Ok?
  }

  /** How far a joining call can tell how it came to be there. */
  ghost predicate JoinExplained(states: seq<System>, n: nat, id: OpId, op: Op)
    requires n <= |states|
  {
    match op
    case Joining(_, room, _, JoinPublish) => WelcomedBefore(states, n, id, room)
    case Undoing(_, _, error) => MetBefore(states, n, id, error)
    case JoinDone(Ok(room)) => WelcomedBefore(states, n, id, room)
    case JoinDone(Err(error)) => MetBefore(states, n, id, error)
    case _ => true
  }

  /** One more state explains nothing less. */
  lemma StillExplained(states: seq<System>, n: nat, id: OpId, op: Op)
    requires n < |states| && JoinExplained(states, n, id, op)
    ensures JoinExplained(states, n + 1, id, op)
  {
    match op {
      case Joining(_, room, _, JoinPublish) => StillWelcomed(states, n, id, room);
      case Undoing(_, _, error) => StillMet(states, n, id, error);
      case JoinDone(Ok(room)) => StillWelcomed(states, n, id, room);
      case JoinDone(Err(error)) => StillMet(states, n, id, error);
      case _ =>
    }
  }

  lemma StillWelcomed(states: seq<System>, n: nat, id: OpId, room: RoomId)
    requires n < |states| && WelcomedBefore(states, n, id, room)
    ensures WelcomedBefore(states, n + 1, id, room)
  {
    var i :| 0 <= i < n && WelcomedAt(states[i], id, room);
    assert 0 <= i < n + 1 && WelcomedAt(states[i], id, room);
  }

  lemma StillMet(states: seq<System>, n: nat, id: OpId, error: AppError)
    requires n < |states| && MetBefore(states, n, id, error)
    ensures MetBefore(states, n + 1, id, error)
  {
    var i :| 0 <= i < n && MeetsAt(states[i], id, error);
    assert 0 <= i < n + 1 && MeetsAt(states[i], id, error);
  }

  /** A step of the call itself: what it becomes is explained by the state it left. */
  lemma OwnJoinStep(states: seq<System>, n: nat, id: OpId, s': System)
    requires n < |states| && id in states[n].ops && JoinExplained(states, n, id, states[n].ops[id])
    requires Advanced(states[n], id, states[n].ops[id]) == Some(s')
    ensures id in s'.ops && JoinExplained(states, n + 1, id, s'.ops[id])
  {
    var s, op := states[n], states[n].ops[id];
    StillExplained(states, n, id, op);
    if op.Joining? {
      JoiningStep(states, n, id, s');
    } else {
      CallIsLocal(s, id, op, s');
      OtherStepsAreNoJoins(s, id, s');
    }
  }

  lemma OtherStepsAreNoJoins(s: System, id: OpId, s': System)
    requires id in s.ops && !s.ops[id].Joining? && Advanced(s, id, s.ops[id]) == Some(s')
    ensures id in s'.ops
    ensures s'.ops[id].JoinDone? ==> s.ops[id].Undoing? && s'.ops[id] == JoinDone(Err(s.ops[id].error))
    ensures !s'.ops[id].Undoing? && (s'.ops[id].Joining? ==> s'.ops[id].join == JoinLookup)
  {
    if s.ops[id].Leaving? {
      LeavesJoinNothing(s, id, s');
    }
  }

  lemma LeavesJoinNothing(s: System, id: OpId, s': System)
    requires id in s.ops && s.ops[id].Leaving? && AdvanceLeave(s, id, s.ops[id]) == Some(s')
    ensures id in s'.ops && (s'.ops[id].Leaving? || s'.ops[id].LeaveDone?)
  {
  }

  lemma JoiningStep(states: seq<System>, n: nat, id: OpId, s': System)
    requires n < |states| && id in states[n].ops && states[n].ops[id].Joining?
    requires JoinExplained(states, n + 1, id, states[n].ops[id])
    requires AdvanceJoin(states[n], id, states[n].ops[id]) == Some(s')
    ensures id in s'.ops && JoinExplained(states, n + 1, id, s'.ops[id])
  {
    var s, op := states[n], states[n].ops[id];
    JoinGoesOnExactlyWhen(s, id, s');
    if s'.ops[id].Undoing? {
      JoinFailsExactlyWhen(s, id, s', s'.ops[id].error);
      assert MeetsAt(states[n], id, s'.ops[id].error);
    } else if s'.ops[id].JoinDone? && s'.ops[id].joined.Err? {
      JoinFailsExactlyWhen(s, id, s', s'.ops[id].joined.error);
      assert MeetsAt(states[n], id, s'.ops[id].joined.error);
    } else if s'.ops[id].Joining? && s'.ops[id].join == JoinPublish {
      assert WelcomedAt(states[n], id, op.room);
    }
  }

  lemma OtherSteps(s: System, l: Label, s': System, id: OpId)
    requires Next(s, l, s') && id in s'.ops && l != Advance(id)
    ensures id in s.ops ==> s'.ops[id] == s.ops[id] || (!s'.ops[id].Joining? && !s'.ops[id].Undoing? && !s'.ops[id].JoinDone?)
    ensures id !in s.ops ==> !s'.ops[id].Undoing? && !s'.ops[id].JoinDone? && (s'.ops[id].Joining? ==> s'.ops[id].join == JoinLookup)
  {
    if l.Advance? {
      CallIsLocal(s, l.id, s.ops[l.id], s');
    }
  }

  lemma {:induction false} EveryJoinIsExplained(states: seq<System>, labels: seq<Label>, n: nat, id: OpId)
    requires IsRun(states, labels) && StartsEmpty(states) && n < |states| && id in states[n].ops
    ensures JoinExplained(states, n, id, states[n].ops[id])
  {
    if n > 0 {
      var s, l := states[n - 1], labels[n - 1];
      if id in s.ops {
        EveryJoinIsExplained(states, labels, n - 1, id);
      }
      if l == Advance(id) {
        OwnJoinStep(states, n - 1, id, states[n]);
      } else {
        OtherSteps(s, l, states[n], id);
        if id in s.ops && states[n].ops[id] == s.ops[id] {
          StillExplained(states, n - 1, id, s.ops[id]);
        }
      }
    }
  }

  /** In every run: a join that ended in success was welcomed by the actor of the very room it reports; one that ended in an
      error had met it: no available room or no actor, the aggregate's own refusal, or a reply that will never come. */
  lemma JoinEndsForAReason(states: seq<System>, labels: seq<Label>, n: nat, id: OpId)
    requires IsRun(states, labels) && StartsEmpty(states) && n < |states| && id in states[n].ops && states[n].ops[id].JoinDone?
    ensures states[n].ops[id].joined.Ok? ==> WelcomedBefore(states, n, id, states[n].ops[id].joined.value)
    ensures states[n].ops[id].joined.Err? ==> MetBefore(states, n, id, states[n].ops[id].joined.error)
  {
    EveryJoinIsExplained(states, labels, n, id);
  }

  /** The call is about that room, and can report no other. */
  predicate JoinsRoom(op: Op, room: RoomId) {
    match op
    case Registering(_, r) => r == room
    case Joining(_, r, _, _) => r == room
    case Undoing(_, r, _) => r == room
    case JoinDone(Ok(r)) => r == room
    case JoinDone(Err(_)) => true
    case Aborted => true
    case _ => false
  }

  lemma JoinKeepsRoom(s: System, id: OpId, s': System, room: RoomId)
    requires id in s.ops && JoinsRoom(s.ops[id], room) && Advanced(s, id, s.ops[id]) == Some(s')
    ensures id in s'.ops && JoinsRoom(s'.ops[id], room)
  {
  }

  /** A join asked for a room, or a creation under a new id, joins that room or none. */
  lemma StepKeepsRoom(s: System, l: Label, s': System, id: OpId, room: RoomId)
    requires Next(s, l, s') && id in s.ops && JoinsRoom(s.ops[id], room)
    ensures id in s'.ops && JoinsRoom(s'.ops[id], room)
  {
    if l.Advance? {
      CallIsLocal(s, l.id, s.ops[l.id], s');
      if l.id == id {
        JoinKeepsRoom(s, id, s', room);
      }
    }
  }

  // ---- Chats ----

  /** Each step of a chat, told from its text and the room: a text without a core of one to 512 characters is invalid; then
      the room must be available; then its actor must still be there and its queue have space, and the core of the text is
      put at its end. */
  lemma ChatEndsExactlyWhen(s: System, id: OpId, s': System, pre: string, core: string, post: string)
    requires id in s.ops && s.ops[id].Chatting? && AdvanceChat(s, id, s.ops[id]) == Some(s')
    requires Texts.HasCore(s.ops[id].text, pre, core, post, IsWhitespace)
    ensures id in s'.ops
    ensures var op, next := s.ops[id], s'.ops[id];
            && (next == ChatDone(Err(Validation)) <==> !(1 <= |core| <= 512))
            && (1 <= |core| <= 512 && !op.found ==>
                  next == if Available(s, op.room) then op.(found := true) else ChatDone(Err(NotFound)))
            && (1 <= |core| <= 512 && op.found ==>
                  op.room in s.cells && op.room in s'.cells
                  && (s.cells[op.room].phase.Stopped? ==> next == ChatDone(Err(NotFound)))
                  && (!s.cells[op.room].phase.Stopped? && |s.cells[op.room].queue| >= s.capacity ==> next == ChatDone(Err(Busy)))
                  && (!s.cells[op.room].phase.Stopped? && |s.cells[op.room].queue| < s.capacity ==>
                        && next.ChatDone? && next.said.Ok?
                        && s'.cells[op.room].queue == s.cells[op.room].queue + [RoomCommand.Chat(op.player, core)]))
  {
    Texts.TrimIsCore(s.ops[id].text, pre, core, post, IsWhitespace);
  }
}
