/** `close_all`: every room that was registered when it drained the registry is told to close. */
module RoomShutdown {
  import opened Prelude
  import opened RoomAggregate
  import opened RoomActors
  import opened RoomService
  import opened RoomServiceInvariant

  /** The room is closed, or will be before it answers anything that is not already queued. */
  predicate ToldToClose(cell: Cell, reason: string) {
    cell.actor.closed || RoomCommand.Close(reason) in cell.queue
  }

  predicate AheadOf(op: Op, room: RoomId, reason: string) {
    op.Closing? && op.reason == reason && room in op.rest
  }

  /** The room was told, or the call has still to tell it. */
  predicate Doomed(s: System, c: OpId, room: RoomId, reason: string) {
    && room in s.cells && c in s.ops
    && (ToldToClose(s.cells[room], reason) || AheadOf(s.ops[c], room, reason))
  }

  lemma HandleKeepsTold(cell: Cell, reason: string)
    requires ValidActor(cell.actor) && !cell.actor.closed && cell.queue != [] && ToldToClose(cell, reason)
    ensures ToldToClose(AfterHandle(cell), reason)
  {
    var first := cell.queue[0];
    HandleKeepsValid(cell.actor, first);
    if first != RoomCommand.Close(reason) {
      var i :| 0 <= i < |cell.queue| && cell.queue[i] == RoomCommand.Close(reason);
      assert cell.queue[1..][i - 1] == RoomCommand.Close(reason);
    } else {
      assert Handle(cell.actor, first).next.closed;
    }
  }

  lemma WorkKeepsTold(s: System, at: RoomId, s': System, room: RoomId, reason: string)
    requires Inv(s) && at in s.cells && Worked(s, at) == Some(s')
    requires room in s.cells && ToldToClose(s.cells[room], reason)
    ensures room in s'.cells && ToldToClose(s'.cells[room], reason)
  {
    var cell := s.cells[at];
    assert CellOk(s, at, cell);
    if room == at && cell.phase.Idle? && cell.queue != [] {
      HandleKeepsTold(cell, reason);
    }
  }

  lemma GrowthKeepsTold(cell: Cell, cell': Cell, id: OpId, op: Op, reason: string)
    requires SameActor(cell, cell') && GrewBy(cell.queue, cell'.queue, id, op) && ToldToClose(cell, reason)
    ensures ToldToClose(cell', reason)
  {
    if !cell.actor.closed && cell'.queue != cell.queue {
      var i :| 0 <= i < |cell.queue| && cell.queue[i] == RoomCommand.Close(reason);
      assert cell'.queue[..|cell.queue|][i] == cell'.queue[i];
    }
  }

  /** The closing call takes one step: the first room ahead is told, or its actor is already gone. */
  lemma ClosingTells(s: System, c: OpId, s': System, room: RoomId, reason: string)
    requires Inv(s) && room in s.cells && c in s.ops && AheadOf(s.ops[c], room, reason)
    requires AdvanceClosing(s, c, s.ops[c]) == Some(s')
    ensures Doomed(s', c, room, reason)
  {
    var rest := s.ops[c].rest;
    if room == rest[0] {
      assert CellOk(s, room, s.cells[room]);
      if !s.cells[room].phase.Stopped? {
        var queue := s'.cells[room].queue;
        assert queue[|queue| - 1] == RoomCommand.Close(reason);
      }
    } else {
      assert room in rest[1..];
    }
  }

  lemma AdvanceKeepsDoomed(s: System, id: OpId, s': System, c: OpId, room: RoomId, reason: string)
    requires Inv(s) && id in s.ops && Advanced(s, id, s.ops[id]) == Some(s') && Doomed(s, c, room, reason)
    ensures Doomed(s', c, room, reason)
  {
    CallIsLocal(s, id, s.ops[id], s');
    if ToldToClose(s.cells[room], reason) || id != c {
      LocalStepKeepsDoomed(s, id, s', c, room, reason);
    } else {
      ClosingTells(s, c, s', room, reason);
    }
  }

  lemma LocalStepKeepsDoomed(s: System, id: OpId, s': System, c: OpId, room: RoomId, reason: string)
    requires id in s.ops && LocalStep(s, id, s.ops[id], s') && Doomed(s, c, room, reason)
    requires ToldToClose(s.cells[room], reason) || id != c
    ensures Doomed(s', c, room, reason)
  {
    if ToldToClose(s.cells[room], reason) {
      GrowthKeepsTold(s.cells[room], s'.cells[room], id, s.ops[id], reason);
    }
  }

  lemma StepKeepsDoomed(s: System, l: Label, s': System, c: OpId, room: RoomId, reason: string)
    requires Inv(s) && Next(s, l, s') && l != Abort(c) && Doomed(s, c, room, reason)
    ensures Doomed(s', c, room, reason)
  {
    match l {
      case Advance(id) => AdvanceKeepsDoomed(s, id, s', c, room, reason);
      case Work(at) => WorkKeepsDoomed(s, at, s', c, room, reason);
      case _ => OtherStepsKeepDoomed(s, l, s', c, room, reason);
    }
  }

  lemma WorkKeepsDoomed(s: System, at: RoomId, s': System, c: OpId, room: RoomId, reason: string)
    requires Inv(s) && at in s.cells && Worked(s, at) == Some(s') && Doomed(s, c, room, reason)
    ensures Doomed(s', c, room, reason)
  {
    if ToldToClose(s.cells[room], reason) {
      WorkKeepsTold(s, at, s', room, reason);
    }
  }

  lemma OtherStepsKeepDoomed(s: System, l: Label, s': System, c: OpId, room: RoomId, reason: string)
    requires Next(s, l, s') && !l.Advance? && !l.Work? && l != Abort(c) && Doomed(s, c, room, reason)
    ensures Doomed(s', c, room, reason)
  {
  }

  lemma {:induction false} RunKeepsDoomed(
    states: seq<System>, labels: seq<Label>, from: nat, n: nat, c: OpId, room: RoomId, reason: string)
    requires IsRun(states, labels) && Inv(states[0]) && from <= n < |states| && Doomed(states[from], c, room, reason)
    requires forall i :: from <= i < n ==> labels[i] != Abort(c)
    ensures Doomed(states[n], c, room, reason)
    decreases n
  {
    if from < n {
      RunKeepsDoomed(states, labels, from, n - 1, c, room, reason);
      RunOk(states, labels, n - 1);
      StepKeepsDoomed(states[n - 1], labels[n - 1], states[n], c, room, reason);
    }
  }

  lemma DrainingDooms(s: System, c: OpId, order: seq<RoomId>, s': System, room: RoomId)
    requires Inv(s) && Next(s, Snapshot(c, order), s') && s.ops[c].ClosingAll? && room in s.registry
    ensures s'.registry == {} && Doomed(s', c, room, s.ops[c].reason)
  {
    assert room in order;
  }

  /** In every run: draining leaves no room registered, and once the call is over every room that was registered is closed
      or has the closing, with the reason given, in its queue. */
  lemma CloseAllTellsEveryRoom(
    states: seq<System>, labels: seq<Label>, start: nat, n: nat, c: OpId, order: seq<RoomId>, room: RoomId, reason: string)
    requires IsRun(states, labels) && StartsEmpty(states) && start < n < |states|
    requires labels[start] == Snapshot(c, order) && states[start].ops[c] == ClosingAll(reason)
    requires forall i :: start <= i < n ==> labels[i] != Abort(c)
    requires c in states[n].ops && states[n].ops[c].CloseDone? && room in states[start].registry
    ensures states[start + 1].registry == {}
    ensures room in states[n].cells && ToldToClose(states[n].cells[room], reason)
  {
    var capacity, maxPlayers :| states[0] == Initial(capacity, maxPlayers);
    RunOk(states, labels, start);
    DrainingDooms(states[start], c, order, states[start + 1], room);
    RunKeepsDoomed(states, labels, start + 1, n, c, room, reason);
  }
}
