/** Connection tasks and the room service together: what the end of a connection's clean-up means for the rooms. A player
    has one serving connection at a time; it may come back with another one later. */
module ConnectionCleanup {
  import opened Prelude
  import opened RoomAggregate
  import opened RoomService
  import opened RoomServiceInvariant
  import opened RoomCleanup
  import A = Admission
  import AI = AdmissionInvariant

  /** `players` are the players the tasks are bound to, `latest` each player's last connection, `calls` the room call
      each reader made last, `cleanups` the `leave_all` each clean-up made last. */
  datatype Joint = Joint(
    server: A.Server,
    rooms: System,
    players: map<A.TaskId, PlayerId>,
    latest: map<PlayerId, A.TaskId>,
    calls: map<A.TaskId, OpId>,
    cleanups: map<A.TaskId, OpId>)

  datatype Event =
    | Bind(id: A.TaskId, player: PlayerId)
    | Ask(id: A.TaskId, op: OpId, call: Op)
    | Stop(step: A.Label)
    | StartCleanup(id: A.TaskId, op: OpId, reason: string)
    | EndCleanup(step: A.Label)
    | Gate(step: A.Label)
    | Rooms(move: Label)

  predicate Serving(server: A.Server, id: A.TaskId) {
    id in server.tasks && server.tasks[id].stage.Serving?
  }

  function Get(m: map<A.TaskId, OpId>, id: A.TaskId): Option<OpId> {
    if id in m then Some(m[id]) else None
  }

  /** The call that is dropped with the task's future: the reader's own, or that of the clean-up. */
  function InHand(j: Joint, id: A.TaskId): Option<OpId> {
    if Serving(j.server, id) then Get(j.calls, id) else Get(j.cleanups, id)
  }

  predicate Unfinished(rooms: System, op: Option<OpId>) {
    op.Some? && op.value in rooms.ops && !Finished(rooms.ops[op.value])
  }

  ghost predicate Dropped(rooms: System, op: Option<OpId>, rooms': System) {
    if Unfinished(rooms, op) then Next(rooms, Label.Abort(op.value), rooms') else rooms' == rooms
  }

  ghost predicate Happens(j: Joint, e: Event, j': Joint) {
    match e
    case Bind(id, p) =>
      && A.Enabled(j.server, A.Bind(id)) && !j.server.tasks[id].authed
      && (p in j.latest ==> !Serving(j.server, j.latest[p]))
      && j' == j.(server := A.Step(j.server, A.Bind(id)), players := j.players[id := p], latest := j.latest[p := id])
    case Ask(id, op, call) =>
      && Serving(j.server, id) && id in j.players && !Unfinished(j.rooms, Get(j.calls, id))
      && (forall p :: MayJoin(call, p) ==> p == j.players[id])
      && Next(j.rooms, Begin(op, call), j'.rooms) && j' == j.(rooms := j'.rooms, calls := j.calls[id := op])
    case Stop(l) =>
      && (l.LoopEnds? || l.Abort?) && A.Enabled(j.server, l)
      && Dropped(j.rooms, InHand(j, l.id), j'.rooms) && j' == j.(server := A.Step(j.server, l), rooms := j'.rooms)
    case StartCleanup(id, op, reason) =>
      && id in j.players && ((id in j.server.tasks && j.server.tasks[id].stage.Cleaning?) || id in j.server.janitors)
      && !Unfinished(j.rooms, Get(j.cleanups, id))
      && Next(j.rooms, Begin(op, LeavingAll(j.players[id], reason)), j'.rooms)
      && j' == j.(rooms := j'.rooms, cleanups := j.cleanups[id := op])
    case EndCleanup(l) =>
      && (l.CleanedUp? || l.Janitor?) && A.Enabled(j.server, l)
      && (l.id in j.players && l.done ==> l.id in j.cleanups && j.cleanups[l.id] in j.rooms.ops && j.rooms.ops[j.cleanups[l.id]].LeaveDone?)
      && Dropped(j.rooms, if l.done then None else Get(j.cleanups, l.id), j'.rooms)
      && j' == j.(server := A.Step(j.server, l), rooms := j'.rooms)
    case Gate(l) =>
      && !l.Bind? && !l.LoopEnds? && !l.Abort? && !l.CleanedUp? && !l.Janitor? && A.Enabled(j.server, l)
      && j' == j.(server := A.Step(j.server, l))
    case Rooms(l) =>
      && !l.Abort? && (l.Begin? ==> forall p :: !MayJoin(l.op, p))
      && Next(j.rooms, l, j'.rooms) && j' == j.(rooms := j'.rooms)
  }

  // ---- The invariant ----

  ghost predicate Bound(j: Joint) {
    && (forall id :: id in j.players <==> id in j.server.tasks && j.server.tasks[id].authed)
    && (forall id :: id in j.players && Serving(j.server, id) ==> j.players[id] in j.latest && j.latest[j.players[id]] == id)
    && (forall p :: p in j.latest ==> j.latest[p] in j.players && j.players[j.latest[p]] == p)
  }

  /** Whatever may still let a player in is the call of its serving connection. */
  ghost predicate OwnJoins(j: Joint) {
    forall x: OpId, p: PlayerId :: Joiner(j.rooms, x, p) ==>
      p in j.latest && Serving(j.server, j.latest[p]) && Get(j.calls, j.latest[p]) == Some(x)
  }

  /** The call may still let the player in. */
  predicate Joiner(s: System, x: OpId, p: PlayerId) {
    x in s.ops && MayJoin(s.ops[x], p)
  }

  ghost predicate DistinctOps(j: Joint) {
    && (forall id :: id in j.calls ==> j.calls[id] in j.rooms.ops)
    && (forall id :: id in j.cleanups ==> j.cleanups[id] in j.rooms.ops)
    && (forall x, y :: x in j.calls && y in j.cleanups ==> j.calls[x] != j.cleanups[y])
    && (forall x, y :: x in j.cleanups && y in j.cleanups && x != y ==> j.cleanups[x] != j.cleanups[y])
  }

  /** The clean-up of the player's last connection tidies every room, unless it was dropped. */
  ghost predicate CleanupTidies(j: Joint, id: A.TaskId) {
    id in j.cleanups ==>
      && id in j.players && !Serving(j.server, id) && j.cleanups[id] in j.rooms.ops
      && (var p := j.players[id];
          p in j.latest && j.latest[p] == id && !j.rooms.ops[j.cleanups[id]].Aborted? ==>
            Tidying(j.rooms, p, j.cleanups[id], None))
  }

  ghost predicate DepartedOk(j: Joint) {
    forall id :: id in j.server.departed && id in j.players ==>
      id in j.cleanups && j.cleanups[id] in j.rooms.ops && j.rooms.ops[j.cleanups[id]].LeaveDone?
  }

  ghost predicate Ledger(j: Joint) {
    Inv(j.rooms) && OwnJoins(j) && DistinctOps(j) && DepartedOk(j)
  }

  ghost predicate JointOk(j: Joint) {
    && AI.ServerOk(j.server) && Bound(j) && Ledger(j)
    && forall id :: CleanupTidies(j, id)
  }

  // ---- The rooms move ----

  /** Only its own start makes a call that may let a player in. */
  lemma JoinersAreOld(s: System, l: Label, s': System, x: OpId, p: PlayerId)
    requires Next(s, l, s') && Joiner(s', x, p)
    ensures Joiner(s, x, p) || (l.Begin? && l.id == x && MayJoin(l.op, p))
  {
    if l.Advance? {
      CallIsLocal(s, l.id, s.ops[l.id], s');
      CallKeepsGuest(s, l.id, s.ops[l.id], s');
    }
  }

  lemma OpsStay(s: System, l: Label, s': System, x: OpId)
    requires Next(s, l, s') && x in s.ops
    ensures x in s'.ops
    ensures s.ops[x].LeaveDone? ==> s'.ops[x] == s.ops[x]
    ensures s.ops[x].Aborted? ==> s'.ops[x].Aborted?
  {
    if l.Advance? {
      CallIsLocal(s, l.id, s.ops[l.id], s');
    }
  }

  /** The rooms make a step while the tasks stand still; nobody but a serving connection starts a joining call. */
  lemma RoomsMove(j: Joint, l: Label, j': Joint, id: A.TaskId)
    requires CleanupTidies(j, id) && Next(j.rooms, l, j'.rooms) && OwnJoins(j')
    requires j'.players == j.players && j'.latest == j.latest && !Serving(j'.server, id)
    requires id in j.cleanups && Get(j'.cleanups, id) == Get(j.cleanups, id)
    requires l.Abort? && l.id == j.cleanups[id] ==> j'.rooms.ops[l.id].Aborted?
    ensures CleanupTidies(j', id)
  {
    var p, c := j.players[id], j.cleanups[id];
    OpsStay(j.rooms, l, j'.rooms, c);
    if p in j.latest && j.latest[p] == id && !j'.rooms.ops[c].Aborted? {
      NobodyJoins(j', p);
      StepTidies(j.rooms, l, j'.rooms, p, c, None);
    }
  }

  lemma NobodyJoins(j: Joint, p: PlayerId)
    requires OwnJoins(j) && p in j.latest && !Serving(j.server, j.latest[p])
    ensures NoJoiner(j.rooms, p)
  {
    forall x | x in j.rooms.ops ensures !MayJoin(j.rooms.ops[x], p) {
      assert !Joiner(j.rooms, x, p);
    }
  }

  ghost predicate SameTasks(j: Joint, j': Joint) {
    j'.server == j.server && j'.players == j.players && j'.latest == j.latest
  }

  /** What a step of the rooms means for the calls: none vanishes, one that is over stays over, and only its own start
      makes one that may let a player in. */
  ghost predicate OpsMove(s: System, l: Label, s': System) {
    && (forall x :: x in s.ops ==>
          && x in s'.ops && (s.ops[x].LeaveDone? ==> s'.ops[x] == s.ops[x]) && (s.ops[x].Aborted? ==> s'.ops[x].Aborted?))
    && (forall x: OpId, p: PlayerId :: Joiner(s', x, p) ==> Joiner(s, x, p) || (l.Begin? && l.id == x && MayJoin(l.op, p)))
  }

  lemma StepMovesOps(s: System, l: Label, s': System)
    requires Next(s, l, s')
    ensures OpsMove(s, l, s')
  {
    forall x | x in s.ops
      ensures x in s'.ops && (s.ops[x].LeaveDone? ==> s'.ops[x] == s.ops[x]) && (s.ops[x].Aborted? ==> s'.ops[x].Aborted?)
    {
      OpsStay(s, l, s', x);
    }
    forall x: OpId, p: PlayerId | Joiner(s', x, p)
      ensures Joiner(s, x, p) || (l.Begin? && l.id == x && MayJoin(l.op, p))
    {
      JoinersAreOld(s, l, s', x, p);
    }
  }

  lemma RoomStepOwnJoins(j: Joint, l: Label, j': Joint)
    requires OwnJoins(j) && SameTasks(j, j') && j'.calls == j.calls
    requires OpsMove(j.rooms, l, j'.rooms) && (l.Begin? ==> forall p :: !MayJoin(l.op, p))
    ensures OwnJoins(j')
  {
  }

  lemma OpsStayDistinct(j: Joint, l: Label, j': Joint)
    requires DistinctOps(j) && OpsMove(j.rooms, l, j'.rooms) && j'.calls == j.calls && j'.cleanups == j.cleanups
    ensures DistinctOps(j')
  {
  }

  lemma DepartedStays(j: Joint, l: Label, j': Joint)
    requires DepartedOk(j) && OpsMove(j.rooms, l, j'.rooms) && j'.players == j.players
    requires j'.server.departed == j.server.departed
    requires forall id :: id in j.cleanups && id in j.server.departed ==> Get(j'.cleanups, id) == Get(j.cleanups, id)
    ensures DepartedOk(j')
  {
  }

  /** Clean-ups that were under way stay so. */
  lemma OldCleanups(j: Joint, l: Label, j': Joint)
    requires (forall id :: CleanupTidies(j, id)) && Next(j.rooms, l, j'.rooms) && !l.Abort?
    requires OwnJoins(j') && SameTasks(j, j')
    ensures forall id :: id in j.cleanups && Get(j'.cleanups, id) == Get(j.cleanups, id) ==> CleanupTidies(j', id)
  {
    forall id | id in j.cleanups && Get(j'.cleanups, id) == Get(j.cleanups, id)
      ensures CleanupTidies(j', id)
    {
      assert CleanupTidies(j, id);
      RoomsMove(j, l, j', id);
    }
  }

  lemma AllCleanups(j: Joint, l: Label, j': Joint)
    requires (forall id :: CleanupTidies(j, id)) && Next(j.rooms, l, j'.rooms) && !l.Abort?
    requires OwnJoins(j') && SameTasks(j, j') && j'.cleanups == j.cleanups
    ensures forall id :: CleanupTidies(j', id)
  {
    OldCleanups(j, l, j');
    forall id ensures CleanupTidies(j', id) {}
  }

  lemma RoomStep(s: System, l: Label, s': System)
    requires Inv(s) && Next(s, l, s')
    ensures Inv(s') && OpsMove(s, l, s')
  {
    StepOk(s, l, s');
    StepMovesOps(s, l, s');
  }

  lemma RoomsLedger(j: Joint, l: Label, j': Joint)
    requires Ledger(j) && Happens(j, Rooms(l), j')
    ensures Ledger(j')
  {
    RoomStep(j.rooms, l, j'.rooms);
    RoomStepOwnJoins(j, l, j');
    OpsStayDistinct(j, l, j');
    DepartedStays(j, l, j');
  }

  lemma RoomsOk(j: Joint, l: Label, j': Joint)
    requires JointOk(j) && Happens(j, Rooms(l), j')
    ensures JointOk(j')
  {
    RoomsLedger(j, l, j');
    AllCleanups(j, l, j');
  }

  lemma AskOwnJoins(j: Joint, id: A.TaskId, op: OpId, call: Op, j': Joint)
    requires OwnJoins(j) && SameTasks(j, j') && j'.calls == j.calls[id := op] && OpsMove(j.rooms, Begin(op, call), j'.rooms)
    requires Serving(j.server, id) && id in j.players && j.players[id] in j.latest && j.latest[j.players[id]] == id
    requires (forall p :: MayJoin(call, p) ==> p == j.players[id]) && !Unfinished(j.rooms, Get(j.calls, id))
    ensures OwnJoins(j')
  {
  }

  lemma AskOps(j: Joint, id: A.TaskId, op: OpId, call: Op, j': Joint)
    requires DistinctOps(j) && OpsMove(j.rooms, Begin(op, call), j'.rooms) && op !in j.rooms.ops && op in j'.rooms.ops
    requires j'.calls == j.calls[id := op] && j'.cleanups == j.cleanups
    ensures DistinctOps(j')
  {
  }

  lemma AskOk(j: Joint, id: A.TaskId, op: OpId, call: Op, j': Joint)
    requires JointOk(j) && Happens(j, Ask(id, op, call), j')
    ensures JointOk(j')
  {
    AskLedger(j, id, op, call, j');
    AllCleanups(j, Begin(op, call), j');
  }

  lemma AskLedger(j: Joint, id: A.TaskId, op: OpId, call: Op, j': Joint)
    requires Ledger(j) && Bound(j) && Happens(j, Ask(id, op, call), j')
    ensures Ledger(j')
  {
    var l := Begin(op, call);
    RoomStep(j.rooms, l, j'.rooms);
    AskOwnJoins(j, id, op, call, j');
    AskOps(j, id, op, call, j');
    DepartedStays(j, l, j');
  }

  /** A clean-up that is still going on has not been noted yet. */
  lemma GoingOn(server: A.Server, id: A.TaskId)
    requires AI.ServerOk(server)
    requires Serving(server, id) || (id in server.tasks && server.tasks[id].stage.Cleaning?) || id in server.janitors
    ensures !AI.Settled(server, id)
    ensures id in server.janitors ==> !Serving(server, id)
  {
    assert AI.CleanupAt(server, id);
    if id in server.tasks {
      assert AI.TaskOk(server.tasks[id]);
    }
  }

  lemma StartOps(j: Joint, id: A.TaskId, op: OpId, l: Label, j': Joint)
    requires DistinctOps(j) && OpsMove(j.rooms, l, j'.rooms) && op !in j.rooms.ops && op in j'.rooms.ops
    requires j'.calls == j.calls && j'.cleanups == j.cleanups[id := op]
    ensures DistinctOps(j')
  {
  }

  lemma StartOk(j: Joint, id: A.TaskId, op: OpId, reason: string, j': Joint)
    requires JointOk(j) && Happens(j, StartCleanup(id, op, reason), j')
    ensures JointOk(j')
  {
    GoingOn(j.server, id);
    StartLedger(j, id, op, reason, j');
    StartCleanups(j, id, op, Begin(op, LeavingAll(j.players[id], reason)), j');
  }

  lemma StartCleanups(j: Joint, id: A.TaskId, op: OpId, l: Label, j': Joint)
    requires (forall other :: CleanupTidies(j, other)) && Next(j.rooms, l, j'.rooms) && !l.Abort?
    requires Inv(j'.rooms) && OwnJoins(j') && SameTasks(j, j') && !Serving(j.server, id) && id in j.players
    requires j'.cleanups == j.cleanups[id := op] && op in j'.rooms.ops
    requires j'.rooms.ops[op].LeavingAll? && j'.rooms.ops[op].player == j.players[id]
    ensures forall other :: CleanupTidies(j', other)
  {
    OldCleanups(j, l, j');
    forall other ensures CleanupTidies(j', other) {
      if other == id {
        StartTidies(j', id, j.players[id], op);
      }
    }
  }

  lemma StartLedger(j: Joint, id: A.TaskId, op: OpId, reason: string, j': Joint)
    requires Ledger(j) && Happens(j, StartCleanup(id, op, reason), j') && id !in j.server.departed
    ensures Ledger(j')
  {
    var l := Begin(op, LeavingAll(j.players[id], reason));
    RoomStep(j.rooms, l, j'.rooms);
    RoomStepOwnJoins(j, l, j');
    DepartedStays(j, l, j');
    StartOps(j, id, op, l, j');
  }

  lemma StartTidies(j: Joint, id: A.TaskId, p: PlayerId, c: OpId)
    requires Inv(j.rooms) && OwnJoins(j) && !Serving(j.server, id) && id in j.players && j.players[id] == p
    requires id in j.cleanups && j.cleanups[id] == c && c in j.rooms.ops && j.rooms.ops[c].LeavingAll? && j.rooms.ops[c].player == p
    ensures CleanupTidies(j, id)
  {
    if p in j.latest && j.latest[p] == id {
      NobodyJoins(j, p);
    }
  }

  // ---- The tasks move ----

  /** The tasks make a step that binds nobody. */
  lemma TasksMove(server: A.Server, l: A.Label, id: A.TaskId)
    requires AI.ServerOk(server) && A.Enabled(server, l) && !l.Bind?
    ensures (id in server.tasks && server.tasks[id].authed) <==>
            (id in A.Step(server, l).tasks && A.Step(server, l).tasks[id].authed)
    ensures id in server.tasks && server.tasks[id].authed && Serving(A.Step(server, l), id) ==> Serving(server, id)
    ensures Serving(server, id) && !((l.LoopEnds? || l.Abort?) && l.id == id) ==> Serving(A.Step(server, l), id)
  {
    if id != l.id {
      AI.StepIsLocal(server, l, id);
    } else if id in server.tasks {
      assert AI.TaskOk(server.tasks[id]);
    }
  }

  lemma TasksBound(j: Joint, l: A.Label, j': Joint)
    requires JointOk(j) && A.Enabled(j.server, l) && !l.Bind? && j'.server == A.Step(j.server, l)
    requires j'.players == j.players && j'.latest == j.latest
    ensures Bound(j')
  {
    forall id
      ensures id in j'.players <==> id in j'.server.tasks && j'.server.tasks[id].authed
      ensures id in j'.players && Serving(j'.server, id) ==> j'.players[id] in j'.latest && j'.latest[j'.players[id]] == id
    {
      TasksMove(j.server, l, id);
    }
  }

  /** A task makes a step and drops the call it has in hand, if any. */
  ghost predicate TaskStep(j: Joint, l: A.Label, op: Option<OpId>, j': Joint) {
    && A.Enabled(j.server, l) && !l.Bind?
    && Dropped(j.rooms, op, j'.rooms) && j' == j.(server := A.Step(j.server, l), rooms := j'.rooms)
    && ((l.LoopEnds? || l.Abort?) && Serving(j.server, l.id) ==> op == Get(j.calls, l.id))
  }

  lemma StillJoining(j: Joint, l: A.Label, op: Option<OpId>, j': Joint, x: OpId, p: PlayerId)
    requires TaskStep(j, l, op, j') && Joiner(j'.rooms, x, p)
    ensures Joiner(j.rooms, x, p) && op != Some(x)
  {
    if Unfinished(j.rooms, op) {
      JoinersAreOld(j.rooms, Label.Abort(op.value), j'.rooms, x, p);
    }
  }

  lemma TaskOwnJoins(j: Joint, l: A.Label, op: Option<OpId>, j': Joint)
    requires AI.ServerOk(j.server) && OwnJoins(j) && TaskStep(j, l, op, j')
    ensures OwnJoins(j')
  {
    forall x: OpId, p: PlayerId | Joiner(j'.rooms, x, p)
      ensures p in j.latest && Serving(j'.server, j.latest[p]) && Get(j.calls, j.latest[p]) == Some(x)
    {
      StillJoining(j, l, op, j', x, p);
      TasksMove(j.server, l, j.latest[p]);
    }
  }

  lemma TaskCleanup(j: Joint, l: A.Label, op: Option<OpId>, j': Joint, id: A.TaskId)
    requires AI.ServerOk(j.server) && Bound(j) && CleanupTidies(j, id) && TaskStep(j, l, op, j') && OwnJoins(j')
    ensures CleanupTidies(j', id)
  {
    TasksMove(j.server, l, id);
    if id in j.cleanups && Unfinished(j.rooms, op) {
      RoomsMove(j, Label.Abort(op.value), j', id);
    }
  }

  lemma TaskOps(j: Joint, l: A.Label, op: Option<OpId>, j': Joint)
    requires DistinctOps(j) && TaskStep(j, l, op, j')
    ensures DistinctOps(j')
  {
    if Unfinished(j.rooms, op) {
      StepMovesOps(j.rooms, Label.Abort(op.value), j'.rooms);
      OpsStayDistinct(j, Label.Abort(op.value), j');
    }
  }

  lemma TaskRooms(j: Joint, l: A.Label, op: Option<OpId>, j': Joint)
    requires Inv(j.rooms) && TaskStep(j, l, op, j')
    ensures Inv(j'.rooms)
  {
    if Unfinished(j.rooms, op) {
      StepOk(j.rooms, Label.Abort(op.value), j'.rooms);
    }
  }

  /** A clean-up noted as completed has made its `leave_all`. */
  lemma TaskDeparted(j: Joint, l: A.Label, op: Option<OpId>, j': Joint)
    requires AI.ServerOk(j.server) && DepartedOk(j) && TaskStep(j, l, op, j')
    requires (l.CleanedUp? || l.Janitor?) && l.done && l.id in j.players ==>
      op.None? && l.id in j.cleanups && j.cleanups[l.id] in j.rooms.ops && j.rooms.ops[j.cleanups[l.id]].LeaveDone?
    ensures DepartedOk(j')
  {
    forall id | id in j'.server.departed && id in j'.players
      ensures id in j'.cleanups && j'.cleanups[id] in j'.rooms.ops && j'.rooms.ops[j'.cleanups[id]].LeaveDone?
    {
      AI.CleanupEndsOnce(j.server, l, id);
      if Unfinished(j.rooms, op) {
        OpsStay(j.rooms, Label.Abort(op.value), j'.rooms, j.cleanups[id]);
      }
    }
  }

  lemma TaskOk(j: Joint, l: A.Label, op: Option<OpId>, j': Joint)
    requires JointOk(j) && TaskStep(j, l, op, j')
    requires (l.CleanedUp? || l.Janitor?) && l.done && l.id in j.players ==>
      op.None? && l.id in j.cleanups && j.cleanups[l.id] in j.rooms.ops && j.rooms.ops[j.cleanups[l.id]].LeaveDone?
    ensures JointOk(j')
  {
    AI.StepOk(j.server, l);
    TaskRooms(j, l, op, j');
    TasksBound(j, l, j');
    TaskOwnJoins(j, l, op, j');
    TaskOps(j, l, op, j');
    TaskDeparted(j, l, op, j');
    forall id ensures CleanupTidies(j', id) {
      assert CleanupTidies(j, id);
      TaskCleanup(j, l, op, j', id);
    }
  }

  lemma BindStep(server: A.Server, id: A.TaskId, other: A.TaskId)
    requires A.Enabled(server, A.Bind(id))
    ensures Serving(A.Step(server, A.Bind(id)), other) <==> Serving(server, other)
    ensures other in A.Step(server, A.Bind(id)).tasks && A.Step(server, A.Bind(id)).tasks[other].authed <==>
            other == id || (other in server.tasks && server.tasks[other].authed)
    ensures A.Step(server, A.Bind(id)).departed == server.departed
  {
  }

  lemma BindBound(j: Joint, id: A.TaskId, p: PlayerId, j': Joint)
    requires Bound(j) && Happens(j, Bind(id, p), j')
    ensures Bound(j')
  {
    forall other
      ensures other in j'.players <==> other in j'.server.tasks && j'.server.tasks[other].authed
      ensures other in j'.players && Serving(j'.server, other) ==> j'.players[other] in j'.latest && j'.latest[j'.players[other]] == other
    {
      BindStep(j.server, id, other);
    }
  }

  lemma BindOwnJoins(j: Joint, id: A.TaskId, p: PlayerId, j': Joint)
    requires OwnJoins(j) && Happens(j, Bind(id, p), j')
    ensures OwnJoins(j')
  {
    forall x: OpId, q: PlayerId | Joiner(j.rooms, x, q)
      ensures q in j'.latest && Serving(j'.server, j'.latest[q]) && Get(j.calls, j'.latest[q]) == Some(x)
    {
      BindStep(j.server, id, j.latest[q]);
    }
  }

  lemma BindCleanup(j: Joint, id: A.TaskId, p: PlayerId, j': Joint, other: A.TaskId)
    requires Bound(j) && CleanupTidies(j, other) && Happens(j, Bind(id, p), j')
    ensures CleanupTidies(j', other)
  {
    BindStep(j.server, id, other);
  }

  lemma BindOk(j: Joint, id: A.TaskId, p: PlayerId, j': Joint)
    requires JointOk(j) && Happens(j, Bind(id, p), j')
    ensures JointOk(j')
  {
    AI.StepOk(j.server, A.Bind(id));
    BindBound(j, id, p, j');
    BindOwnJoins(j, id, p, j');
    BindStep(j.server, id, id);
    GoingOn(j.server, id);
    forall other ensures CleanupTidies(j', other) {
      assert CleanupTidies(j, other);
      BindCleanup(j, id, p, j', other);
    }
  }

  lemma HappensOk(j: Joint, e: Event, j': Joint)
    requires JointOk(j) && Happens(j, e, j')
    ensures JointOk(j')
  {
    match e {
      case Bind(id, p) => BindOk(j, id, p, j');
      case Ask(id, op, call) => AskOk(j, id, op, call, j');
      case Stop(l) => TaskOk(j, l, InHand(j, l.id), j');
      case StartCleanup(id, op, reason) => StartOk(j, id, op, reason, j');
      case EndCleanup(l) => TaskOk(j, l, if l.done then None else Get(j.cleanups, l.id), j');
      case Gate(l) => TaskOk(j, l, None, j');
      case Rooms(l) => RoomsOk(j, l, j');
    }
  }

  // ---- Every history ----

  ghost predicate Begins(j: Joint) {
    exists limits, capacity, maxPlayers ::
      j == Joint(A.Initial(limits), RoomService.Initial(capacity, maxPlayers), map[], map[], map[], map[])
  }

  ghost predicate IsHistory(states: seq<Joint>, events: seq<Event>) {
    && |states| == |events| + 1 && Begins(states[0])
    && forall i {:trigger events[i]} :: 0 <= i < |events| ==> Happens(states[i], events[i], states[i + 1])
  }

  lemma {:induction false} HistoryOk(states: seq<Joint>, events: seq<Event>, n: nat)
    requires IsHistory(states, events) && n < |states|
    ensures JointOk(states[n])
  {
    if n == 0 {
      AI.StartOk(states[0].server.limits);
    } else {
      HistoryOk(states, events, n - 1);
      HappensOk(states[n - 1], events[n - 1], states[n]);
    }
  }

  /** In every history: once the clean-up of a player's last connection is noted as completed, the player is in no open
      registered room and no queued command will put it there, until it connects again. */
  lemma DepartedPlayerIsOut(states: seq<Joint>, events: seq<Event>, n: nat, id: A.TaskId, p: PlayerId, room: RoomId)
    requires IsHistory(states, events) && n < |states|
    requires p in states[n].latest && states[n].latest[p] == id && id in states[n].server.departed
    requires OpenAndListed(states[n].rooms, room)
    ensures Clear(states[n].rooms.cells[room], p)
  {
    HistoryOk(states, events, n);
    DepartedIsClear(states[n], id, p, room);
  }

  lemma DepartedIsClear(j: Joint, id: A.TaskId, p: PlayerId, room: RoomId)
    requires CleanupTidies(j, id) && DepartedOk(j) && Bound(j)
    requires p in j.latest && j.latest[p] == id && id in j.server.departed && OpenAndListed(j.rooms, room)
    ensures Clear(j.rooms.cells[room], p)
  {
    assert InScope(None, room);
  }

  /** In every history: when the connection registry is empty, every player whose last connection's clean-up did not run out
      of time is in no open registered room. */
  lemma EmptyRegistryMeansOut(states: seq<Joint>, events: seq<Event>, n: nat, p: PlayerId, room: RoomId)
    requires IsHistory(states, events) && n < |states| && states[n].server.conns == map[]
    requires p in states[n].latest && states[n].latest[p] !in states[n].server.late
    requires OpenAndListed(states[n].rooms, room)
    ensures Clear(states[n].rooms.cells[room], p)
  {
    HistoryOk(states, events, n);
    var id := states[n].latest[p];
    assert AI.CleanupAt(states[n].server, id);
    DepartedPlayerIsOut(states, events, n, id, p, room);
  }
}
