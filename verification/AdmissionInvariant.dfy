/** Conservation of permits, slots and registry entries over every run of the connection tasks. */
module AdmissionInvariant {
  import opened Gates
  import opened Admission

  // ---- Who holds what ----

  function Holders(tasks: map<TaskId, Task>, r: Resource): set<TaskId> {
    set id | id in tasks && r in tasks[id].holds
  }

  function HoldersAt(tasks: map<TaskId, Task>, ip: Ip): set<TaskId> {
    set id | id in tasks && IpPermit in tasks[id].holds && tasks[id].ip == ip
  }

  /** Every counter is what its limit leaves after the live permits, and the registry lists exactly the connections
      whose guard or janitor has still to remove them. */
  ghost predicate Balanced(s: Server) {
    && s.free + |Holders(s.tasks, ConnPermit)| == s.limits.maxConnections
    && s.slots + |Holders(s.tasks, Slot)| == Handshakes(s.limits)
    && (forall ip :: Count(s.counts, ip) == |HoldersAt(s.tasks, ip)| <= s.limits.maxPerIp)
    && s.conns.Keys == Holders(s.tasks, Entry) + s.janitors
    && Holders(s.tasks, Entry) !! s.janitors
  }

  /** Two task tables with the same holdings. */
  ghost predicate SameHoldings(a: map<TaskId, Task>, b: map<TaskId, Task>) {
    && (forall r :: Holders(a, r) == Holders(b, r))
    && (forall ip :: HoldersAt(a, ip) == HoldersAt(b, ip))
  }

  lemma Relabel(tasks: map<TaskId, Task>, id: TaskId, task: Task)
    requires if id in tasks then task.holds == tasks[id].holds && task.ip == tasks[id].ip else task.holds == {}
    ensures SameHoldings(tasks, tasks[id := task])
  {
    var tasks' := tasks[id := task];
    forall r ensures Holders(tasks, r) == Holders(tasks', r) {}
    forall ip ensures HoldersAt(tasks, ip) == HoldersAt(tasks', ip) {}
  }

  lemma RelabelBalances(s: Server, id: TaskId, task: Task)
    requires Balanced(s)
    requires if id in s.tasks then task.holds == s.tasks[id].holds && task.ip == s.tasks[id].ip else task.holds == {}
    ensures Balanced(s.(tasks := s.tasks[id := task]))
  {
    Relabel(s.tasks, id, task);
  }

  lemma HoldersGrow(tasks: map<TaskId, Task>, id: TaskId, r: Resource)
    requires id in tasks && r !in tasks[id].holds
    ensures var tasks' := tasks[id := tasks[id].(holds := tasks[id].holds + {r})];
            && (forall q :: Holders(tasks', q) == if q == r then Holders(tasks, q) + {id} else Holders(tasks, q))
            && (forall ip :: HoldersAt(tasks', ip) ==
                             if r.IpPermit? && ip == tasks[id].ip then HoldersAt(tasks, ip) + {id} else HoldersAt(tasks, ip))
  {
    var tasks' := tasks[id := tasks[id].(holds := tasks[id].holds + {r})];
    forall q ensures Holders(tasks', q) == if q == r then Holders(tasks, q) + {id} else Holders(tasks, q) {}
    forall ip
      ensures HoldersAt(tasks', ip) ==
              if r.IpPermit? && ip == tasks[id].ip then HoldersAt(tasks, ip) + {id} else HoldersAt(tasks, ip)
    {
    }
  }

  lemma HoldersShrink(tasks: map<TaskId, Task>, id: TaskId, r: Resource)
    requires id in tasks && r in tasks[id].holds
    ensures var tasks' := tasks[id := tasks[id].(holds := tasks[id].holds - {r})];
            && (forall q :: Holders(tasks', q) == if q == r then Holders(tasks, q) - {id} else Holders(tasks, q))
            && (forall ip :: HoldersAt(tasks', ip) ==
                             if r.IpPermit? && ip == tasks[id].ip then HoldersAt(tasks, ip) - {id} else HoldersAt(tasks, ip))
  {
    var tasks' := tasks[id := tasks[id].(holds := tasks[id].holds - {r})];
    forall q ensures Holders(tasks', q) == if q == r then Holders(tasks, q) - {id} else Holders(tasks, q) {}
    forall ip
      ensures HoldersAt(tasks', ip) ==
              if r.IpPermit? && ip == tasks[id].ip then HoldersAt(tasks, ip) - {id} else HoldersAt(tasks, ip)
    {
    }
  }

  lemma GainKeepsCounts(s: Server, id: TaskId, r: Resource)
    requires id in s.tasks && r !in s.tasks[id].holds
    requires (r.ConnPermit? ==> s.free > 0) && (r.Slot? ==> s.slots > 0)
    requires r.IpPermit? ==> Count(s.counts, s.tasks[id].ip) < s.limits.maxPerIp
    requires forall ip :: Count(s.counts, ip) == |HoldersAt(s.tasks, ip)| <= s.limits.maxPerIp
    ensures var s' := Gained(s, id, r);
            forall ip :: Count(s'.counts, ip) == |HoldersAt(s'.tasks, ip)| <= s.limits.maxPerIp
  {
    HoldersGrow(s.tasks, id, r);
    var s' := Gained(s, id, r);
    forall ip ensures Count(s'.counts, ip) == |HoldersAt(s'.tasks, ip)| <= s.limits.maxPerIp {
      assert id in HoldersAt(s.tasks, ip) ==> !r.IpPermit?;
    }
  }

  lemma GainKeepsSemaphores(s: Server, id: TaskId, r: Resource)
    requires Balanced(s) && id in s.tasks && r !in s.tasks[id].holds
    requires (r.ConnPermit? ==> s.free > 0) && (r.Slot? ==> s.slots > 0)
    ensures var s' := Gained(s, id, r);
            && s'.free + |Holders(s'.tasks, ConnPermit)| == s.limits.maxConnections
            && s'.slots + |Holders(s'.tasks, Slot)| == Handshakes(s.limits)
  {
    HoldersGrow(s.tasks, id, r);
    assert id !in Holders(s.tasks, r);
  }

  lemma GainKeepsRegistry(s: Server, id: TaskId, r: Resource)
    requires id in s.tasks && r !in s.tasks[id].holds && (r.Entry? ==> id !in s.janitors)
    requires (r.ConnPermit? ==> s.free > 0) && (r.Slot? ==> s.slots > 0)
    requires s.conns.Keys == Holders(s.tasks, Entry) + s.janitors && Holders(s.tasks, Entry) !! s.janitors
    ensures var s' := Gained(s, id, r);
            s'.conns.Keys == Holders(s'.tasks, Entry) + s'.janitors && Holders(s'.tasks, Entry) !! s'.janitors
  {
    HoldersGrow(s.tasks, id, r);
  }

  lemma GainBalances(s: Server, id: TaskId, r: Resource)
    requires Balanced(s) && id in s.tasks && r !in s.tasks[id].holds
    requires (r.ConnPermit? ==> s.free > 0) && (r.Slot? ==> s.slots > 0)
    requires r.IpPermit? ==> Count(s.counts, s.tasks[id].ip) < s.limits.maxPerIp
    requires r.Entry? ==> id !in s.janitors
    ensures Balanced(Gained(s, id, r))
  {
    GainKeepsCounts(s, id, r);
    GainKeepsSemaphores(s, id, r);
    GainKeepsRegistry(s, id, r);
  }

  lemma LossKeepsSemaphores(s: Server, id: TaskId, r: Resource)
    requires Balanced(s) && id in s.tasks && r in s.tasks[id].holds
    ensures var s' := Lost(s, id, r);
            && s'.free + |Holders(s'.tasks, ConnPermit)| == s.limits.maxConnections
            && s'.slots + |Holders(s'.tasks, Slot)| == Handshakes(s.limits)
  {
    HoldersShrink(s.tasks, id, r);
    assert id in Holders(s.tasks, r);
  }

  lemma LossKeepsCounts(s: Server, id: TaskId, r: Resource)
    requires id in s.tasks && r in s.tasks[id].holds
    requires forall ip :: Count(s.counts, ip) == |HoldersAt(s.tasks, ip)| <= s.limits.maxPerIp
    ensures var s' := Lost(s, id, r);
            forall ip :: Count(s'.counts, ip) == |HoldersAt(s'.tasks, ip)| <= s.limits.maxPerIp
  {
    HoldersShrink(s.tasks, id, r);
    var s' := Lost(s, id, r);
    forall ip ensures Count(s'.counts, ip) == |HoldersAt(s'.tasks, ip)| <= s.limits.maxPerIp {
      assert r.IpPermit? && ip == s.tasks[id].ip ==> id in HoldersAt(s.tasks, ip);
    }
  }

  lemma LossKeepsRegistry(s: Server, id: TaskId, r: Resource)
    requires id in s.tasks && r in s.tasks[id].holds
    requires s.conns.Keys == Holders(s.tasks, Entry) + s.janitors && Holders(s.tasks, Entry) !! s.janitors
    ensures var s' := Lost(s, id, r);
            s'.conns.Keys == Holders(s'.tasks, Entry) + s'.janitors && Holders(s'.tasks, Entry) !! s'.janitors
  {
    HoldersShrink(s.tasks, id, r);
    assert id in Holders(s.tasks, r);
  }

  lemma LossBalances(s: Server, id: TaskId, r: Resource)
    requires Balanced(s) && id in s.tasks
    ensures Balanced(Lost(s, id, r))
  {
    if r in s.tasks[id].holds {
      LossKeepsSemaphores(s, id, r);
      LossKeepsCounts(s, id, r);
      LossKeepsRegistry(s, id, r);
    }
  }

  // ---- What a task holds at each stage ----

  predicate Registered(stage: Stage) {
    stage.Serving? || stage.Cleaning? || stage.Draining? || stage.Flushing?
  }

  predicate TaskOk(task: Task) {
    && (ConnPermit in task.holds <==> !task.stage.Finished?)
    && (Slot in task.holds ==> task.stage.Handshaking? || task.stage.Unwinding?)
    && (Entry in task.holds ==> Registered(task.stage) || task.stage.Unwinding?)
    && (IpPermit in task.holds ==> !task.stage.Spawned? && !task.stage.Flushing? && !task.stage.Finished?)
    && (task.stage.Handshaking? ==> Slot in task.holds)
    && (Registered(task.stage) ==> Entry in task.holds)
    && (task.stage.Admitted? || task.stage.Handshaking? || task.stage.Connected? ==> IpPermit in task.holds)
    && (Registered(task.stage) && !task.authed && !task.stage.Flushing? ==> IpPermit in task.holds)
    && (task.authed ==> Registered(task.stage) || task.stage.Unwinding? || task.stage.Finished?)
    && (task.cleaned ==> task.stage.Draining? || task.stage.Flushing? || task.stage.Unwinding? || task.stage.Finished?)
  }

  /** The task's clean-up has ended, in time or not. */
  predicate Settled(s: Server, id: TaskId) {
    id in s.departed || id in s.late
  }

  function Rank(stage: Stage): nat {
    match stage
    case Spawned => 0
    case Admitted => 1
    case Handshaking => 2
    case Connected => 3
    case Unwinding => 5
    case Finished => 5
    case _ => 4
  }

  /** A janitor works for a task on its way out, and a connection that was bound stays registered until its clean-up
      has been carried out. */
  ghost predicate CleanupAt(s: Server, id: TaskId) {
    && (id in s.janitors ==>
          id in s.tasks && (s.tasks[id].stage.Unwinding? || s.tasks[id].stage.Finished?)
          && Entry !in s.tasks[id].holds && !s.tasks[id].cleaned)
    && (id in s.tasks && s.tasks[id].cleaned ==> Settled(s, id))
    && (id in s.tasks && s.tasks[id].authed ==> id in s.conns || Settled(s, id))
    && (Settled(s, id) ==> id in s.tasks && (s.tasks[id].cleaned || (id !in s.conns && Rank(s.tasks[id].stage) == 5)))
    && !(id in s.departed && id in s.late)
    && (id in s.conns ==> id in s.tasks && (s.conns[id] <==> !s.tasks[id].cleaned))
  }

  ghost predicate ServerOk(s: Server) {
    && Balanced(s)
    && (forall id :: id in s.tasks ==> TaskOk(s.tasks[id]))
    && (forall id :: CleanupAt(s, id))
    && (s.limits.maxPerIp > 0 ==> Tidy(s.counts))
  }

  // ---- Every step keeps it ----

  lemma StepBalances(s: Server, l: Label)
    requires ServerOk(s) && Enabled(s, l)
    ensures Balanced(Step(s, l))
  {
    var id := l.id;
    match l {
      case Accept(_, ip) =>
        if s.free > 0 {
          var task := Task(ip, Spawned, {}, false, false);
          RelabelBalances(s, id, task);
          GainBalances(s.(tasks := s.tasks[id := task]), id, ConnPermit);
        }
      case Admit(_) => AdmitBalances(s, id);
      case BeginHandshake(_) =>
        if s.slots > 0 {
          GainBalances(s, id, Slot);
          AtBalances(Gained(s, id, Slot), id, Handshaking);
        } else {
          AtBalances(s, id, Unwinding);
        }
      case EndHandshake(_, ok) => LossThenAt(s, id, Slot, if ok then Connected else Unwinding);
      case Register(_) =>
        assert CleanupAt(s, id);
        GainBalances(s, id, Entry);
        AtBalances(Gained(s, id, Entry), id, Serving);
      case Bind(_) => RelabelBalances(s, id, s.tasks[id].(authed := true));
      case Take(_) => LossBalances(s, id, IpPermit);
      case LoopEnds(_) => AtBalances(s, id, Cleaning);
      case CleanedUp(_, _) =>
        assert id in Holders(s.tasks, Entry);
        RelabelBalances(s, id, s.tasks[id].(stage := Draining, cleaned := true));
      case DropAdmission(_) => LossThenAt(s, id, IpPermit, Flushing);
      case Flushed(_) => AtBalances(s, id, Unwinding);
      case Abort(_) => AtBalances(s, id, Unwinding);
      case Unwind(_) =>
        var r := NextDrop(s.tasks[id].holds);
        if r.ConnPermit? {
          LossThenAt(s, id, r, Finished);
        } else {
          LossBalances(s, id, r);
        }
      case Janitor(_, _) =>
    }
  }

  lemma AtBalances(s: Server, id: TaskId, stage: Stage)
    requires Balanced(s) && id in s.tasks
    ensures Balanced(At(s, id, stage))
  {
    RelabelBalances(s, id, s.tasks[id].(stage := stage));
  }

  lemma LossThenAt(s: Server, id: TaskId, r: Resource, stage: Stage)
    requires Balanced(s) && id in s.tasks
    ensures Balanced(At(Lost(s, id, r), id, stage))
  {
    LossBalances(s, id, r);
    AtBalances(Lost(s, id, r), id, stage);
  }

  lemma AdmitBalances(s: Server, id: TaskId)
    requires Balanced(s) && id in s.tasks && IpPermit !in s.tasks[id].holds
    ensures Balanced(Passed(s, id))
  {
    if Count(s.counts, s.tasks[id].ip) < s.limits.maxPerIp {
      GainBalances(s, id, IpPermit);
      AtBalances(Gained(s, id, IpPermit), id, Admitted);
    } else {
      var s' := s.(counts := Acquired(s.counts, s.tasks[id].ip, s.limits.maxPerIp));
      assert forall ip :: Count(s'.counts, ip) == Count(s.counts, ip);
      AtBalances(s', id, Unwinding);
    }
  }

  lemma StepIsLocal(s: Server, l: Label, other: TaskId)
    requires Enabled(s, l) && other != l.id
    ensures other in Step(s, l).tasks <==> other in s.tasks
    ensures other in s.tasks ==> Step(s, l).tasks[other] == s.tasks[other]
    ensures other in Step(s, l).conns <==> other in s.conns
    ensures other in s.conns ==> Step(s, l).conns[other] == s.conns[other]
    ensures other in Step(s, l).janitors <==> other in s.janitors
    ensures other in Step(s, l).departed <==> other in s.departed
    ensures other in Step(s, l).late <==> other in s.late
  {
    if Releasing(l) {
      ReleaseIsLocal(s, l, other);
    }
  }

  lemma ReleaseIsLocal(s: Server, l: Label, other: TaskId)
    requires Enabled(s, l) && Releasing(l) && other != l.id
    ensures other in Step(s, l).tasks <==> other in s.tasks
    ensures other in s.tasks ==> Step(s, l).tasks[other] == s.tasks[other]
    ensures other in Step(s, l).conns <==> other in s.conns
    ensures other in s.conns ==> Step(s, l).conns[other] == s.conns[other]
    ensures other in Step(s, l).janitors <==> other in s.janitors
    ensures other in Step(s, l).departed <==> other in s.departed
    ensures other in Step(s, l).late <==> other in s.late
  {
  }

  lemma StepKeepsTask(s: Server, l: Label)
    requires Enabled(s, l) && (l.id in s.tasks ==> TaskOk(s.tasks[l.id]))
    ensures l.id in Step(s, l).tasks ==> TaskOk(Step(s, l).tasks[l.id])
  {
    if Releasing(l) {
      ReleaseKeepsTask(s, l);
    } else {
      ProgressKeepsTask(s, l);
    }
  }

  /** Steps that drop something. */
  predicate Releasing(l: Label) {
    l.EndHandshake? || l.Take? || l.DropAdmission? || l.Unwind? || l.Janitor?
  }

  lemma ReleaseKeepsTask(s: Server, l: Label)
    requires Enabled(s, l) && Releasing(l) && (l.id in s.tasks ==> TaskOk(s.tasks[l.id]))
    ensures l.id in Step(s, l).tasks ==> TaskOk(Step(s, l).tasks[l.id])
  {
    if l.Unwind? {
      UnwindKeepsTask(s, l.id);
    }
  }

  lemma UnwindKeepsTask(s: Server, id: TaskId)
    requires id in s.tasks && s.tasks[id].stage.Unwinding? && TaskOk(s.tasks[id])
    ensures id in Unwound(s, id).tasks && TaskOk(Unwound(s, id).tasks[id])
  {
  }

  lemma ProgressKeepsTask(s: Server, l: Label)
    requires Enabled(s, l) && !Releasing(l) && (l.id in s.tasks ==> TaskOk(s.tasks[l.id]))
    ensures l.id in Step(s, l).tasks ==> TaskOk(Step(s, l).tasks[l.id])
  {
  }

  lemma StepKeepsCleanup(s: Server, l: Label)
    requires Enabled(s, l) && (l.id in s.tasks ==> TaskOk(s.tasks[l.id])) && Balanced(s) && CleanupAt(s, l.id)
    ensures CleanupAt(Step(s, l), l.id)
  {
    assert l.id in Holders(s.tasks, Entry) <==> l.id in s.tasks && Entry in s.tasks[l.id].holds;
  }

  lemma StepKeepsTidy(s: Server, l: Label)
    requires Enabled(s, l) && Tidy(s.counts) && s.limits.maxPerIp > 0
    ensures Tidy(Step(s, l).counts) && Step(s, l).limits == s.limits
  {
  }

  lemma StepOk(s: Server, l: Label)
    requires ServerOk(s) && Enabled(s, l)
    ensures ServerOk(Step(s, l)) && Step(s, l).limits == s.limits
  {
    StepBalances(s, l);
    StepKeepsTask(s, l);
    StepKeepsCleanup(s, l);
    var s' := Step(s, l);
    if s.limits.maxPerIp > 0 {
      StepKeepsTidy(s, l);
    }
    forall id | id in s'.tasks ensures TaskOk(s'.tasks[id]) {
      if id != l.id {
        StepIsLocal(s, l, id);
      }
    }
    forall id ensures CleanupAt(s', id) {
      if id != l.id {
        StepIsLocal(s, l, id);
        assert CleanupAt(s, id);
      }
    }
  }

  // ---- Every run ----

  ghost predicate IsRun(states: seq<Server>, labels: seq<Label>) {
    && |states| == |labels| + 1
    && states[0] == Initial(states[0].limits)
    && forall i {:trigger labels[i]} :: 0 <= i < |labels| ==> Enabled(states[i], labels[i]) && states[i + 1] == Step(states[i], labels[i])
  }

  lemma StartOk(limits: Limits)
    ensures ServerOk(Initial(limits))
  {
    var s := Initial(limits);
    assert Holders(s.tasks, ConnPermit) == {} && Holders(s.tasks, Slot) == {} && Holders(s.tasks, Entry) == {};
    forall ip ensures Count(s.counts, ip) == |HoldersAt(s.tasks, ip)| {
      assert HoldersAt(s.tasks, ip) == {};
    }
  }

  lemma {:induction false} RunOk(states: seq<Server>, labels: seq<Label>, n: nat)
    requires IsRun(states, labels) && n < |states|
    ensures ServerOk(states[n]) && states[n].limits == states[0].limits
  {
    if n == 0 {
      StartOk(states[0].limits);
    } else {
      RunOk(states, labels, n - 1);
      StepOk(states[n - 1], labels[n - 1]);
    }
  }

  function Running(tasks: map<TaskId, Task>): set<TaskId> {
    set id | id in tasks && !tasks[id].stage.Finished?
  }

  function InHandshake(tasks: map<TaskId, Task>): set<TaskId> {
    set id | id in tasks && tasks[id].stage.Handshaking?
  }

  /** Past the gate, not bound, and not yet on the way out. */
  function Unauthenticated(tasks: map<TaskId, Task>, ip: Ip): set<TaskId> {
    set id | && id in tasks && tasks[id].ip == ip && !tasks[id].authed
             && !tasks[id].stage.Spawned? && !tasks[id].stage.Flushing?
             && !tasks[id].stage.Unwinding? && !tasks[id].stage.Finished?
  }

  lemma Fewer<T>(a: set<T>, b: set<T>)
    requires a <= b
    ensures |a| <= |b|
  {
    assert b == a + (b - a);
  }

  /** At every point of every run: the gate's count of an address is its number of live permits and covers its
      unauthenticated connections, and none of the three limits is exceeded. */
  lemma LimitsHold(states: seq<Server>, labels: seq<Label>, n: nat, ip: Ip)
    requires IsRun(states, labels) && n < |states|
    ensures var s := states[n];
            && |Running(s.tasks)| <= s.limits.maxConnections
            && |InHandshake(s.tasks)| <= Handshakes(s.limits)
            && Count(s.counts, ip) == |HoldersAt(s.tasks, ip)| <= s.limits.maxPerIp
            && |Unauthenticated(s.tasks, ip)| <= Count(s.counts, ip)
  {
    RunOk(states, labels, n);
    var s := states[n];
    assert Running(s.tasks) == Holders(s.tasks, ConnPermit);
    Fewer(InHandshake(s.tasks), Holders(s.tasks, Slot));
    Fewer(Unauthenticated(s.tasks, ip), HoldersAt(s.tasks, ip));
  }

  /** Nobody is turned away early: in every run a connection is taken on exactly while fewer than the allowed number
      run, passes the gate exactly while its address has a permit left, and begins its handshake exactly while a slot
      is left; whoever is turned away is on the way out. */
  lemma TurnedAwayExactlyWhenFull(states: seq<Server>, labels: seq<Label>, i: nat)
    requires IsRun(states, labels) && i < |labels|
    ensures var s, t, l := states[i], states[i + 1], labels[i];
            match l
            case Accept(id, ip) =>
              var room := |Running(s.tasks)| < s.limits.maxConnections;
              t.tasks == if room then s.tasks[id := Task(ip, Spawned, {ConnPermit}, false, false)] else s.tasks
            case Admit(id) =>
              var room := |HoldersAt(s.tasks, s.tasks[id].ip)| < s.limits.maxPerIp;
              id in t.tasks && t.tasks[id].stage == if room then Admitted else Unwinding
            case BeginHandshake(id) =>
              var room := |Holders(s.tasks, Slot)| < Handshakes(s.limits);
              id in t.tasks && t.tasks[id].stage == if room then Handshaking else Unwinding
            case _ => true
  {
    RunOk(states, labels, i);
    var s, l := states[i], labels[i];
    match l
    case Accept(id, ip) =>
      assert Running(s.tasks) == Holders(s.tasks, ConnPermit);
      assert {} + {ConnPermit} == {ConnPermit};
      if s.free > 0 {
        assert states[i + 1].tasks == s.tasks[id := Task(ip, Spawned, {ConnPermit}, false, false)];
      }
    case Admit(id) => assert Count(s.counts, s.tasks[id].ip) == |HoldersAt(s.tasks, s.tasks[id].ip)|;
    case _ =>
  }

  /** How far a connection that nobody interrupts has come on its way in. */
  ghost predicate Arrived(s: Server, id: TaskId, ip: Ip, stage: Stage, holds: set<Resource>, t: Server) {
    && t.tasks == s.tasks[id := Task(ip, stage, holds, false, false)]
    && t.limits == s.limits && t.free == s.free - 1
    && t.slots == (if Slot in holds then s.slots - 1 else s.slots)
    && t.conns == (if Entry in holds then s.conns[id := true] else s.conns)
    && (IpPermit !in holds ==> t.counts == s.counts)
  }

  lemma AcceptedArrives(s: Server, id: TaskId, ip: Ip)
    requires id !in s.tasks && s.free > 0
    ensures Arrived(s, id, ip, Spawned, {ConnPermit}, Step(s, Accept(id, ip)))
  {
    var t := Step(s, Accept(id, ip));
    assert {} + {ConnPermit} == {ConnPermit};
    assert t.tasks == s.tasks[id := Task(ip, Spawned, {ConnPermit}, false, false)];
  }

  lemma AdmittedArrives(s: Server, id: TaskId, ip: Ip, t: Server)
    requires Arrived(s, id, ip, Spawned, {ConnPermit}, t) && Count(s.counts, ip) < s.limits.maxPerIp
    ensures Arrived(s, id, ip, Admitted, {ConnPermit, IpPermit}, Step(t, Admit(id)))
  {
    assert {ConnPermit} + {IpPermit} == {ConnPermit, IpPermit};
    assert Step(t, Admit(id)).tasks == s.tasks[id := Task(ip, Admitted, {ConnPermit, IpPermit}, false, false)];
  }

  lemma HandshakingArrives(s: Server, id: TaskId, ip: Ip, t: Server)
    requires Arrived(s, id, ip, Admitted, {ConnPermit, IpPermit}, t) && s.slots > 0
    ensures Arrived(s, id, ip, Handshaking, {ConnPermit, IpPermit, Slot}, Step(t, BeginHandshake(id)))
  {
    assert {ConnPermit, IpPermit} + {Slot} == {ConnPermit, IpPermit, Slot};
    assert Step(t, BeginHandshake(id)).tasks == s.tasks[id := Task(ip, Handshaking, {ConnPermit, IpPermit, Slot}, false, false)];
  }

  lemma ConnectedArrives(s: Server, id: TaskId, ip: Ip, t: Server)
    requires Arrived(s, id, ip, Handshaking, {ConnPermit, IpPermit, Slot}, t)
    ensures Arrived(s, id, ip, Connected, {ConnPermit, IpPermit}, Step(t, EndHandshake(id, true)))
  {
    assert {ConnPermit, IpPermit, Slot} - {Slot} == {ConnPermit, IpPermit};
    assert Step(t, EndHandshake(id, true)).tasks == s.tasks[id := Task(ip, Connected, {ConnPermit, IpPermit}, false, false)];
  }

  lemma ServedArrives(s: Server, id: TaskId, ip: Ip, t: Server)
    requires Arrived(s, id, ip, Connected, {ConnPermit, IpPermit}, t)
    ensures Arrived(s, id, ip, Serving, {ConnPermit, IpPermit, Entry}, Step(t, Register(id)))
  {
    assert {ConnPermit, IpPermit} + {Entry} == {ConnPermit, IpPermit, Entry};
    assert Step(t, Register(id)).tasks == s.tasks[id := Task(ip, Serving, {ConnPermit, IpPermit, Entry}, false, false)];
  }

  /** With room under all three limits, an uninterrupted connection whose handshake succeeds ends up served: listed with
      its sender, its handshake slot given back, its two permits still held, and nobody else touched. */
  lemma RoomForOneMore(states: seq<Server>, labels: seq<Label>, i: nat, id: TaskId, ip: Ip)
    requires IsRun(states, labels) && i + 5 <= |labels|
    requires labels[i] == Accept(id, ip) && labels[i + 1] == Admit(id) && labels[i + 2] == BeginHandshake(id)
    requires labels[i + 3] == EndHandshake(id, true) && labels[i + 4] == Register(id)
    requires var s := states[i];
             && |Running(s.tasks)| < s.limits.maxConnections
             && |HoldersAt(s.tasks, ip)| < s.limits.maxPerIp
             && |Holders(s.tasks, Slot)| < Handshakes(s.limits)
    ensures Arrived(states[i], id, ip, Serving, {ConnPermit, IpPermit, Entry}, states[i + 5])
  {
    var s := states[i];
    RunOk(states, labels, i);
    assert Running(s.tasks) == Holders(s.tasks, ConnPermit);
    assert Count(s.counts, ip) == |HoldersAt(s.tasks, ip)|;
    AcceptedArrives(s, id, ip);
    AdmittedArrives(s, id, ip, states[i + 1]);
    HandshakingArrives(s, id, ip, states[i + 2]);
    ConnectedArrives(s, id, ip, states[i + 3]);
    ServedArrives(s, id, ip, states[i + 4]);
  }

  predicate CleanedTask(s: Server, id: TaskId) {
    id in s.tasks && s.tasks[id].cleaned
  }

  lemma CleanedStays(s: Server, l: Label, id: TaskId)
    requires Enabled(s, l) && CleanedTask(s, id)
    ensures CleanedTask(Step(s, l), id)
  {
  }

  /** From the end of its own clean-up on, in every run, a connection has no sender in the registry for a broadcast to
      reach; until then a listed connection has one. */
  lemma {:induction false} SenderGoesWithTheCleanup(states: seq<Server>, labels: seq<Label>, n: nat, id: TaskId)
    requires IsRun(states, labels) && n < |states|
    ensures CleanedTask(states[n], id) <==> exists i, done :: 0 <= i < n && labels[i] == CleanedUp(id, done)
    ensures id in states[n].conns ==> (states[n].conns[id] <==> !CleanedTask(states[n], id))
  {
    RunOk(states, labels, n);
    assert CleanupAt(states[n], id);
    if n > 0 {
      SenderGoesWithTheCleanup(states, labels, n - 1, id);
      if CleanedTask(states[n - 1], id) {
        CleanedStays(states[n - 1], labels[n - 1], id);
      } else {
        CleanedBy(states[n - 1], labels[n - 1], id);
      }
    }
  }

  lemma CleanedBy(s: Server, l: Label, id: TaskId)
    requires Enabled(s, l) && !CleanedTask(s, id)
    ensures CleanedTask(Step(s, l), id) <==> l.CleanedUp? && l.id == id
  {
  }

  /** The step that ends the task's clean-up. */
  predicate EndsCleanup(l: Label, id: TaskId) {
    (l.CleanedUp? || l.Janitor?) && l.id == id
  }

  lemma AfterStep(states: seq<Server>, labels: seq<Label>, i: nat)
    requires IsRun(states, labels) && i < |labels|
    ensures Enabled(states[i], labels[i]) && states[i + 1] == Step(states[i], labels[i])
  {
  }

  lemma CleanupEndsOnce(s: Server, l: Label, id: TaskId)
    requires ServerOk(s) && Enabled(s, l)
    ensures EndsCleanup(l, id) ==> !Settled(s, id)
    ensures id in Step(s, l).departed <==> id in s.departed || (EndsCleanup(l, id) && l.done)
    ensures id in Step(s, l).late <==> id in s.late || (EndsCleanup(l, id) && !l.done)
  {
    assert CleanupAt(s, id);
    if l.id != id {
      StepIsLocal(s, l, id);
    } else if l.Janitor? {
      assert id in s.conns;
    }
  }

  /** Among the first `n` steps is one that ends the task's clean-up, in time (`done`) or not. */
  ghost predicate CleanupEnded(labels: seq<Label>, n: nat, id: TaskId, done: bool)
    requires n <= |labels|
  {
    exists i :: 0 <= i < n && EndsCleanup(labels[i], id) && labels[i].done == done
  }

  lemma CleanupEndedNext(labels: seq<Label>, n: nat, id: TaskId, done: bool)
    requires n < |labels|
    ensures CleanupEnded(labels, n + 1, id, done) <==>
      CleanupEnded(labels, n, id, done) || (EndsCleanup(labels[n], id) && labels[n].done == done)
  {
  }

  /** In every run, `departed` and `late` tell how the task's clean-up ended. */
  lemma {:induction false} OutcomeIsRecorded(states: seq<Server>, labels: seq<Label>, n: nat, id: TaskId)
    requires IsRun(states, labels) && n < |states|
    ensures id in states[n].departed <==> CleanupEnded(labels, n, id, true)
    ensures id in states[n].late <==> CleanupEnded(labels, n, id, false)
  {
    if n > 0 {
      OutcomeIsRecorded(states, labels, n - 1, id);
      CleanupEndedNext(labels, n - 1, id, true);
      CleanupEndedNext(labels, n - 1, id, false);
      RunOk(states, labels, n - 1);
      AfterStep(states, labels, n - 1);
      CleanupEndsOnce(states[n - 1], labels[n - 1], id);
    }
  }

  /** In every run a task has at most one clean-up that ends. */
  lemma OneCleanupEnds(states: seq<Server>, labels: seq<Label>, i: nat, j: nat, id: TaskId)
    requires IsRun(states, labels) && i < j < |labels|
    ensures !(EndsCleanup(labels[i], id) && EndsCleanup(labels[j], id))
  {
    OutcomeIsRecorded(states, labels, j, id);
    RunOk(states, labels, j);
    CleanupEndsOnce(states[j], labels[j], id);
    if EndsCleanup(labels[i], id) {
      assert CleanupEnded(labels, j, id, labels[i].done);
    }
  }

  /** A run in which a bound connection is aborted and its clean-up runs out of time. */
  function LateLabel(k: nat): Label
    requires k < 9
  {
    match k
    case 0 => Accept(0, 0)
    case 1 => Admit(0)
    case 2 => BeginHandshake(0)
    case 3 => EndHandshake(0, true)
    case 4 => Register(0)
    case 5 => Bind(0)
    case 6 => Abort(0)
    case 7 => Unwind(0)
    case 8 => Janitor(0, false)
  }

  function LateServer(free: nat, slots: nat, counts: Counts, conns: Registered, task: Task, janitors: set<TaskId>, late: set<TaskId>)
    : Server
  {
    Server(Limits(1, 1, 1), free, slots, counts, conns, map[0 := task], janitors, {}, late)
  }

  function LateState(k: nat): Server
    requires k < 10
  {
    match k
    case 0 => Initial(Limits(1, 1, 1))
    case 1 => LateServer(0, 1, map[], map[], Task(0, Spawned, {ConnPermit}, false, false), {}, {})
    case 2 => LateServer(0, 1, map[0 := 1], map[], Task(0, Admitted, {ConnPermit, IpPermit}, false, false), {}, {})
    case 3 => LateServer(0, 0, map[0 := 1], map[], Task(0, Handshaking, {ConnPermit, IpPermit, Slot}, false, false), {}, {})
    case 4 => LateServer(0, 1, map[0 := 1], map[], Task(0, Connected, {ConnPermit, IpPermit}, false, false), {}, {})
    case 5 => LateServer(0, 1, map[0 := 1], map[0 := true], Task(0, Serving, {ConnPermit, IpPermit, Entry}, false, false), {}, {})
    case 6 => LateServer(0, 1, map[0 := 1], map[0 := true], Task(0, Serving, {ConnPermit, IpPermit, Entry}, true, false), {}, {})
    case 7 => LateServer(0, 1, map[0 := 1], map[0 := true], Task(0, Unwinding, {ConnPermit, IpPermit, Entry}, true, false), {}, {})
    case 8 => LateServer(0, 1, map[0 := 1], map[0 := true], Task(0, Unwinding, {ConnPermit, IpPermit}, true, false), {0}, {})
    case 9 => LateServer(0, 1, map[0 := 1], map[], Task(0, Unwinding, {ConnPermit, IpPermit}, true, false), {}, {0})
  }

  lemma LateAdmitted(k: nat)
    requires 0 <= k < 3
    ensures Enabled(LateState(k), LateLabel(k)) && Step(LateState(k), LateLabel(k)) == LateState(k + 1)
  {
    assert forall t: Task, t': Task :: map[0 := t][0 := t'] == map[0 := t'];
    match k {
      case 0 => assert {} + {ConnPermit} == {ConnPermit};
      case 1 => assert {ConnPermit} + {IpPermit} == {ConnPermit, IpPermit};
      case 2 => assert {ConnPermit, IpPermit} + {Slot} == {ConnPermit, IpPermit, Slot};
    }
  }

  lemma LateServed(k: nat)
    requires 3 <= k < 6
    ensures Enabled(LateState(k), LateLabel(k)) && Step(LateState(k), LateLabel(k)) == LateState(k + 1)
  {
    assert forall t: Task, t': Task :: map[0 := t][0 := t'] == map[0 := t'];
    match k {
      case 3 => assert {ConnPermit, IpPermit, Slot} - {Slot} == {ConnPermit, IpPermit};
      case 4 => assert {ConnPermit, IpPermit} + {Entry} == {ConnPermit, IpPermit, Entry};
      case 5 =>
    }
  }

  lemma LateAborted(k: nat)
    requires 6 <= k < 9
    ensures Enabled(LateState(k), LateLabel(k)) && Step(LateState(k), LateLabel(k)) == LateState(k + 1)
  {
    assert forall t: Task, t': Task :: map[0 := t][0 := t'] == map[0 := t'];
    match k {
      case 6 =>
      case 7 =>
        assert {ConnPermit, IpPermit, Entry} - {Entry} == {ConnPermit, IpPermit};
        assert {} + {0} == {0};
      case 8 =>
        assert map[0 := true] - {0} == map[];
        assert {0} - {0} == {} && {} + {0} == {0};
    }
  }

  lemma LateStep(k: nat)
    requires k < 9
    ensures Enabled(LateState(k), LateLabel(k)) && Step(LateState(k), LateLabel(k)) == LateState(k + 1)
  {
    if k < 3 {
      LateAdmitted(k);
    } else if k < 6 {
      LateServed(k);
    } else {
      LateAborted(k);
    }
  }

  /** An empty registry alone does not mean that everybody was cleaned up: a clean-up that runs out of time is removed from
      the registry as well. */
  lemma TimedOutCleanupIsForgotten() returns (states: seq<Server>, labels: seq<Label>)
    ensures IsRun(states, labels) && |states| == 10
    ensures states[9].conns == map[] && 0 in states[9].tasks && states[9].tasks[0].authed && 0 !in states[9].departed
  {
    states := seq(10, k requires 0 <= k < 10 => LateState(k));
    labels := seq(9, k requires 0 <= k < 9 => LateLabel(k));
    forall k | 0 <= k < 9 ensures Enabled(states[k], labels[k]) && states[k + 1] == Step(states[k], labels[k]) {
      LateStep(k);
    }
    LateEnds();
    assert states[0] == LateState(0) && states[9] == LateState(9);
  }

  lemma LateEnds()
    ensures LateState(0) == Initial(LateState(0).limits)
    ensures var s := LateState(9); s.conns == map[] && 0 in s.tasks && s.tasks[0].authed && 0 !in s.departed
  {
  }

  /** A bound connection is listed until its clean-up has ended. So when the registry is empty, as shutdown waits for,
      the clean-up of every connection that was ever bound has ended, and it was completed if and only if it did not
      run out of time. */
  lemma EmptyRegistryMeansSettled(states: seq<Server>, labels: seq<Label>, n: nat, id: TaskId)
    requires IsRun(states, labels) && n < |states| && id in states[n].tasks && states[n].tasks[id].authed
    ensures id in states[n].conns || Settled(states[n], id)
    ensures states[n].conns == map[] ==> 
      (id in states[n].departed <==> !CleanupEnded(labels, n, id, false))
  {
    RunOk(states, labels, n);
    OutcomeIsRecorded(states, labels, n, id);
    assert CleanupAt(states[n], id);
  }

  /** Once every task has finished and every janitor is done, everything is back: both semaphores are full, the
      registry is empty, and the gate holds nothing at all unless its limit is zero. */
  lemma EverythingIsReturned(states: seq<Server>, labels: seq<Label>, n: nat)
    requires IsRun(states, labels) && n < |states|
    requires Running(states[n].tasks) == {} && states[n].janitors == {}
    ensures var s := states[n];
            && s.free == s.limits.maxConnections && s.slots == Handshakes(s.limits) && s.conns == map[]
            && (forall ip :: Count(s.counts, ip) == 0)
            && (s.limits.maxPerIp > 0 ==> s.counts == map[])
  {
    RunOk(states, labels, n);
    var s := states[n];
    forall id | id in s.tasks ensures s.tasks[id].holds == {} {
      assert id !in Running(s.tasks);
      forall r ensures r !in s.tasks[id].holds {
        match r { case ConnPermit => case IpPermit => case Slot => case Entry => }
      }
    }
    forall r ensures Holders(s.tasks, r) == {} {}
    assert s.conns.Keys == {};
    forall ip ensures Count(s.counts, ip) == 0 {
      assert HoldersAt(s.tasks, ip) == {};
    }
    if s.limits.maxPerIp > 0 {
      forall ip ensures ip !in s.counts {
        assert Count(s.counts, ip) == 0;
      }
    }
  }

  // ---- Exactly once ----

  /** A task, or the janitor that acts for it, has the resource. */
  predicate Keeps(s: Server, id: TaskId, r: Resource) {
    (id in s.tasks && r in s.tasks[id].holds) || (r.Entry? && id in s.janitors)
  }

  /** The task is beyond the point at which it can acquire the resource. */
  predicate Past(s: Server, id: TaskId, r: Resource) {
    id in s.tasks && Rank(s.tasks[id].stage) >= match r { case ConnPermit => 0 case IpPermit => 1 case Slot => 2 case Entry => 4 }
  }

  /** How often, in the first `n` steps, the resource was acquired for the task. */
  function Takings(states: seq<Server>, n: nat, id: TaskId, r: Resource): nat
    requires n < |states|
  {
    if n == 0 then 0
    else Takings(states, n - 1, id, r) + if !Keeps(states[n - 1], id, r) && Keeps(states[n], id, r) then 1 else 0
  }

  /** How often, in the first `n` steps, the resource of the task was released. */
  function Releases(states: seq<Server>, n: nat, id: TaskId, r: Resource): nat
    requires n < |states|
  {
    if n == 0 then 0
    else Releases(states, n - 1, id, r) + if Keeps(states[n - 1], id, r) && !Keeps(states[n], id, r) then 1 else 0
  }

  lemma OwnStepGoesOn(s: Server, l: Label, r: Resource)
    requires Enabled(s, l) && Past(s, l.id, r)
    ensures Past(Step(s, l), l.id, r)
  {
  }

  lemma OwnStepTakesOnce(s: Server, l: Label, r: Resource)
    requires Enabled(s, l) && CleanupAt(s, l.id) && (l.id in s.tasks ==> TaskOk(s.tasks[l.id]))
    ensures !Keeps(s, l.id, r) && Keeps(Step(s, l), l.id, r) ==> !Past(s, l.id, r) && Past(Step(s, l), l.id, r)
  {
  }

  lemma StepTakesOnce(s: Server, l: Label, id: TaskId, r: Resource)
    requires ServerOk(s) && Enabled(s, l)
    ensures Past(s, id, r) ==> Past(Step(s, l), id, r)
    ensures !Keeps(s, id, r) && Keeps(Step(s, l), id, r) ==> !Past(s, id, r) && Past(Step(s, l), id, r)
  {
    if l.id == id {
      if Past(s, id, r) {
        OwnStepGoesOn(s, l, r);
      }
      OwnStepTakesOnce(s, l, r);
    } else {
      StepIsLocal(s, l, id);
    }
  }

  lemma {:induction false} TakenOnce(states: seq<Server>, labels: seq<Label>, n: nat, id: TaskId, r: Resource)
    requires IsRun(states, labels) && n < |states|
    ensures Takings(states, n, id, r) <= if Past(states[n], id, r) then 1 else 0
    ensures Takings(states, n, id, r) == Releases(states, n, id, r) + if Keeps(states[n], id, r) then 1 else 0
  {
    if n > 0 {
      TakenOnce(states, labels, n - 1, id, r);
      RunOk(states, labels, n - 1);
      StepTakesOnce(states[n - 1], labels[n - 1], id, r);
    }
  }

  /** In every run, at whatever point tasks are aborted: a task acquires each resource at most once, no resource is
      released more than once, and by the time the task has finished and its janitor is done, whatever it acquired has
      been released exactly once. */
  lemma ReleasedExactlyOnce(states: seq<Server>, labels: seq<Label>, n: nat, id: TaskId, r: Resource)
    requires IsRun(states, labels) && n < |states|
    ensures Releases(states, n, id, r) <= Takings(states, n, id, r) <= 1
    ensures id in states[n].tasks && states[n].tasks[id].stage.Finished? && id !in states[n].janitors ==>
            Releases(states, n, id, r) == Takings(states, n, id, r)
  {
    TakenOnce(states, labels, n, id, r);
    RunOk(states, labels, n);
    if id in states[n].tasks {
      assert TaskOk(states[n].tasks[id]);
      match r { case ConnPermit => case IpPermit => case Slot => case Entry => }
    }
  }
}
