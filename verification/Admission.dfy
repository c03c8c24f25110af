/** The per-address gate on unauthenticated connections and the registry of live connections. */
module Gates {
  type Ip = nat
  type ConnId = nat
  type Counts = map<Ip, nat>

  function Count(counts: Counts, ip: Ip): nat {
    if ip in counts then counts[ip] else 0
  }

  /** The entry is made before the limit is looked at. */
  function Acquired(counts: Counts, ip: Ip, max: nat): Counts {
    counts[ip := if Count(counts, ip) >= max then Count(counts, ip) else Count(counts, ip) + 1]
  }

  function Released(counts: Counts, ip: Ip): Counts {
    if ip !in counts then counts
    else if counts[ip] <= 1 then counts - {ip}
    else counts[ip := counts[ip] - 1]
  }

  class AuthGate {
    const maxPerIp: nat
    var counts: Counts

    constructor (maxPerIp: nat)
      ensures this.maxPerIp == maxPerIp && counts == map[]
    {
      this.maxPerIp := maxPerIp;
      counts := map[];
    }

    method Acquire(ip: Ip) returns (ok: bool)
      modifies this
      ensures ok <==> Count(old(counts), ip) < maxPerIp
      ensures counts == Acquired(old(counts), ip, maxPerIp)
    {
      if ip !in counts {
        counts := counts[ip := 0];
      }
      if counts[ip] >= maxPerIp {
        return false;
      }
      counts := counts[ip := counts[ip] + 1];
      return true;
    }

    method Release(ip: Ip)
      modifies this
      ensures counts == Released(old(counts), ip)
    {
      if ip in counts {
        var count := if counts[ip] == 0 then 0 else counts[ip] - 1;
        counts := counts[ip := count];
        if count == 0 {
          counts := counts - {ip};
        }
      }
    }

    method UnauthCount(ip: Ip) returns (n: nat)
      ensures n == Count(counts, ip)
    {
      n := if ip in counts then counts[ip] else 0;
    }
  }

  /** Releasing gives back what was acquired, and only for that address. */
  lemma ReleaseUndoesAcquire(counts: Counts, ip: Ip, max: nat, other: Ip)
    requires Count(counts, ip) < max
    ensures Count(Released(Acquired(counts, ip, max), ip), other) == Count(counts, other)
    ensures other != ip ==> Count(Acquired(counts, ip, max), other) == Count(counts, other)
    ensures Count(counts, ip) < Count(Acquired(counts, ip, max), ip) <= max
  {
  }

  predicate Tidy(counts: Counts) {
    forall ip :: ip in counts ==> counts[ip] > 0
  }

  /** A refusal leaves an entry behind exactly when the map had none for the address, which happens only if the limit is
      zero; no permit is then ever given out that would remove it. */
  lemma RefusalLeavesNoTraceExactlyWhen(counts: Counts, ip: Ip, max: nat)
    requires Tidy(counts) && Count(counts, ip) >= max
    ensures Acquired(counts, ip, max) == counts <==> ip in counts
    ensures Tidy(Acquired(counts, ip, max)) <==> ip in counts
    ensures max > 0 ==> ip in counts
  {
    if ip in counts {
      assert Acquired(counts, ip, max) == counts;
    } else {
      assert ip in Acquired(counts, ip, max);
    }
  }

  /** With a limit of zero, one refused connection leaves an entry that nothing removes. */
  lemma ZeroLimitLeavesATrace(ip: Ip)
    ensures Acquired(map[], ip, 0) == map[ip := 0] && !Tidy(Acquired(map[], ip, 0))
  {
    assert ip in Acquired(map[], ip, 0);
  }

  /** Registered connections; the flag tells whether the sender is still reachable for broadcasts. */
  type Registered = map<ConnId, bool>

  function Drained(conns: Registered, id: ConnId): Registered {
    if id in conns then conns[id := false] else conns
  }

  class ConnectionRegistry {
    var conns: Registered

    constructor ()
      ensures conns == map[]
    {
      conns := map[];
    }

    method Register(id: ConnId)
      modifies this
      ensures conns == old(conns)[id := true]
    {
      conns := conns[id := true];
    }

    method BeginDrain(id: ConnId)
      modifies this
      ensures conns == Drained(old(conns), id)
      ensures conns.Keys == old(conns).Keys && (id in conns ==> !conns[id])
      ensures forall other :: other in conns && other != id ==> conns[other] == old(conns)[other]
    {
      if id in conns {
        conns := conns[id := false];
      }
    }

    /** Tells whether a sender was handed back. */
    method Remove(id: ConnId) returns (sender: bool)
      modifies this
      ensures conns == old(conns) - {id}
      ensures sender <==> id in old(conns) && old(conns)[id]
    {
      sender := id in conns && conns[id];
      conns := conns - {id};
    }

    /** The two calls a connection makes on its way out: it begins to drain, and later its guard removes it. By then
        there is no sender to hand back. */
    method DrainThenRemove(id: ConnId) returns (sender: bool)
      modifies this
      ensures !sender && conns == old(conns) - {id}
    {
      BeginDrain(id);
      sender := Remove(id);
    }

    method ActiveCount() returns (n: nat)
      ensures n == |conns|
    {
      n := |conns|;
    }
  }
}

/** Connection tasks from accept to exit, aborts included: who holds which permit, slot and registry entry.
    Each step runs one task past one acquisition, release or await. */
module Admission {
  import opened Gates

  type TaskId = nat

  datatype Resource = ConnPermit | IpPermit | Slot | Entry

  datatype Stage =
    | Spawned
    | Admitted
    | Handshaking
    | Connected
    | Serving
    | Cleaning
    | Draining
    | Flushing
    | Unwinding
    | Finished

  datatype Task = Task(ip: Ip, stage: Stage, holds: set<Resource>, authed: bool, cleaned: bool)

  datatype Limits = Limits(maxConnections: nat, maxPerIp: nat, acceptConcurrency: nat)

  /** `free` and `slots` are what the two semaphores have left, `janitors` the clean-ups spawned by dropped guards,
      `departed` the connections whose room clean-up was completed, `late` those whose clean-up ran into its deadline. */
  datatype Server = Server(
    limits: Limits,
    free: nat,
    slots: nat,
    counts: Counts,
    conns: Registered,
    tasks: map<TaskId, Task>,
    janitors: set<TaskId>,
    departed: set<TaskId>,
    late: set<TaskId>)

  function Handshakes(limits: Limits): nat {
    if limits.acceptConcurrency < 1 then 1 else limits.acceptConcurrency
  }

  function Initial(limits: Limits): Server {
    Server(limits, limits.maxConnections, Handshakes(limits), map[], map[], map[], {}, {}, {})
  }

  /** `Take` is the permit taken off an authenticated connection, `Abort` any early end of a task: the abort of its
      future, a panic, shutdown or a failed check; `done` tells whether a clean-up completed or ran out of time. */
  datatype Label =
    | Accept(id: TaskId, ip: Ip)
    | Admit(id: TaskId)
    | BeginHandshake(id: TaskId)
    | EndHandshake(id: TaskId, ok: bool)
    | Register(id: TaskId)
    | Bind(id: TaskId)
    | Take(id: TaskId)
    | LoopEnds(id: TaskId)
    | CleanedUp(id: TaskId, done: bool)
    | DropAdmission(id: TaskId)
    | Flushed(id: TaskId)
    | Abort(id: TaskId)
    | Unwind(id: TaskId)
    | Janitor(id: TaskId, done: bool)

  // ---- Acquiring and releasing ----

  function Gained(s: Server, id: TaskId, r: Resource): Server
    requires id in s.tasks && (r.ConnPermit? ==> s.free > 0) && (r.Slot? ==> s.slots > 0)
  {
    var task := s.tasks[id];
    var t := s.(tasks := s.tasks[id := task.(holds := task.holds + {r})]);
    match r
    case ConnPermit => t.(free := s.free - 1)
    case IpPermit => t.(counts := Acquired(s.counts, task.ip, s.limits.maxPerIp))
    case Slot => t.(slots := s.slots - 1)
    case Entry => t.(conns := s.conns[id := true])
  }

  /** Dropping a resource; the guard that owns the registry entry hands it to a janitor when an authenticated
      connection has not been cleaned up. Dropping a resource that is not held does nothing. */
  function Lost(s: Server, id: TaskId, r: Resource): Server
    requires id in s.tasks
  {
    var task := s.tasks[id];
    if r !in task.holds then s
    else
      var t := s.(tasks := s.tasks[id := task.(holds := task.holds - {r})]);
      match r
      case ConnPermit => t.(free := s.free + 1)
      case IpPermit => t.(counts := Released(s.counts, task.ip))
      case Slot => t.(slots := s.slots + 1)
      case Entry =>
        if !task.cleaned && task.authed then t.(janitors := s.janitors + {id}) else t.(conns := s.conns - {id})
  }

  function At(s: Server, id: TaskId, stage: Stage): Server
    requires id in s.tasks
  {
    s.(tasks := s.tasks[id := s.tasks[id].(stage := stage)])
  }

  /** Locals are dropped innermost first: the guard, the handshake slot, the admission, the connection permit. */
  function NextDrop(holds: set<Resource>): Resource {
    if Entry in holds then Entry
    else if Slot in holds then Slot
    else if IpPermit in holds then IpPermit
    else ConnPermit
  }

  predicate Enabled(s: Server, l: Label) {
    match l
    case Accept(id, _) => id !in s.tasks
    case Janitor(id, _) => id in s.janitors
    case _ =>
      l.id in s.tasks &&
      var task := s.tasks[l.id];
      match l
      case Admit(_) => task.stage.Spawned?
      case BeginHandshake(_) => task.stage.Admitted?
      case EndHandshake(_, _) => task.stage.Handshaking?
      case Register(_) => task.stage.Connected?
      case Bind(_) => task.stage.Serving?
      case Take(_) => task.stage.Serving? && task.authed
      case LoopEnds(_) => task.stage.Serving?
      case CleanedUp(_, done) => task.stage.Cleaning? && (done || task.authed)
      case DropAdmission(_) => task.stage.Draining?
      case Flushed(_) => task.stage.Flushing?
      case Abort(_) => !task.stage.Unwinding? && !task.stage.Finished?
      case Unwind(_) => task.stage.Unwinding?
      case _ => false
  }

  function Accepted(s: Server, id: TaskId, ip: Ip): Server
    requires id !in s.tasks
  {
    if s.free == 0 then s
    else Gained(s.(tasks := s.tasks[id := Task(ip, Spawned, {}, false, false)]), id, ConnPermit)
  }

  function Passed(s: Server, id: TaskId): Server
    requires id in s.tasks
  {
    var ip := s.tasks[id].ip;
    if Count(s.counts, ip) < s.limits.maxPerIp then At(Gained(s, id, IpPermit), id, Admitted)
    else At(s.(counts := Acquired(s.counts, ip, s.limits.maxPerIp)), id, Unwinding)
  }

  /** The end of a clean-up; one that runs out of time is logged and forgotten. */
  function Noted(s: Server, id: TaskId, done: bool): Server {
    if done then s.(departed := s.departed + {id}) else s.(late := s.late + {id})
  }

  function Tidied(s: Server, id: TaskId): Server
    requires id in s.tasks
  {
    s.(tasks := s.tasks[id := s.tasks[id].(stage := Draining, cleaned := true)], conns := Drained(s.conns, id))
  }

  function Unwound(s: Server, id: TaskId): Server
    requires id in s.tasks
  {
    var r := NextDrop(s.tasks[id].holds);
    if r.ConnPermit? then At(Lost(s, id, r), id, Finished) else Lost(s, id, r)
  }

  function Step(s: Server, l: Label): Server
    requires Enabled(s, l)
  {
    match l
    case Accept(id, ip) => Accepted(s, id, ip)
    case Admit(id) => Passed(s, id)
    case BeginHandshake(id) =>
      if s.slots > 0 then At(Gained(s, id, Slot), id, Handshaking) else At(s, id, Unwinding)
    case EndHandshake(id, ok) => At(Lost(s, id, Slot), id, if ok then Connected else Unwinding)
    case Register(id) => At(Gained(s, id, Entry), id, Serving)
    case Bind(id) => s.(tasks := s.tasks[id := s.tasks[id].(authed := true)])
    case Take(id) => Lost(s, id, IpPermit)
    case LoopEnds(id) => At(s, id, Cleaning)
    case CleanedUp(id, done) => Noted(Tidied(s, id), id, done)
    case DropAdmission(id) => At(Lost(s, id, IpPermit), id, Flushing)
    case Flushed(id) => At(s, id, Unwinding)
    case Abort(id) => At(s, id, Unwinding)
    case Unwind(id) => Unwound(s, id)
    case Janitor(id, done) => Noted(s.(conns := s.conns - {id}, janitors := s.janitors - {id}), id, done)
  }
}

/** The guard of a connection task, whose drop removes the connection or leaves that to a spawned clean-up. */
module Lifecycle {
  import opened Gates
  import Admission

  class ConnectionGuard {
    const registry: ConnectionRegistry
    const id: ConnId
    var authed: bool
    var cleaned: bool
    var writerAborted: bool
    var translatorAborted: bool

    constructor (registry: ConnectionRegistry, id: ConnId)
      ensures this.registry == registry && this.id == id && !authed && !cleaned && !writerAborted && !translatorAborted
    {
      this.registry, this.id := registry, id;
      authed, cleaned, writerAborted, translatorAborted := false, false, false, false;
    }

    method Cleanup()
      modifies this`cleaned
      ensures cleaned
    {
      cleaned := true;
    }

    /** This is the guard of task `id` of the server `s`, holding its registry entry. */
    ghost predicate Guards(s: Admission.Server)
      reads this, registry
    {
      && registry.conns == s.conns
      && id in s.tasks && Admission.Entry in s.tasks[id].holds
      && s.tasks[id].authed == authed && s.tasks[id].cleaned == cleaned
    }

    /** The drop aborts writer and translator and is the loss of the entry in the task machine: the connection stays registered exactly while a clean-up
        is still owed, and a janitor is spawned exactly then. */
    method Drop(ghost s: Admission.Server) returns (spawned: bool)
      requires Guards(s)
      modifies registry, this`writerAborted, this`translatorAborted
      ensures writerAborted && translatorAborted
      ensures registry.conns == Admission.Lost(s, id, Admission.Entry).conns
      ensures spawned <==> Admission.Lost(s, id, Admission.Entry).janitors == s.janitors + {id} && authed && !cleaned
      ensures spawned ==> registry.conns == old(registry.conns)
    {
      writerAborted, translatorAborted := true, true;
      spawned := !cleaned && authed;
      if !spawned {
        var sender := registry.Remove(id);
      }
    }

    /** The end of the spawned clean-up, whether it left the rooms in time or not. */
    method FinishCleanup(ghost s: Admission.Server, ghost done: bool)
      requires registry.conns == s.conns && id in s.janitors
      modifies registry
      ensures registry.conns == Admission.Step(s, Admission.Janitor(id, done)).conns
    {
      var sender := registry.Remove(id);
    }
  }
}
