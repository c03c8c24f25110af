/** Sessions on live connections: every connection re-validates its own token before it acts, while logins,
    revocations and expiries go on. Each step runs a task from one await to the next; the token store answers
    a pending lookup in a step of its own, at its own instant. */
module GatewaySessions {
  import opened Prelude
  import opened RoomSinks
  import T = TokenStores

  type ConnId = nat

  /** A client message; the token of a `Bind` is absent when it is blank. */
  datatype Message = Bind(token: Option<T.Token>) | Request(payload: nat)

  datatype Auth = Auth(player: T.PlayerId, token: T.Token)

  datatype Answer = Pending | Found(player: Option<T.PlayerId>) | StoreError

  datatype Reader =
    | Waiting
    | Validating(message: Message, auth: Auth, answer: Answer)
    | Resolving(token: T.Token, answer: Answer)
    | Loading(token: T.Token, player: T.PlayerId)
    | Handling
    | Ended

  datatype Translator = Listening | Checking(event: RoomEvent, auth: Auth, answer: Answer) | Stopped

  /** The connection's own task: waiting for the first of the two to end, cleaning up its rooms, or done with both. */
  datatype Phase = Selecting | CleaningUp | Closed

  /** `dispatched` are the messages handed to the router's handlers other than Bind's, `received` the room events
      the translator took, `queued` those it put on the client's send queue. */
  datatype Conn = Conn(
    phase: Phase,
    auth: Option<Auth>,
    reader: Reader,
    translator: Translator,
    dispatched: seq<Message>,
    received: seq<RoomEvent>,
    queued: seq<RoomEvent>)

  const FRESH := Conn(Selecting, None, Waiting, Listening, [], [], [])

  datatype Backend = InMemory | Redis

  datatype Gateway = Gateway(store: T.Trio, backend: Backend, conns: map<ConnId, Conn>)

  datatype Task = Reading | Translating

  /** `sent` tells whether the send queue took the reply; `late` that the validation or bind deadline passed first. */
  datatype Label =
    | Store(op: T.Op, now: nat)
    | Connect(id: ConnId)
    | Answered(id: ConnId, task: Task, fails: bool, now: nat)
    | Frame(id: ConnId, message: Option<Message>, sent: bool)
    | ReaderResumes(id: ConnId, late: bool, sent: bool)
    | PlayerLoaded(id: ConnId, found: bool, sent: bool)
    | HandlerReturns(id: ConnId, sent: bool)
    | EventArrives(id: ConnId, event: RoomEvent)
    | TranslatorResumes(id: ConnId, late: bool, sent: bool)
    | ReaderReturns(id: ConnId)
    | TranslatorReturns(id: ConnId)
    | Selected(id: ConnId)
    | CleanedUp(id: ConnId)
    | Abort(id: ConnId)

  // ---- One connection ----

  function Back(sent: bool): Reader {
    if sent then Waiting else Ended
  }

  /** A frame is throttled or undecodable (`None`), or it is put through the authentication gate. */
  function OnFrame(c: Conn, message: Option<Message>, sent: bool): Conn {
    match (message, c.auth) {
      case (None, _) => c.(reader := Ended)
      case (Some(m), Some(auth)) => c.(reader := Validating(m, auth, Pending))
      case (Some(Request(_)), None) => c.(reader := Ended)
      case (Some(Bind(None)), None) => c.(reader := Back(sent))
      case (Some(Bind(Some(token))), None) => c.(reader := Resolving(token, Pending))
    }
  }

  predicate Passes(auth: Auth, answer: Answer) {
    answer == Found(Some(auth.player))
  }

  /** A validated connection refuses a second Bind and stays; any other message goes to its handler. */
  function OnValidated(c: Conn, message: Message, auth: Auth, answer: Answer, late: bool): Conn {
    if late || !Passes(auth, answer) then c.(reader := Ended)
    else if message.Bind? then c.(reader := Waiting)
    else c.(reader := Handling, dispatched := c.dispatched + [message])
  }

  function OnResolved(c: Conn, token: T.Token, answer: Answer, late: bool, sent: bool): Conn {
    if late then c.(reader := Ended)
    else if answer.Found? && answer.player.Some? then c.(reader := Loading(token, answer.player.value))
    else c.(reader := Back(sent))
  }

  function OnLoaded(c: Conn, token: T.Token, player: T.PlayerId, found: bool, sent: bool): Conn {
    if found then c.(auth := Some(Auth(player, token)), reader := Back(sent)) else c.(reader := Back(sent))
  }

  /** An event reaches the translator; without a bound player the validation fails at once. */
  function OnEvent(c: Conn, event: RoomEvent): Conn {
    c.(translator := if c.auth.Some? then Checking(event, c.auth.value, Pending) else Stopped,
       received := c.received + [event])
  }

  function OnChecked(c: Conn, event: RoomEvent, auth: Auth, answer: Answer, late: bool, sent: bool): Conn {
    if late || !Passes(auth, answer) || !sent then c.(translator := Stopped)
    else c.(translator := Listening, queued := c.queued + [event])
  }

  /** What the connection is waiting to hear from the store on behalf of a task. */
  function Asked(c: Conn, task: Task): Option<T.Token> {
    match task
    case Reading =>
      if c.reader.Validating? && c.reader.answer.Pending? then Some(c.reader.auth.token)
      else if c.reader.Resolving? && c.reader.answer.Pending? then Some(c.reader.token)
      else None
    case Translating =>
      if c.translator.Checking? && c.translator.answer.Pending? then Some(c.translator.auth.token) else None
  }

  function Told(c: Conn, task: Task, answer: Answer): Conn
    requires Asked(c, task).Some?
  {
    match task
    case Reading => c.(reader := c.reader.(answer := answer))
    case Translating => c.(translator := c.translator.(answer := answer))
  }

  /** The select of the connection's task is left when either task has ended. */
  predicate MaySelect(c: Conn) {
    c.phase.Selecting? && (c.reader.Ended? || c.translator.Stopped?)
  }

  predicate Ready(c: Conn, l: Label) {
    match l
    case Frame(_, _, _) => c.reader.Waiting?
    case ReaderResumes(_, late, _) =>
      (c.reader.Validating? || c.reader.Resolving?) && (late || !c.reader.answer.Pending?)
    case PlayerLoaded(_, _, _) => c.reader.Loading?
    case HandlerReturns(_, _) => c.reader.Handling?
    case EventArrives(_, _) => c.translator.Listening?
    case TranslatorResumes(_, late, _) => c.translator.Checking? && (late || !c.translator.answer.Pending?)
    case ReaderReturns(_) => !c.reader.Ended?
    case TranslatorReturns(_) => !c.translator.Stopped?
    case Selected(_) => MaySelect(c)
    case CleanedUp(_) => c.phase.CleaningUp?
    case Abort(_) => !c.phase.Closed?
    case Answered(_, task, _, _) => Asked(c, task).Some?
    case _ => false
  }

  /** The connection after a step of its own tasks. The reader may return at any await: because of the peer, a queue that
      failed, a deadline or shutdown; the translator when its queue is closed. Leaving the select drops the reader
      wherever it is; the translator goes on during the clean-up and is aborted after it. An abort ends everything. */
  function Moved(c: Conn, l: Label): Conn
    requires Ready(c, l) && !l.Answered?
  {
    match l
    case Frame(_, message, sent) => OnFrame(c, message, sent)
    case ReaderResumes(_, late, sent) =>
      if c.reader.Validating? then OnValidated(c, c.reader.message, c.reader.auth, c.reader.answer, late)
      else OnResolved(c, c.reader.token, c.reader.answer, late, sent)
    case PlayerLoaded(_, found, sent) => OnLoaded(c, c.reader.token, c.reader.player, found, sent)
    case HandlerReturns(_, sent) => c.(reader := Back(sent))
    case EventArrives(_, event) => OnEvent(c, event)
    case TranslatorResumes(_, late, sent) =>
      OnChecked(c, c.translator.event, c.translator.auth, c.translator.answer, late, sent)
    case ReaderReturns(_) => c.(reader := Ended)
    case TranslatorReturns(_) => c.(translator := Stopped)
    case Selected(_) => c.(phase := CleaningUp, reader := Ended)
    case CleanedUp(_) => c.(phase := Closed, translator := Stopped)
    case Abort(_) => c.(phase := Closed, reader := Ended, translator := Stopped)
  }

  // ---- The gateway ----

  function Lookup(g: Gateway, token: T.Token, fails: bool, now: nat): Answer {
    if fails then StoreError
    else if g.backend.InMemory? then Found(T.MemoryResolve(g.store.memory, token, now))
    else match T.RedisResolve(g.store.db, token, now)
      case Ok(player) => Found(player)
      case Err(_) => StoreError
  }

  predicate Enabled(g: Gateway, l: Label) {
    match l
    case Store(op, now) => T.Possible(g.store, op, now)
    case Connect(id) => id !in g.conns
    case Answered(id, _, _, now) => id in g.conns && Ready(g.conns[id], l) && T.Possible(g.store, T.Tick, now)
    case _ => l.id in g.conns && Ready(g.conns[l.id], l)
  }

  function Step(g: Gateway, l: Label): Gateway
    requires Enabled(g, l)
  {
    match l
    case Store(op, now) => g.(store := T.Do(g.store, op, now))
    case Connect(id) => g.(conns := g.conns[id := FRESH])
    case Answered(id, task, fails, now) =>
      var c := g.conns[id];
      g.(store := T.Do(g.store, T.Tick, now),
         conns := g.conns[id := Told(c, task, Lookup(g, Asked(c, task).value, fails, now))])
    case _ => g.(conns := g.conns[l.id := Moved(g.conns[l.id], l)])
  }

  ghost predicate IsRun(states: seq<Gateway>, labels: seq<Label>) {
    && |states| == |labels| + 1
    && states[0].store == T.NOTHING && states[0].conns == map[]
    && forall i {:trigger labels[i]} :: 0 <= i < |labels| ==> Enabled(states[i], labels[i]) && states[i + 1] == Step(states[i], labels[i])
  }

  // ---- What every step keeps ----

  /** The room events queued are those received, in order, up to the one being checked or refused. */
  predicate InOrder(c: Conn) {
    match c.translator
    case Listening => c.queued == c.received
    case Checking(event, _, _) => c.received == c.queued + [event]
    case Stopped => c.queued <= c.received
  }

  /** A validation in flight is about the connection's own player and token, binding comes first, and the tasks
      end with the connection. */
  predicate ConnOk(c: Conn) {
    && (!c.phase.Selecting? ==> c.reader.Ended?)
    && (c.phase.Closed? ==> c.translator.Stopped?)
    && InOrder(c)
    && (c.reader.Validating? ==> c.auth == Some(c.reader.auth))
    && (c.reader.Resolving? || c.reader.Loading? ==> c.auth.None?)
    && (c.translator.Checking? ==> c.auth == Some(c.translator.auth))
  }

  ghost predicate GatewayOk(g: Gateway) {
    T.TrioOk(g.store) && forall id :: id in g.conns ==> ConnOk(g.conns[id])
  }

  lemma MovedOk(c: Conn, l: Label)
    requires ConnOk(c) && Ready(c, l) && !l.Answered?
    ensures ConnOk(Moved(c, l))
  {
  }

  lemma StepOk(g: Gateway, l: Label)
    requires GatewayOk(g) && Enabled(g, l)
    ensures GatewayOk(Step(g, l))
  {
    if l.Store? {
      T.StepOk(g.store, l.op, l.now);
    } else if l.Answered? {
      T.StepOk(g.store, T.Tick, l.now);
    } else if !l.Connect? {
      MovedOk(g.conns[l.id], l);
    }
  }

  lemma {:induction false} RunOk(states: seq<Gateway>, labels: seq<Label>, n: nat)
    requires IsRun(states, labels) && n < |states|
    ensures GatewayOk(states[n])
  {
    if n > 0 {
      RunOk(states, labels, n - 1);
      StepOk(states[n - 1], labels[n - 1]);
    }
  }

  // ---- The bound player never changes ----

  lemma AuthStays(g: Gateway, l: Label, id: ConnId)
    requires GatewayOk(g) && Enabled(g, l) && id in g.conns
    ensures id in Step(g, l).conns
    ensures g.conns[id].auth.Some? ==> Step(g, l).conns[id].auth == g.conns[id].auth
  {
  }

  /** Once a connection is bound, it is bound to that player and that token for the rest of the run. */
  lemma {:induction false} BoundPlayerNeverChanges(states: seq<Gateway>, labels: seq<Label>, i: nat, n: nat, id: ConnId)
    requires IsRun(states, labels) && i <= n < |states|
    requires id in states[i].conns
    ensures id in states[n].conns
    ensures states[i].conns[id].auth.Some? ==> states[n].conns[id].auth == states[i].conns[id].auth
    decreases n
  {
    if i < n {
      BoundPlayerNeverChanges(states, labels, i, n - 1, id);
      RunOk(states, labels, n - 1);
      AuthStays(states[n - 1], labels[n - 1], id);
    }
  }

  // ---- Every act follows its own validation ----

  datatype Check = Check(auth: Auth, answer: Answer)

  /** The validation a task has in flight. */
  function InFlight(c: Conn, task: Task): Option<Check> {
    match task
    case Reading => if c.reader.Validating? then Some(Check(c.reader.auth, c.reader.answer)) else None
    case Translating => if c.translator.Checking? then Some(Check(c.translator.auth, c.translator.answer)) else None
  }

  /** How many messages a task has let through. */
  function Acts(c: Conn, task: Task): nat {
    match task
    case Reading => |c.dispatched|
    case Translating => |c.queued|
  }

  predicate IsAnswer(l: Label, id: ConnId, task: Task) {
    l.Answered? && l.id == id && l.task == task
  }

  /** In step `j` the store told this task of the connection that its own token is its player's current, unexpired
      one, and up to step `i` the task neither acted nor asked again. */
  ghost predicate ValidatedAt(states: seq<Gateway>, labels: seq<Label>, j: nat, i: nat, id: ConnId, task: Task)
    requires |states| == |labels| + 1 && i < |states|
  {
    && j < i && IsAnswer(labels[j], id, task)
    && id in states[j].conns && id in states[i].conns
    && states[i].conns[id].auth.Some? && states[j].conns[id].auth == states[i].conns[id].auth
    && (var auth := states[i].conns[id].auth.value;
        T.Resolves(states[j].store.sessions, auth.token, auth.player, labels[j].now))
    && Acts(states[j].conns[id], task) == Acts(states[i].conns[id], task)
    && forall k :: j < k < i ==> !IsAnswer(labels[k], id, task)
  }

  predicate Validated(c: Conn, task: Task) {
    InFlight(c, task).Some? && Passes(InFlight(c, task).value.auth, InFlight(c, task).value.answer)
  }

  /** The only step that makes a validation succeed is the store's answer. */
  lemma ValidationStarts(g: Gateway, l: Label, id: ConnId, task: Task)
    requires GatewayOk(g) && Enabled(g, l)
    requires id in Step(g, l).conns && Validated(Step(g, l).conns[id], task)
    requires id !in g.conns || !Validated(g.conns[id], task)
    ensures IsAnswer(l, id, task) && id in g.conns
    ensures Step(g, l).conns[id].auth == g.conns[id].auth == Some(InFlight(Step(g, l).conns[id], task).value.auth)
    ensures var auth := InFlight(Step(g, l).conns[id], task).value.auth;
            T.Resolves(g.store.sessions, auth.token, auth.player, l.now)
    ensures Acts(Step(g, l).conns[id], task) == Acts(g.conns[id], task)
  {
    if l.Store? || l.id != id {
      assert false;
    }
    assert id in g.conns;
    var auth := InFlight(Step(g, l).conns[id], task).value.auth;
    assert IsAnswer(l, id, task);
    assert Asked(g.conns[id], task) == Some(auth.token);
    T.AnswersAgree(g.store, auth.token, auth.player, l.now);
  }

  /** While a validation stands, its task does nothing. */
  lemma ValidationStands(g: Gateway, l: Label, id: ConnId, task: Task)
    requires GatewayOk(g) && Enabled(g, l) && id in g.conns && Validated(g.conns[id], task)
    requires id in Step(g, l).conns && Validated(Step(g, l).conns[id], task)
    ensures Step(g, l).conns[id].auth == g.conns[id].auth && !IsAnswer(l, id, task)
    ensures Acts(Step(g, l).conns[id], task) == Acts(g.conns[id], task)
  {
  }

  lemma ValidatedJustNow(states: seq<Gateway>, labels: seq<Label>, i: nat, id: ConnId, task: Task)
    requires IsRun(states, labels) && i < |labels| && GatewayOk(states[i])
    requires id in states[i + 1].conns && Validated(states[i + 1].conns[id], task)
    requires id !in states[i].conns || !Validated(states[i].conns[id], task)
    ensures ValidatedAt(states, labels, i, i + 1, id, task)
  {
    assert states[i + 1] == Step(states[i], labels[i]);
    ValidationStarts(states[i], labels[i], id, task);
  }

  lemma ValidatedStill(states: seq<Gateway>, labels: seq<Label>, j: nat, i: nat, id: ConnId, task: Task)
    requires IsRun(states, labels) && i < |labels| && ValidatedAt(states, labels, j, i, id, task)
    requires id in states[i + 1].conns && states[i + 1].conns[id].auth == states[i].conns[id].auth
    requires Acts(states[i + 1].conns[id], task) == Acts(states[i].conns[id], task) && !IsAnswer(labels[i], id, task)
    ensures ValidatedAt(states, labels, j, i + 1, id, task)
  {
  }

  lemma ValidatedGoesOn(states: seq<Gateway>, labels: seq<Label>, j: nat, i: nat, id: ConnId, task: Task)
    requires IsRun(states, labels) && i < |labels| && GatewayOk(states[i]) && ValidatedAt(states, labels, j, i, id, task)
    requires Validated(states[i].conns[id], task)
    requires id in states[i + 1].conns && Validated(states[i + 1].conns[id], task)
    ensures ValidatedAt(states, labels, j, i + 1, id, task)
  {
    assert states[i + 1] == Step(states[i], labels[i]);
    ValidationStands(states[i], labels[i], id, task);
    ValidatedStill(states, labels, j, i, id, task);
  }

  lemma {:induction false} ValidatedWhen(
    states: seq<Gateway>, labels: seq<Label>, i: nat, id: ConnId, task: Task) returns (j: nat)
    requires IsRun(states, labels) && i < |states|
    requires id in states[i].conns && Validated(states[i].conns[id], task)
    ensures ValidatedAt(states, labels, j, i, id, task)
  {
    assert i > 0;
    var before := states[i - 1];
    RunOk(states, labels, i - 1);
    if id in before.conns && Validated(before.conns[id], task) {
      j := ValidatedWhen(states, labels, i - 1, id, task);
      ValidatedGoesOn(states, labels, j, i - 1, id, task);
    } else {
      ValidatedJustNow(states, labels, i - 1, id, task);
      j := i - 1;
    }
  }

  /** A task acts only on a validation that stands. */
  lemma ActNeedsValidation(g: Gateway, l: Label, id: ConnId, task: Task)
    requires GatewayOk(g) && Enabled(g, l) && id in g.conns
    requires id in Step(g, l).conns && Acts(Step(g, l).conns[id], task) != Acts(g.conns[id], task)
    ensures Validated(g.conns[id], task) && !Validated(Step(g, l).conns[id], task)
    ensures Acts(Step(g, l).conns[id], task) == Acts(g.conns[id], task) + 1
  {
  }

  /** In every run, each message dispatched and each room event queued follows a validation of its own, at which
      the connection's own token was its player's current unexpired token. */
  lemma EveryActIsValidated(states: seq<Gateway>, labels: seq<Label>, i: nat, id: ConnId, task: Task)
    requires IsRun(states, labels) && i < |labels| && id in states[i].conns && id in states[i + 1].conns
    requires Acts(states[i + 1].conns[id], task) != Acts(states[i].conns[id], task)
    ensures exists j :: ValidatedAt(states, labels, j, i, id, task)
    ensures Acts(states[i + 1].conns[id], task) == Acts(states[i].conns[id], task) + 1
  {
    RunOk(states, labels, i);
    ActNeedsValidation(states[i], labels[i], id, task);
    var j := ValidatedWhen(states, labels, i, id, task);
  }

  // ---- A failed validation ends its task for good ----

  predicate Over(c: Conn, task: Task) {
    match task
    case Reading => c.reader.Ended?
    case Translating => c.translator.Stopped?
  }

  /** The step in which a task hears of its validation, or gives up waiting. */
  predicate Hears(l: Label, id: ConnId, task: Task) {
    match task
    case Reading => l.ReaderResumes? && l.id == id
    case Translating => l.TranslatorResumes? && l.id == id
  }

  /** A validation that the store refuses, fails to answer, or answers too late ends the task; one that succeeds
      lets a message through unless it is a second Bind or the send queue is gone. */
  lemma ValidationDecides(g: Gateway, l: Label, id: ConnId, task: Task)
    requires GatewayOk(g) && Enabled(g, l) && id in g.conns && Hears(l, id, task) && InFlight(g.conns[id], task).Some?
    ensures var c, c' := g.conns[id], Step(g, l).conns[id];
            && (l.late || !Validated(c, task) ==> Over(c', task) && Acts(c', task) == Acts(c, task))
            && (Acts(c', task) == Acts(c, task) + 1 <==>
                !l.late && Validated(c, task) && (if task.Reading? then !c.reader.message.Bind? else l.sent))
  {
  }

  lemma OverStays(g: Gateway, l: Label, id: ConnId, task: Task)
    requires Enabled(g, l) && id in g.conns && Over(g.conns[id], task)
    ensures id in Step(g, l).conns && Over(Step(g, l).conns[id], task)
    ensures Acts(Step(g, l).conns[id], task) == Acts(g.conns[id], task)
  {
  }

  lemma {:induction false} OverStaysOver(states: seq<Gateway>, labels: seq<Label>, i: nat, n: nat, id: ConnId, task: Task)
    requires IsRun(states, labels) && i <= n < |states|
    requires id in states[i].conns && Over(states[i].conns[id], task)
    ensures id in states[n].conns && Over(states[n].conns[id], task)
    ensures Acts(states[n].conns[id], task) == Acts(states[i].conns[id], task)
    decreases n
  {
    if i < n {
      OverStaysOver(states, labels, i, n - 1, id, task);
      OverStays(states[n - 1], labels[n - 1], id, task);
    }
  }

  /** In every run: after a validation that failed in any way, that task never lets anything through again. */
  lemma FailureIsFinal(states: seq<Gateway>, labels: seq<Label>, i: nat, n: nat, id: ConnId, task: Task)
    requires IsRun(states, labels) && i < n < |states| && id in states[i].conns
    requires Hears(labels[i], id, task) && InFlight(states[i].conns[id], task).Some?
    requires labels[i].late || !Validated(states[i].conns[id], task)
    ensures id in states[n].conns && Over(states[n].conns[id], task)
    ensures Acts(states[n].conns[id], task) == Acts(states[i].conns[id], task)
  {
    RunOk(states, labels, i);
    ValidationDecides(states[i], labels[i], id, task);
    OverStaysOver(states, labels, i + 1, n, id, task);
  }

  // ---- A task that has ended ends the connection ----

  lemma PhaseGoesOn(g: Gateway, l: Label, id: ConnId)
    requires GatewayOk(g) && Enabled(g, l) && id in g.conns
    ensures id in Step(g, l).conns
    ensures var c, c' := g.conns[id], Step(g, l).conns[id];
            && (!c.phase.Selecting? ==> !c'.phase.Selecting? && c'.dispatched == c.dispatched)
            && (c.phase.Closed? ==> c'.phase.Closed? && c'.queued == c.queued)
            && (MaySelect(c) ==> MaySelect(c') || !c'.phase.Selecting?)
  {
  }

  /** In every run: once either task has ended, be it by a failed validation, the connection can leave its select, and
      this stays so until it does, or is aborted. */
  lemma {:induction false} SelectStaysReady(states: seq<Gateway>, labels: seq<Label>, i: nat, n: nat, id: ConnId)
    requires IsRun(states, labels) && i <= n < |states| && id in states[i].conns && MaySelect(states[i].conns[id])
    ensures id in states[n].conns
    ensures states[n].conns[id].phase.Selecting? ==> Enabled(states[n], Selected(id))
    decreases n
  {
    if i < n {
      SelectStaysReady(states, labels, i, n - 1, id);
      BeyondSelect(states, labels, n - 1, n, id);
      RunOk(states, labels, n - 1);
      PhaseGoesOn(states[n - 1], labels[n - 1], id);
    }
  }

  /** In every run: after the connection has left its select, no message is dispatched any more; after its clean-up,
      when the translator has been aborted, no room event is queued any more either. */
  lemma {:induction false} BeyondSelect(states: seq<Gateway>, labels: seq<Label>, i: nat, n: nat, id: ConnId)
    requires IsRun(states, labels) && i <= n < |states| && id in states[i].conns
    ensures id in states[n].conns
    ensures !states[i].conns[id].phase.Selecting? ==>
      !states[n].conns[id].phase.Selecting? && states[n].conns[id].dispatched == states[i].conns[id].dispatched
    ensures states[i].conns[id].phase.Closed? ==>
      states[n].conns[id].phase.Closed? && states[n].conns[id].queued == states[i].conns[id].queued
    decreases n
  {
    if i < n {
      BeyondSelect(states, labels, i, n - 1, id);
      RunOk(states, labels, n - 1);
      PhaseGoesOn(states[n - 1], labels[n - 1], id);
    }
  }

  /** In every run, a validation that fails in either task, by refusal, store error or timeout, ends the connection: that
      task lets nothing through any more; the connection can leave its select until it does; from then on
      nothing is dispatched, and after the clean-up nothing is queued. */
  lemma FailureEndsTheConnection(states: seq<Gateway>, labels: seq<Label>, i: nat, k: nat, n: nat, id: ConnId, task: Task)
    requires IsRun(states, labels) && i < k <= n < |states| && id in states[i].conns
    requires Hears(labels[i], id, task) && InFlight(states[i].conns[id], task).Some?
    requires labels[i].late || !Validated(states[i].conns[id], task)
    ensures id in states[k].conns && id in states[n].conns
    ensures Over(states[n].conns[id], task) && Acts(states[n].conns[id], task) == Acts(states[i].conns[id], task)
    ensures states[n].conns[id].phase.Selecting? ==> Enabled(states[n], Selected(id))
    ensures !states[k].conns[id].phase.Selecting? ==> states[n].conns[id].dispatched == states[k].conns[id].dispatched
    ensures states[k].conns[id].phase.Closed? ==> states[n].conns[id].queued == states[k].conns[id].queued
  {
    RunOk(states, labels, i);
    RunOk(states, labels, i + 1);
    FailureIsFinal(states, labels, i, n, id, task);
    FailureIsFinal(states, labels, i, k, id, task);
    FailureIsFinal(states, labels, i, i + 1, id, task);
    FailureFreesTheSelect(states[i], labels[i], id, task);
    AfterStep(states, labels, i);
    if MaySelect(states[i + 1].conns[id]) {
      SelectStaysReady(states, labels, i + 1, n, id);
    } else {
      BeyondSelect(states, labels, i + 1, n, id);
    }
    BeyondSelect(states, labels, k, n, id);
  }

  lemma AfterStep(states: seq<Gateway>, labels: seq<Label>, i: nat)
    requires IsRun(states, labels) && i < |labels|
    ensures Enabled(states[i], labels[i]) && states[i + 1] == Step(states[i], labels[i])
  {
  }

  lemma FailureFreesTheSelect(g: Gateway, l: Label, id: ConnId, task: Task)
    requires GatewayOk(g) && Enabled(g, l) && id in g.conns && Hears(l, id, task) && InFlight(g.conns[id], task).Some?
    requires l.late || !Validated(g.conns[id], task)
    ensures MaySelect(Step(g, l).conns[id]) || !Step(g, l).conns[id].phase.Selecting?
  {
  }

  // ---- Binding ----

  /** Some earlier answer to this connection found `token` to be `player`'s current unexpired token. */
  ghost predicate ShownBefore(
    states: seq<Gateway>, labels: seq<Label>, i: nat, id: ConnId, token: T.Token, player: T.PlayerId)
    requires |states| == |labels| + 1 && i < |states|
  {
    exists j :: 0 <= j < i && IsAnswer(labels[j], id, Reading)
                && T.Resolves(states[j].store.sessions, token, player, labels[j].now)
  }

  /** The player and token a connection is bound to, or about to be bound to. */
  function Claimed(c: Conn): Option<Auth> {
    if c.auth.Some? then c.auth
    else if c.reader.Loading? then Some(Auth(c.reader.player, c.reader.token))
    else if c.reader.Resolving? && c.reader.answer.Found? && c.reader.answer.player.Some?
    then Some(Auth(c.reader.answer.player.value, c.reader.token))
    else None
  }

  lemma ClaimStarts(g: Gateway, l: Label, id: ConnId)
    requires GatewayOk(g) && Enabled(g, l) && id in Step(g, l).conns && Claimed(Step(g, l).conns[id]).Some?
    requires id !in g.conns || Claimed(g.conns[id]) != Claimed(Step(g, l).conns[id])
    ensures IsAnswer(l, id, Reading)
    ensures var auth := Claimed(Step(g, l).conns[id]).value;
            T.Resolves(g.store.sessions, auth.token, auth.player, l.now)
  {
    if l.Store? || l.id != id {
      assert false;
    }
    assert id in g.conns;
    assert IsAnswer(l, id, Reading);
    var auth := Claimed(Step(g, l).conns[id]).value;
    T.AnswersAgree(g.store, auth.token, auth.player, l.now);
  }

  /** In every run: a connection is bound only to a player whose current unexpired token it presented. */
  lemma {:induction false} BoundByOwnToken(states: seq<Gateway>, labels: seq<Label>, i: nat, id: ConnId)
    requires IsRun(states, labels) && i < |states| && id in states[i].conns && Claimed(states[i].conns[id]).Some?
    ensures var auth := Claimed(states[i].conns[id]).value;
            ShownBefore(states, labels, i, id, auth.token, auth.player)
  {
    assert i > 0;
    RunOk(states, labels, i - 1);
    var before := states[i - 1];
    if id in before.conns && Claimed(before.conns[id]) == Claimed(states[i].conns[id]) {
      BoundByOwnToken(states, labels, i - 1, id);
    } else {
      ClaimStarts(before, labels[i - 1], id);
    }
  }

  // ---- Whoever presents a current token gets in ----

  /** What the authentication gate does with a frame: throttled or undecodable ones end the reader; a bound connection
      validates its session first; an unbound one may only bind. */
  lemma GateDecides(g: Gateway, l: Label)
    requires Enabled(g, l) && l.Frame?
    ensures var c, c' := g.conns[l.id], Step(g, l).conns[l.id];
            && c' == c.(reader := c'.reader)
            && (l.message.None? ==> c'.reader == Ended)
            && (l.message.Some? && c.auth.Some? ==> c'.reader == Validating(l.message.value, c.auth.value, Pending))
            && (l.message.Some? && c.auth.None? && l.message.value.Request? ==> c'.reader == Ended)
            && (c.auth.None? && l.message == Some(Bind(None)) ==> c'.reader == if l.sent then Waiting else Ended)
            && (c.auth.None? && l.message.Some? && l.message.value.Bind? && l.message.value.token.Some? ==>
                  c'.reader == Resolving(l.message.value.token.value, Pending))
  {
  }

  /** The player of the token found, the connection is bound to that player and that token; not found, it is not bound. */
  lemma LoadingBinds(g: Gateway, l: Label)
    requires GatewayOk(g) && Enabled(g, l) && l.PlayerLoaded?
    ensures var c, c' := g.conns[l.id], Step(g, l).conns[l.id];
            && c'.auth == (if l.found then Some(Auth(c.reader.player, c.reader.token)) else None)
            && c'.reader == if l.sent then Waiting else Ended
  {
  }

  /** The store's answer is what the token stands for at that instant. */
  lemma AnswerTellsTheOwner(g: Gateway, l: Label, token: T.Token, player: T.PlayerId)
    requires GatewayOk(g) && Enabled(g, l) && l.Answered? && !l.fails && Asked(g.conns[l.id], l.task) == Some(token)
    requires T.Resolves(g.store.sessions, token, player, l.now)
    ensures Step(g, l).conns[l.id] == Told(g.conns[l.id], l.task, Found(Some(player)))
  {
    T.AnswersAgree(g.store, token, player, l.now);
  }

  /** The step belongs to one of the tasks of the connection. */
  predicate Concerns(l: Label, id: ConnId, task: Task) {
    !l.Store? && l.id == id &&
    match task
    case Reading =>
      || l.Frame? || l.ReaderResumes? || l.PlayerLoaded? || l.HandlerReturns? || l.ReaderReturns? || l.Selected? || l.Abort?
      || (l.Answered? && l.task == Reading)
    case Translating =>
      || l.EventArrives? || l.TranslatorResumes? || l.TranslatorReturns? || l.CleanedUp? || l.Abort?
      || (l.Answered? && l.task == Translating)
  }

  /** What belongs to a task: where it is and what it has let through; the binding belongs to the reader. */
  ghost predicate SameTask(c: Conn, c': Conn, task: Task) {
    match task
    case Reading => c'.reader == c.reader && c'.auth == c.auth && c'.dispatched == c.dispatched
    case Translating => c'.translator == c.translator && c'.queued == c.queued
  }

  lemma RestingStep(g: Gateway, l: Label, id: ConnId, task: Task)
    requires GatewayOk(g) && Enabled(g, l) && id in g.conns && !Concerns(l, id, task)
    ensures id in Step(g, l).conns && SameTask(g.conns[id], Step(g, l).conns[id], task)
  {
  }

  ghost predicate Rests(labels: seq<Label>, i: nat, n: nat, id: ConnId, task: Task)
    requires n <= |labels|
  {
    forall k :: i <= k < n ==> !Concerns(labels[k], id, task)
  }

  /** Whatever else goes on, a task stays where it is until one of its own steps. */
  lemma {:induction false} TaskRests(states: seq<Gateway>, labels: seq<Label>, i: nat, n: nat, id: ConnId, task: Task)
    requires IsRun(states, labels) && i <= n < |states| && id in states[i].conns && Rests(labels, i, n, id, task)
    ensures id in states[n].conns && SameTask(states[i].conns[id], states[n].conns[id], task)
    decreases n
  {
    if i < n {
      TaskRests(states, labels, i, n - 1, id, task);
      RunOk(states, labels, n - 1);
      RestingStep(states[n - 1], labels[n - 1], id, task);
    }
  }

  /** In every run, however other steps interleave: an unbound connection presents a token; at the instant the store answers it
      is a player's current unexpired token; the answer is not late and the player is found. Then the connection is bound
      to exactly that player and that token. */
  lemma CurrentTokenBinds(
    states: seq<Gateway>, labels: seq<Label>, a: nat, b: nat, c: nat, d: nat, id: ConnId, token: T.Token, player: T.PlayerId)
    requires IsRun(states, labels) && a < b < c < d < |labels| && id in states[a].conns && states[a].conns[id].auth.None?
    requires labels[a].Frame? && labels[a].id == id && labels[a].message == Some(Bind(Some(token)))
    requires labels[b].Answered? && labels[b].id == id && labels[b].task == Reading && !labels[b].fails
    requires labels[c].ReaderResumes? && labels[c].id == id && !labels[c].late
    requires labels[d].PlayerLoaded? && labels[d].id == id && labels[d].found
    requires Rests(labels, a + 1, b, id, Reading) && Rests(labels, b + 1, c, id, Reading) && Rests(labels, c + 1, d, id, Reading)
    requires T.Resolves(states[b].store.sessions, token, player, labels[b].now)
    ensures id in states[d + 1].conns && states[d + 1].conns[id].auth == Some(Auth(player, token))
    ensures states[d + 1].conns[id].reader == if labels[d].sent then Waiting else Ended
  {
    BindIsAnswered(states, labels, a, b, id, token, player);
    TaskRests(states, labels, b + 1, c, id, Reading);
    AfterStep(states, labels, c);
    TaskRests(states, labels, c + 1, d, id, Reading);
    AfterStep(states, labels, d);
    RunOk(states, labels, d);
    LoadingBinds(states[d], labels[d]);
  }

  lemma BindIsAnswered(
    states: seq<Gateway>, labels: seq<Label>, a: nat, b: nat, id: ConnId, token: T.Token, player: T.PlayerId)
    requires IsRun(states, labels) && a < b < |labels| && id in states[a].conns && states[a].conns[id].auth.None?
    requires labels[a].Frame? && labels[a].id == id && labels[a].message == Some(Bind(Some(token)))
    requires labels[b].Answered? && labels[b].id == id && labels[b].task == Reading && !labels[b].fails
    requires Rests(labels, a + 1, b, id, Reading) && T.Resolves(states[b].store.sessions, token, player, labels[b].now)
    ensures id in states[b + 1].conns && states[b + 1].conns[id].auth.None?
    ensures states[b + 1].conns[id].reader == Resolving(token, Found(Some(player)))
  {
    AfterStep(states, labels, a);
    GateDecides(states[a], labels[a]);
    TaskRests(states, labels, a + 1, b, id, Reading);
    AfterStep(states, labels, b);
    RunOk(states, labels, b);
    AnswerTellsTheOwner(states[b], labels[b], token, player);
  }

  /** In every run: a bound connection sends a request; at the instant the store answers, its own token is its player's current
      unexpired one; the answer is not late. Then exactly that request is dispatched. */
  lemma CurrentSessionIsServed(
    states: seq<Gateway>, labels: seq<Label>, a: nat, b: nat, c: nat, id: ConnId, auth: Auth, payload: nat)
    requires IsRun(states, labels) && a < b < c < |labels| && id in states[a].conns && states[a].conns[id].auth == Some(auth)
    requires labels[a].Frame? && labels[a].id == id && labels[a].message == Some(Request(payload))
    requires labels[b].Answered? && labels[b].id == id && labels[b].task == Reading && !labels[b].fails
    requires labels[c].ReaderResumes? && labels[c].id == id && !labels[c].late
    requires Rests(labels, a + 1, b, id, Reading) && Rests(labels, b + 1, c, id, Reading)
    requires T.Resolves(states[b].store.sessions, auth.token, auth.player, labels[b].now)
    ensures id in states[c + 1].conns && states[c + 1].conns[id].reader == Handling
    ensures states[c + 1].conns[id].dispatched == states[a].conns[id].dispatched + [Request(payload)]
  {
    AfterStep(states, labels, a);
    GateDecides(states[a], labels[a]);
    TaskRests(states, labels, a + 1, b, id, Reading);
    AfterStep(states, labels, b);
    RunOk(states, labels, b);
    AnswerTellsTheOwner(states[b], labels[b], auth.token, auth.player);
    TaskRests(states, labels, b + 1, c, id, Reading);
    AfterStep(states, labels, c);
  }

  /** In every run: a room event reaches a bound connection; at the instant the store answers, its own token is its player's
      current unexpired one; the answer is not late and the send queue takes the event. Then exactly that event is queued. */
  lemma CurrentSessionIsTold(
    states: seq<Gateway>, labels: seq<Label>, a: nat, b: nat, c: nat, id: ConnId, auth: Auth, event: RoomEvent)
    requires IsRun(states, labels) && a < b < c < |labels| && id in states[a].conns && states[a].conns[id].auth == Some(auth)
    requires labels[a] == EventArrives(id, event)
    requires labels[b].Answered? && labels[b].id == id && labels[b].task == Translating && !labels[b].fails
    requires labels[c] == TranslatorResumes(id, false, true)
    requires Rests(labels, a + 1, b, id, Translating) && Rests(labels, b + 1, c, id, Translating)
    requires T.Resolves(states[b].store.sessions, auth.token, auth.player, labels[b].now)
    ensures id in states[c + 1].conns && states[c + 1].conns[id].translator == Listening
    ensures states[c + 1].conns[id].queued == states[a].conns[id].queued + [event]
  {
    AfterStep(states, labels, a);
    TaskRests(states, labels, a + 1, b, id, Translating);
    AfterStep(states, labels, b);
    RunOk(states, labels, b);
    AnswerTellsTheOwner(states[b], labels[b], auth.token, auth.player);
    TaskRests(states, labels, b + 1, c, id, Translating);
    AfterStep(states, labels, c);
  }

  // ---- Revocation takes effect ----

  /** One act is still allowed by a validation that was answered already. */
  function Credit(c: Conn, task: Task): nat {
    if Validated(c, task) then 1 else 0
  }

  lemma DeadTokenGetsNoCredit(g: Gateway, l: Label, id: ConnId, task: Task)
    requires GatewayOk(g) && Enabled(g, l) && id in g.conns
    requires g.conns[id].auth.Some? && T.Dead(g.store, g.conns[id].auth.value.token)
    ensures id in Step(g, l).conns && Step(g, l).conns[id].auth == g.conns[id].auth
    ensures T.Dead(Step(g, l).store, g.conns[id].auth.value.token)
    ensures Acts(Step(g, l).conns[id], task) + Credit(Step(g, l).conns[id], task)
         <= Acts(g.conns[id], task) + Credit(g.conns[id], task)
  {
    var token := g.conns[id].auth.value.token;
    if l.Store? {
      T.DeadStaysDeadOnce(g.store, l.op, l.now, token);
    } else if l.Answered? {
      T.DeadStaysDeadOnce(g.store, T.Tick, l.now, token);
    }
    AuthStays(g, l, id);
    if Acts(Step(g, l).conns[id], task) != Acts(g.conns[id], task) {
      ActNeedsValidation(g, l, id, task);
    } else if Validated(Step(g, l).conns[id], task) && !Validated(g.conns[id], task) {
      ValidationStarts(g, l, id, task);
      var auth := g.conns[id].auth.value;
      assert T.Resolves(g.store.sessions, auth.token, auth.player, g.store.clock);
    }
  }

  /** In every run: from the moment its token has expired, been revoked or been replaced, a connection lets through at
      most one more message and one more room event, and only if that one's validation was answered before. */
  lemma {:induction false} RevocationTakesEffect(
    states: seq<Gateway>, labels: seq<Label>, r: nat, n: nat, id: ConnId, task: Task)
    requires IsRun(states, labels) && r <= n < |states|
    requires id in states[r].conns && states[r].conns[id].auth.Some?
    requires T.Dead(states[r].store, states[r].conns[id].auth.value.token)
    ensures id in states[n].conns && states[n].conns[id].auth == states[r].conns[id].auth
    ensures T.Dead(states[n].store, states[r].conns[id].auth.value.token)
    ensures Acts(states[n].conns[id], task) + Credit(states[n].conns[id], task)
         <= Acts(states[r].conns[id], task) + Credit(states[r].conns[id], task)
    decreases n
  {
    if r < n {
      RevocationTakesEffect(states, labels, r, n - 1, id, task);
      RunOk(states, labels, n - 1);
      DeadTokenGetsNoCredit(states[n - 1], labels[n - 1], id, task);
    }
  }
}
