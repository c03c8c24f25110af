/** The outbound side of a connection: senders share a bounded queue and a disconnect signal that is never
    lowered; one write task encodes the queued frames onto the socket; the peer parses the bytes. */
module Outbound {
  import opened Prelude
  import opened FrameCodec

  datatype SendError = QueueFull | Closed

  datatype Queue = Queue(capacity: nat, frames: seq<Frame>, receiverOpen: bool, disconnected: bool)

  predicate Shut(q: Queue) {
    !q.receiverOpen || q.disconnected
  }

  /** Non-blocking: a full queue is reported once and disconnects for good. */
  function TrySend(q: Queue, frame: Frame): (Queue, Result<(), SendError>) {
    if Shut(q) then (q, Err(Closed))
    else if |q.frames| < q.capacity then (q.(frames := q.frames + [frame]), Ok(()))
    else (q.(disconnected := true), Err(QueueFull))
  }

  class OutboundSender {
    const capacity: nat
    var frames: seq<Frame>
    var receiverOpen: bool
    var disconnected: bool

    ghost function Value(): Queue
      reads this
    {
      Queue(capacity, frames, receiverOpen, disconnected)
    }

    constructor (capacity: nat)
      ensures Value() == Queue(capacity, [], true, false)
    {
      this.capacity := capacity;
      frames, receiverOpen, disconnected := [], true, false;
    }

    method IsClosed() returns (closed: bool)
      ensures closed == Shut(Value())
    {
      closed := !receiverOpen || disconnected;
    }

    method Disconnect()
      modifies this`disconnected
      ensures Value() == old(Value()).(disconnected := true)
    {
      disconnected := true;
    }

    method TrySendFrame(frame: Frame) returns (result: Result<(), SendError>)
      modifies this
      ensures (Value(), result) == TrySend(old(Value()), frame)
      ensures result.Ok? <==> old(!Shut(Value()) && |frames| < capacity)
      ensures old(|frames| <= capacity) ==> |frames| <= capacity
      ensures result.Err? ==> Shut(Value()) && frames == old(frames)
      ensures result.Ok? ==> frames == old(frames) + [frame] && !disconnected
      ensures result == Err(Closed) <==> old(!receiverOpen || disconnected)
      ensures result == Err(QueueFull) <==> old(receiverOpen && !disconnected && |frames| >= capacity)
      ensures result == Err(QueueFull) ==> disconnected
    {
      var closed := IsClosed();
      if closed {
        return Err(Closed);
      }
      if |frames| < capacity {
        frames := frames + [frame];
        result := Ok(());
      } else {
        result := Err(QueueFull);
        Disconnect();
      }
    }
  }

  // ---- The write task and the wire ----

  type SendId = nat

  datatype Exit = Completed | SawDisconnect | SocketError | DrainTimeout | Killed

  /** The write task before the select has fired, draining after the last sender was dropped, or gone. */
  datatype Mode = Selecting | Draining | Exited(how: Exit)

  /** A send under way: past its check of the signal, waiting for space, or refused and about to raise the signal. */
  datatype Sending = Passed(frame: Frame, blocking: bool) | Parked(frame: Frame) | Failing(error: SendError)

  /** `pending` is what is still to be written of the frame in hand, `wire` what has reached the socket.
      `accepted` and `popped` record every frame that was queued and every frame the task took, `outcomes` what
      each finished send returned. Clones of the sender live on several threads, so sends interleave. */
  datatype Pipe = Pipe(
    max: nat, q: Queue, senders: nat, sends: map<SendId, Sending>, outcomes: map<SendId, Result<(), SendError>>,
    mode: Mode, pending: seq<byte>, wire: seq<byte>, accepted: seq<Frame>, popped: seq<Frame>)

  function NewPipe(capacity: nat, max: nat): Pipe {
    Pipe(max, Queue(capacity, [], true, false), 1, map[], map[], Selecting, [], [], [], [])
  }

  datatype Label =
    | DoCheck(id: SendId, frame: Frame, blocking: bool) | DoEnqueue(id: SendId) | DoRaise(id: SendId)
    | DoRecheck(id: SendId) | DoCancel(id: SendId)
    | DoDisconnect | DoClone | DoDrop
    | DoTake | DoWrite(count: nat) | DoFail | DoNotice | DoDrain | DoTimeout | DoFinish | DoKill

  function Gone(p: Pipe, how: Exit): Pipe {
    p.(mode := Exited(how), q := p.q.(frames := [], receiverOpen := false))
  }

  function Returned(p: Pipe, id: SendId, outcome: Result<(), SendError>): Pipe {
    p.(sends := p.sends - {id}, outcomes := p.outcomes[id := outcome])
  }

  /** The queue's own answer to a send that has passed its check. */
  function Enqueued(p: Pipe, id: SendId, frame: Frame, blocking: bool): Pipe {
    if !p.q.receiverOpen then
      if blocking then Returned(p, id, Err(Closed)) else p.(sends := p.sends[id := Failing(Closed)])
    else if |p.q.frames| < p.q.capacity then
      Returned(p.(q := p.q.(frames := p.q.frames + [frame]), accepted := p.accepted + [frame]), id, Ok(()))
    else p.(sends := p.sends[id := if blocking then Parked(frame) else Failing(QueueFull)])
  }

  function Encoded(frame: Frame, max: nat): seq<byte> {
    match EncodeFrame(frame, max) case Ok(bytes) => bytes case Err(_) => []
  }

  predicate Enabled(p: Pipe, l: Label) {
    match l
    case DoCheck(id, _, _) => p.senders > 0 && id !in p.sends && id !in p.outcomes
    case DoEnqueue(id) => id in p.sends && p.sends[id].Passed?
    case DoRaise(id) => id in p.sends && p.sends[id].Failing?
    case DoRecheck(id) => id in p.sends && p.sends[id].Parked?
    case DoCancel(id) => id in p.sends && p.sends[id].Parked?
    case DoDisconnect => p.senders > 0
    case DoClone => p.senders > 0
    case DoDrop => p.senders > 1 || (p.senders == 1 && p.sends == map[])
    case DoTake => !p.mode.Exited? && p.pending == [] && p.q.frames != []
    case DoWrite(n) => !p.mode.Exited? && 0 < n <= |p.pending|
    case DoFail => !p.mode.Exited?
    case DoNotice => p.mode.Selecting? && p.q.disconnected
    case DoDrain => p.mode.Selecting? && p.senders == 0 && !p.q.disconnected
    case DoTimeout => p.mode.Draining?
    case DoFinish => !p.mode.Exited? && p.pending == [] && p.q.frames == [] && p.senders == 0
    case DoKill => !p.mode.Exited?
  }

  function Step(p: Pipe, l: Label): Pipe
    requires Enabled(p, l)
  {
    match l
    case DoCheck(id, frame, blocking) =>
      if Shut(p.q) then Returned(p, id, Err(Closed)) else p.(sends := p.sends[id := Passed(frame, blocking)])
    case DoEnqueue(id) => Enqueued(p, id, p.sends[id].frame, p.sends[id].blocking)
    case DoRaise(id) => Returned(p.(q := p.q.(disconnected := true)), id, Err(p.sends[id].error))
    case DoRecheck(id) =>
      if Shut(p.q) then Returned(p, id, Err(Closed)) else p.(sends := p.sends[id := Passed(p.sends[id].frame, true)])
    case DoCancel(id) => p.(sends := p.sends - {id})
    case DoDisconnect => p.(q := p.q.(disconnected := true))
    case DoClone => p.(senders := p.senders + 1)
    case DoDrop => p.(senders := p.senders - 1)
    case DoTake =>
      p.(q := p.q.(frames := p.q.frames[1..]), popped := p.popped + [p.q.frames[0]],
         pending := Encoded(p.q.frames[0], p.max))
    case DoWrite(n) => p.(wire := p.wire + p.pending[..n], pending := p.pending[n..])
    case DoFail => Gone(p, SocketError)
    case DoNotice => Gone(p, SawDisconnect)
    case DoDrain => p.(mode := Draining)
    case DoTimeout => Gone(p, DrainTimeout)
    case DoFinish => Gone(p, Completed)
    case DoKill => Gone(p, Killed)
  }

  /** A send that nobody disturbs does what the method does: check, enqueue, and raise the signal if refused. */
  lemma UndisturbedSend(p: Pipe, id: SendId, frame: Frame)
    requires Enabled(p, DoCheck(id, frame, false)) && p.q.receiverOpen
    ensures var p1 := Step(p, DoCheck(id, frame, false));
            if Shut(p.q) then p1.q == TrySend(p.q, frame).0 && p1.outcomes[id] == TrySend(p.q, frame).1
            else
              var p2 := Step(p1, DoEnqueue(id));
              if id in p2.outcomes then p2.q == TrySend(p.q, frame).0 && p2.outcomes[id] == TrySend(p.q, frame).1
              else
                var p3 := Step(p2, DoRaise(id));
                p3.q == TrySend(p.q, frame).0 && p3.outcomes[id] == TrySend(p.q, frame).1
  {
  }

  /** The frames that are not skipped for being too large. */
  function LegalOnly(frames: seq<Frame>, max: nat): seq<Frame>
    decreases |frames|
  {
    if frames == [] then []
    else
      var front := LegalOnly(frames[..|frames| - 1], max);
      if Legal(frames[|frames| - 1], max) then front + [frames[|frames| - 1]] else front
  }

  lemma LegalOnlyAppend(frames: seq<Frame>, f: Frame, max: nat)
    ensures LegalOnly(frames + [f], max) == if Legal(f, max) then LegalOnly(frames, max) + [f] else LegalOnly(frames, max)
  {
    assert (frames + [f])[..|frames + [f]| - 1] == frames;
  }

  lemma {:induction false} LegalOnlyPrefix(frames: seq<Frame>, more: seq<Frame>, max: nat)
    ensures LegalOnly(frames, max) <= LegalOnly(frames + more, max)
    decreases |more|
  {
    if more == [] {
      assert frames + more == frames;
    } else {
      var all := frames + more;
      assert all[..|all| - 1] == frames + more[..|more| - 1];
      LegalOnlyPrefix(frames, more[..|more| - 1], max);
    }
  }

  lemma {:induction false} LegalOnlyIsLegal(frames: seq<Frame>, max: nat)
    ensures AllLegal(LegalOnly(frames, max), max)
    decreases |frames|
  {
    if frames != [] {
      LegalOnlyIsLegal(frames[..|frames| - 1], max);
    }
  }

  ghost predicate QueueOk(p: Pipe) {
    && p.popped <= p.accepted
    && (p.q.receiverOpen <==> !p.mode.Exited?)
    && (p.q.receiverOpen ==> p.accepted == p.popped + p.q.frames)
    && |p.q.frames| <= p.q.capacity
    && (p.mode.Draining? ==> p.senders == 0 && !p.q.disconnected)
    && (p.mode == Exited(Completed) ==> p.popped == p.accepted && p.pending == [])
    && (p.senders == 0 ==> p.sends == map[])
    && (forall id :: id in p.outcomes && p.outcomes[id].Err? ==> Shut(p.q))
  }

  /** What is on the wire and what is still in hand are together the encodings of the legal frames taken. */
  ghost predicate WireOk(max: nat, popped: seq<Frame>, wire: seq<byte>, pending: seq<byte>) {
    && wire + pending == Wire(LegalOnly(popped, max))
    && (pending != [] ==>
          && popped != [] && Legal(popped[|popped| - 1], max)
          && |pending| <= |WireBytes(popped[|popped| - 1])|)
  }

  ghost predicate PipeOk(p: Pipe) {
    QueueOk(p) && WireOk(p.max, p.popped, p.wire, p.pending)
  }

  lemma WireOfOne(f: Frame)
    ensures Wire([f]) == WireBytes(f)
  {
    assert [f][1..] == [];
    assert WireBytes(f) + [] == WireBytes(f);
  }

  lemma WireAfterTake(popped: seq<Frame>, f: Frame, max: nat)
    ensures Wire(LegalOnly(popped + [f], max)) == Wire(LegalOnly(popped, max)) + (if Legal(f, max) then WireBytes(f) else [])
  {
    LegalOnlyAppend(popped, f, max);
    WireConcat(LegalOnly(popped, max), [f]);
    WireOfOne(f);
  }

  lemma TakeOk(p: Pipe)
    requires PipeOk(p) && Enabled(p, DoTake)
    ensures PipeOk(Step(p, DoTake))
  {
    var f := p.q.frames[0];
    assert p.accepted == (p.popped + [f]) + p.q.frames[1..];
    TakeWireOk(p.max, p.popped, p.wire, f);
  }

  lemma TakeWireOk(max: nat, popped: seq<Frame>, wire: seq<byte>, f: Frame)
    requires WireOk(max, popped, wire, [])
    ensures WireOk(max, popped + [f], wire, if Legal(f, max) then WireBytes(f) else [])
  {
    WireAfterTake(popped, f, max);
    assert wire + [] == wire;
  }

  lemma EnqueueKeepsQueue(p: Pipe, id: SendId)
    requires QueueOk(p) && Enabled(p, DoEnqueue(id))
    ensures QueueOk(Step(p, DoEnqueue(id)))
  {
    var f := p.sends[id].frame;
    assert p.popped + (p.q.frames + [f]) == (p.popped + p.q.frames) + [f];
  }

  lemma EnqueueOk(p: Pipe, id: SendId)
    requires PipeOk(p) && Enabled(p, DoEnqueue(id))
    ensures PipeOk(Step(p, DoEnqueue(id)))
  {
    EnqueueKeepsQueue(p, id);
  }

  lemma WriteOk(p: Pipe, n: nat)
    requires PipeOk(p) && Enabled(p, DoWrite(n))
    ensures PipeOk(Step(p, DoWrite(n)))
  {
    assert p.wire + p.pending == (p.wire + p.pending[..n]) + p.pending[n..];
  }

  lemma StepOk(p: Pipe, l: Label)
    requires PipeOk(p) && Enabled(p, l)
    ensures PipeOk(Step(p, l))
  {
    match l {
      case DoTake => TakeOk(p);
      case DoWrite(n) => WriteOk(p, n);
      case DoEnqueue(id) => EnqueueOk(p, id);
      case _ =>
    }
  }

  /** The sends that have passed their check and have not reached the queue yet. */
  function Passing(sends: map<SendId, Sending>): set<SendId> {
    set id | id in sends && sends[id].Passed?
  }

  lemma StepIsMonotone(p: Pipe, l: Label)
    requires Enabled(p, l)
    ensures p.accepted <= Step(p, l).accepted && p.wire <= Step(p, l).wire && Step(p, l).max == p.max
    ensures Shut(p.q) ==> Shut(Step(p, l).q)
    ensures p.mode.Exited? ==> Step(p, l).mode == p.mode && Step(p, l).wire == p.wire
  {
  }

  /** Once the queue is shut, a frame is accepted only by using up a send that had passed its check. */
  lemma ShutStep(p: Pipe, l: Label)
    requires Enabled(p, l) && Shut(p.q)
    ensures |Step(p, l).accepted| + |Passing(Step(p, l).sends)| <= |p.accepted| + |Passing(p.sends)|
  {
    var before, after := Passing(p.sends), Passing(Step(p, l).sends);
    if l.DoEnqueue? {
      assert after == before - {l.id};
      assert l.id in before;
    } else {
      assert after <= before;
      Fewer(after, before);
    }
  }

  lemma Fewer(a: set<SendId>, b: set<SendId>)
    requires a <= b
    ensures |a| <= |b|
  {
    assert b == a + (b - a);
  }

  /** What a peer reading with at least our frame limit gets out of the bytes on the wire. */
  lemma PeerReads(p: Pipe, peerMax: nat)
    requires PipeOk(p) && p.max < U32 && p.max <= peerMax
    ensures Parse(p.wire, peerMax).frames <= LegalOnly(p.popped, p.max)
    ensures p.pending == [] ==> Parse(p.wire, peerMax) == Parsed(LegalOnly(p.popped, p.max), [], End)
  {
    var sent := LegalOnly(p.popped, p.max);
    LegalOnlyIsLegal(p.popped, p.max);
    if p.pending == [] {
      assert p.wire == Wire(sent) + [];
      ParseAfterFrames(sent, [], peerMax);
      assert Parse([], peerMax) == Parsed([], [], End);
      assert sent + [] == sent;
    } else {
      var last := p.popped[|p.popped| - 1];
      var front := LegalOnly(p.popped[..|p.popped| - 1], p.max);
      assert sent == front + [last];
      LegalOnlyIsLegal(p.popped[..|p.popped| - 1], p.max);
      CutWireReads(front, last, p.wire, p.pending, peerMax);
    }
  }

  /** And out of all the frames accepted: a prefix of those of legal size, and all of them once the writer has finished by
      itself. */
  lemma PeerParses(p: Pipe, peerMax: nat)
    requires PipeOk(p) && p.max < U32 && p.max <= peerMax
    ensures Parse(p.wire, peerMax).frames <= LegalOnly(p.accepted, p.max)
    ensures p.mode == Exited(Completed) ==> Parse(p.wire, peerMax) == Parsed(LegalOnly(p.accepted, p.max), [], End)
  {
    PeerReads(p, peerMax);
    var more := p.accepted[|p.popped|..];
    assert p.accepted == p.popped + more;
    LegalOnlyPrefix(p.popped, more, p.max);
  }

  lemma CutWireReads(front: seq<Frame>, last: Frame, wire: seq<byte>, pending: seq<byte>, peerMax: nat)
    requires AllLegal(front, peerMax) && AllFit(front) && Legal(last, peerMax) && WireLen(last) < U32
    requires wire + pending == Wire(front + [last]) && 0 < |pending| <= |WireBytes(last)|
    ensures Parse(wire, peerMax).frames == front
  {
    WireConcat(front, [last]);
    WireOfOne(last);
    var cut := |WireBytes(last)| - |pending|;
    var whole := Wire(front) + WireBytes(last);
    assert wire == whole[..|wire|];
    assert wire == Wire(front) + WireBytes(last)[..cut];
    ParseAfterFrames(front, WireBytes(last)[..cut], peerMax);
    CutFrameIsUnread(last, cut, peerMax);
    assert front + [] == front;
  }

  // ---- The write task as the program runs it ----

  /** A socket whose writes fail once `room` bytes have gone out, and whose flushes fail after the first `flushes`. */
  class Socket {
    const room: nat
    const flushes: nat
    var wire: seq<byte>
    var flushed: nat

    constructor (room: nat, flushes: nat)
      ensures this.room == room && this.flushes == flushes && wire == [] && flushed == 0
    {
      this.room, this.flushes := room, flushes;
      wire, flushed := [], 0;
    }

    method WriteAll(bytes: seq<byte>) returns (ok: bool)
      requires |wire| <= room
      modifies this`wire
      ensures |wire| <= room && wire == UpTo(old(wire) + bytes, room)
      ensures ok <==> |old(wire) + bytes| <= room
    {
      ok := |wire + bytes| <= room;
      wire := UpTo(wire + bytes, room);
    }

    method Flush() returns (ok: bool)
      modifies this`flushed
      ensures ok <==> old(flushed) < flushes
      ensures flushed == old(flushed) + if ok then 1 else 0
    {
      ok := flushed < flushes;
      if ok {
        flushed := flushed + 1;
      }
    }
  }

  function UpTo(bytes: seq<byte>, room: nat): seq<byte> {
    if |bytes| <= room then bytes else bytes[..room]
  }

  /** The legal frames the task gets to: all of them, or one more than the socket flushes. */
  function Attempted(received: seq<Frame>, max: nat, flushes: nat): seq<Frame> {
    var legal := LegalOnly(received, max);
    if |legal| <= flushes then legal else legal[..flushes + 1]
  }

  /** The frames received before the queue closed are written and flushed one after the other, too large ones are
      skipped, and the first failure ends the task: the socket gets the encodings of the frames attempted, cut
      where a write failed. */
  method WriteTask(socket: Socket, received: seq<Frame>, max: nat) returns (completed: bool)
    requires socket.wire == [] && socket.flushed == 0
    modifies socket
    ensures socket.wire == UpTo(Wire(Attempted(received, max, socket.flushes)), socket.room)
    ensures completed <==> |Wire(LegalOnly(received, max))| <= socket.room && |LegalOnly(received, max)| <= socket.flushes
  {
    var i := 0;
    while i < |received|
      invariant 0 <= i <= |received|
      invariant |socket.wire| <= socket.room && socket.wire == Wire(LegalOnly(received[..i], max))
      invariant socket.flushed == |LegalOnly(received[..i], max)| <= socket.flushes
    {
      NextFrame(received, i, max);
      var encoded := EncodeFrame(received[i], max);
      if encoded.Ok? {
        var ok := socket.WriteAll(encoded.value);
        if !ok {
          WriteFails(received, i, max, socket.flushes, socket.room);
          return false;
        }
        ok := socket.Flush();
        if !ok {
          FlushFails(received, i, max, socket.flushes);
          return false;
        }
      }
      i := i + 1;
    }
    assert received[..i] == received;
    completed := true;
  }

  /** One more frame extends the wire. */
  lemma NextFrame(frames: seq<Frame>, i: nat, max: nat)
    requires i < |frames|
    ensures var now, next := LegalOnly(frames[..i], max), LegalOnly(frames[..i + 1], max);
            && next == (if Legal(frames[i], max) then now + [frames[i]] else now)
            && Wire(next) == Wire(now) + (if Legal(frames[i], max) then WireBytes(frames[i]) else [])
            && next <= LegalOnly(frames, max)
  {
    assert frames[..i + 1] == frames[..i] + [frames[i]];
    LegalOnlyAppend(frames[..i], frames[i], max);
    WireAfterTake(frames[..i], frames[i], max);
    LegalOnlyPrefix(frames[..i + 1], frames[i + 1..], max);
    assert frames[..i + 1] + frames[i + 1..] == frames;
  }

  lemma WirePrefix(a: seq<Frame>, b: seq<Frame>)
    requires a <= b
    ensures Wire(a) <= Wire(b)
  {
    assert b == a + b[|a|..];
    WireConcat(a, b[|a|..]);
  }

  lemma WriteFails(frames: seq<Frame>, i: nat, max: nat, flushes: nat, room: nat)
    requires i < |frames| && Legal(frames[i], max) && |LegalOnly(frames[..i], max)| <= flushes
    requires |Wire(LegalOnly(frames[..i + 1], max))| > room
    ensures UpTo(Wire(LegalOnly(frames[..i + 1], max)), room) == UpTo(Wire(Attempted(frames, max, flushes)), room)
    ensures |Wire(LegalOnly(frames, max))| > room
  {
    NextFrame(frames, i, max);
    var next := LegalOnly(frames[..i + 1], max);
    assert next <= Attempted(frames, max, flushes);
    WirePrefix(next, LegalOnly(frames, max));
    WirePrefix(next, Attempted(frames, max, flushes));
  }

  lemma FlushFails(frames: seq<Frame>, i: nat, max: nat, flushes: nat)
    requires i < |frames| && Legal(frames[i], max) && |LegalOnly(frames[..i], max)| == flushes
    ensures LegalOnly(frames[..i + 1], max) == Attempted(frames, max, flushes) && |LegalOnly(frames, max)| > flushes
  {
    NextFrame(frames, i, max);
  }

  // ---- Runs ----

  /** Steps from any state on. */
  ghost predicate IsPath(states: seq<Pipe>, labels: seq<Label>) {
    && |states| == |labels| + 1
    && forall i {:trigger labels[i]} :: 0 <= i < |labels| ==>
         Enabled(states[i], labels[i]) && states[i + 1] == Step(states[i], labels[i])
  }

  ghost predicate IsRun(states: seq<Pipe>, labels: seq<Label>) {
    IsPath(states, labels) && exists capacity, max :: states[0] == NewPipe(capacity, max)
  }

  lemma {:induction false} RunOk(states: seq<Pipe>, labels: seq<Label>, n: nat)
    requires IsRun(states, labels) && n < |states|
    ensures PipeOk(states[n]) && states[n].max == states[0].max
  {
    if n > 0 {
      RunOk(states, labels, n - 1);
      StepOk(states[n - 1], labels[n - 1]);
      StepIsMonotone(states[n - 1], labels[n - 1]);
    }
  }

  /** End to end, for every schedule of sends, overflows, disconnects, socket errors, drain timeouts and kills:
      what the peer parses is a prefix, in order and without gaps or repetitions, of the accepted frames of
      legal size; if the writer finished by itself, it is all of them, with no byte left over. */
  lemma PeerGetsAPrefix(states: seq<Pipe>, labels: seq<Label>, n: nat, peerMax: nat)
    requires IsRun(states, labels) && n < |states| && states[0].max < U32 && states[0].max <= peerMax
    ensures Parse(states[n].wire, peerMax).frames <= LegalOnly(states[n].accepted, states[n].max)
    ensures states[n].mode == Exited(Completed) ==>
      Parse(states[n].wire, peerMax) == Parsed(LegalOnly(states[n].accepted, states[n].max), [], End)
  {
    RunOk(states, labels, n);
    PeerParses(states[n], peerMax);
  }

  /** In every run: once the signal is up or the receiver is gone, the frames still accepted number at most the sends that
      had passed their check by then; with none of those, not a single one. */
  lemma {:induction false} ShutLetsOnlyPassedSendsThrough(states: seq<Pipe>, labels: seq<Label>, m: nat, n: nat)
    requires IsPath(states, labels) && m <= n < |states| && Shut(states[m].q)
    ensures Shut(states[n].q) && states[m].accepted <= states[n].accepted
    ensures |states[n].accepted| + |Passing(states[n].sends)| <= |states[m].accepted| + |Passing(states[m].sends)|
    decreases n
  {
    if n > m {
      ShutLetsOnlyPassedSendsThrough(states, labels, m, n - 1);
      StepIsMonotone(states[n - 1], labels[n - 1]);
      ShutStep(states[n - 1], labels[n - 1]);
    }
  }

  /** In every run the queue stays within its capacity; and after any refusal that was reported, overflow included, at most
      the sends that had passed their check by then are still accepted, however far the queue drains. */
  lemma RefusalIsFinal(states: seq<Pipe>, labels: seq<Label>, m: nat, n: nat, id: SendId)
    requires IsRun(states, labels) && m <= n < |states|
    requires id in states[m].outcomes && states[m].outcomes[id].Err?
    ensures |states[n].q.frames| <= states[n].q.capacity
    ensures |states[n].accepted| <= |states[m].accepted| + |Passing(states[m].sends)|
    ensures Passing(states[m].sends) == {} ==> states[n].accepted == states[m].accepted
  {
    RunOk(states, labels, m);
    RunOk(states, labels, n);
    ShutLetsOnlyPassedSendsThrough(states, labels, m, n);
  }

  /** Some continuation accepts one more frame. */
  ghost predicate AcceptsLater(p: Pipe) {
    exists states: seq<Pipe>, labels: seq<Label> :: IsPath(states, labels) && states[0] == p && |states[|labels|].accepted| > |p.accepted|
  }

  /** Without a receiver, or without any room, nothing is accepted any more. */
  lemma {:induction false} DeafQueueAcceptsNothing(states: seq<Pipe>, labels: seq<Label>, n: nat)
    requires IsPath(states, labels) && n < |states| && (!states[0].q.receiverOpen || states[0].q.capacity == 0)
    ensures states[n].accepted == states[0].accepted
    ensures !states[n].q.receiverOpen || states[n].q.capacity == 0
  {
    if n > 0 {
      DeafQueueAcceptsNothing(states, labels, n - 1);
      DeafStep(states[n - 1], labels[n - 1]);
    }
  }

  lemma DeafStep(p: Pipe, l: Label)
    requires Enabled(p, l) && (!p.q.receiverOpen || p.q.capacity == 0)
    ensures Step(p, l).accepted == p.accepted && (!Step(p, l).q.receiverOpen || Step(p, l).q.capacity == 0)
  {
  }

  lemma OneStepAccepts(p: Pipe, id: SendId)
    requires id in p.sends && p.sends[id].Passed? && p.q.receiverOpen && |p.q.frames| < p.q.capacity
    ensures AcceptsLater(p)
  {
    var states, labels := [p, Step(p, DoEnqueue(id))], [DoEnqueue(id)];
    assert IsPath(states, labels);
  }

  lemma LaterStill(p: Pipe, l: Label)
    requires Enabled(p, l) && Step(p, l).accepted == p.accepted && AcceptsLater(Step(p, l))
    ensures AcceptsLater(p)
  {
    var states: seq<Pipe>, labels: seq<Label> :| IsPath(states, labels) && states[0] == Step(p, l) && |states[|labels|].accepted| > |p.accepted|;
    var states', labels' := [p] + states, [l] + labels;
    forall i | 0 <= i < |labels'|
      ensures Enabled(states'[i], labels'[i]) && states'[i + 1] == Step(states'[i], labels'[i])
    {
      if i > 0 {
        assert labels'[i] == labels[i - 1];
      }
    }
    assert IsPath(states', labels') && states'[|labels'|] == states[|labels|];
  }

  /** The writer can always make room: it writes what it has in hand and takes the next frame. */
  lemma PassedSendGetsThrough(p: Pipe, id: SendId)
    requires PipeOk(p) && p.q.receiverOpen && p.q.capacity > 0 && id in Passing(p.sends)
    ensures AcceptsLater(p)
  {
    if |p.q.frames| < p.q.capacity {
      OneStepAccepts(p, id);
    } else if p.pending == [] {
      OneStepAccepts(Step(p, DoTake), id);
      LaterStill(p, DoTake);
    } else {
      var written := Step(p, DoWrite(|p.pending|));
      OneStepAccepts(Step(written, DoTake), id);
      LaterStill(written, DoTake);
      LaterStill(p, DoWrite(|p.pending|));
    }
  }

  /** In every run, from a queue that is shut: some continuation still accepts a frame if and only if the receiver is there,
      the queue holds anything at all, and some send had passed its check. */
  lemma ShutAcceptsExactlyWhen(states: seq<Pipe>, labels: seq<Label>, n: nat)
    requires IsRun(states, labels) && n < |states| && Shut(states[n].q)
    ensures AcceptsLater(states[n]) <==>
      states[n].q.receiverOpen && states[n].q.capacity > 0 && Passing(states[n].sends) != {}
  {
    var p := states[n];
    RunOk(states, labels, n);
    if p.q.receiverOpen && p.q.capacity > 0 && Passing(p.sends) != {} {
      var id :| id in Passing(p.sends);
      PassedSendGetsThrough(p, id);
    } else if AcceptsLater(p) {
      var later: seq<Pipe>, steps: seq<Label> :| IsPath(later, steps) && later[0] == p && |later[|steps|].accepted| > |p.accepted|;
      if !p.q.receiverOpen || p.q.capacity == 0 {
        DeafQueueAcceptsNothing(later, steps, |steps|);
      } else {
        ShutLetsOnlyPassedSendsThrough(later, steps, 0, |steps|);
      }
      assert false;
    }
  }

  function RacePipe(
    frames: seq<Frame>, up: bool, sends: map<SendId, Sending>, outcomes: map<SendId, Result<(), SendError>>,
    accepted: seq<Frame>, popped: seq<Frame>): Pipe
  {
    Pipe(0, Queue(1, frames, true, up), 1, sends, outcomes, Selecting, [], [], accepted, popped)
  }

  function RaceLabel(f: Frame, k: nat): Label
    requires k < 8
  {
    match k
    case 0 => DoCheck(0, f, false)
    case 1 => DoEnqueue(0)
    case 2 => DoCheck(1, f, false)
    case 3 => DoCheck(2, f, false)
    case 4 => DoEnqueue(1)
    case 5 => DoRaise(1)
    case 6 => DoTake
    case 7 => DoEnqueue(2)
  }

  function RaceState(f: Frame, k: nat): Pipe
    requires k < 9
  {
    var ok, full := map[0 := Ok(())], map[0 := Ok(()), 1 := Err(QueueFull)];
    match k
    case 0 => NewPipe(1, 0)
    case 1 => RacePipe([], false, map[0 := Passed(f, false)], map[], [], [])
    case 2 => RacePipe([f], false, map[], ok, [f], [])
    case 3 => RacePipe([f], false, map[1 := Passed(f, false)], ok, [f], [])
    case 4 => RacePipe([f], false, map[1 := Passed(f, false), 2 := Passed(f, false)], ok, [f], [])
    case 5 => RacePipe([f], false, map[1 := Failing(QueueFull), 2 := Passed(f, false)], ok, [f], [])
    case 6 => RacePipe([f], true, map[2 := Passed(f, false)], full, [f], [])
    case 7 => RacePipe([], true, map[2 := Passed(f, false)], full, [f], [f])
    case 8 => RacePipe([f], true, map[], full[2 := Ok(())], [f, f], [f])
  }

  lemma RaceStep(f: Frame, k: nat)
    requires k < 8
    ensures Enabled(RaceState(f, k), RaceLabel(f, k))
    ensures Step(RaceState(f, k), RaceLabel(f, k)) == RaceState(f, k + 1)
  {
    var passed := Passed(f, false);
    assert map[0 := passed] - {0} == map[] && map[2 := passed] - {2} == map[];
    assert map[1 := Failing(QueueFull), 2 := passed] - {1} == map[2 := passed];
  }

  /** The race: a send passes its check; another overflows, raises the signal and is told so; the writer makes room; the
      first is accepted after all. */
  lemma SendRacesRefusal(f: Frame) returns (states: seq<Pipe>, labels: seq<Label>)
    ensures IsRun(states, labels) && |states| == 9
    ensures states[7].outcomes == map[0 := Ok(()), 1 := Err(QueueFull)] && Shut(states[7].q) && states[7].accepted == [f]
    ensures 2 in states[8].outcomes && states[8].outcomes[2] == Ok(()) && states[8].accepted == [f, f]
  {
    states := seq(9, k requires 0 <= k < 9 => RaceState(f, k));
    labels := seq(8, k requires 0 <= k < 8 => RaceLabel(f, k));
    forall k | 0 <= k < 8 ensures Enabled(states[k], labels[k]) && states[k + 1] == Step(states[k], labels[k]) {
      RaceStep(f, k);
    }
    assert states[0] == NewPipe(1, 0);
  }

  /** Once the write task is gone, for whatever reason, the wire never changes again. */
  lemma {:induction false} ExitIsFinal(states: seq<Pipe>, labels: seq<Label>, m: nat, n: nat)
    requires IsRun(states, labels) && m <= n < |states| && states[m].mode.Exited?
    ensures states[n].mode == states[m].mode && states[n].wire == states[m].wire
    decreases n
  {
    if n > m {
      ExitIsFinal(states, labels, m, n - 1);
      StepIsMonotone(states[n - 1], labels[n - 1]);
    }
  }
}
