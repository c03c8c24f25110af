/** From the room to the client: the room's log, the member's sink, the validated translator, the send queue and the peer's
    reader, put together where one hands over to the next. */
module Delivery {
  import opened Prelude
  import opened RoomAggregate
  import opened RoomSinks
  import opened FrameCodec
  import RoomBroadcast
  import GatewaySessions
  import Outbound

  const ROOM_EVENT_OPCODE: Opcode := 0x8010

  /** Room events travel in frames of their own opcode; the payload is the encoder's business. */
  function FrameOf(encode: RoomEvent -> seq<byte>, event: RoomEvent): Frame {
    Frame(ROOM_EVENT_OPCODE, encode(event))
  }

  function FramesOf(encode: RoomEvent -> seq<byte>, events: seq<RoomEvent>): seq<Frame>
    decreases |events|
  {
    if events == [] then [] else FramesOf(encode, events[..|events| - 1]) + [FrameOf(encode, events[|events| - 1])]
  }

  /** The frames that carry room events. */
  function EventFrames(frames: seq<Frame>): seq<Frame>
    decreases |frames|
  {
    if frames == [] then []
    else
      var front := EventFrames(frames[..|frames| - 1]);
      if frames[|frames| - 1].opcode == ROOM_EVENT_OPCODE then front + [frames[|frames| - 1]] else front
  }

  lemma {:induction false} FramesOfPrefix(encode: RoomEvent -> seq<byte>, a: seq<RoomEvent>, b: seq<RoomEvent>)
    requires a <= b
    ensures FramesOf(encode, a) <= FramesOf(encode, b)
    decreases |b|
  {
    if a != b {
      var front := b[..|b| - 1];
      assert a <= front;
      FramesOfPrefix(encode, a, front);
    }
  }

  lemma {:induction false} EventFramesPrefix(a: seq<Frame>, b: seq<Frame>)
    requires a <= b
    ensures EventFrames(a) <= EventFrames(b)
    decreases |b|
  {
    if a != b {
      var front := b[..|b| - 1];
      assert a <= front;
      EventFramesPrefix(a, front);
    }
  }

  lemma {:induction false} LegalEventFrames(frames: seq<Frame>, max: nat)
    ensures EventFrames(Outbound.LegalOnly(frames, max)) == Outbound.LegalOnly(EventFrames(frames), max)
    decreases |frames|
  {
    if frames != [] {
      var front, last := frames[..|frames| - 1], frames[|frames| - 1];
      LegalEventFrames(front, max);
      var legal := Outbound.LegalOnly(front, max);
      assert (legal + [last])[..|legal|] == legal;
      var events := EventFrames(front);
      assert (events + [last])[..|events|] == events;
    }
  }

  lemma LegalPrefix(a: seq<Frame>, b: seq<Frame>, max: nat)
    requires a <= b
    ensures Outbound.LegalOnly(a, max) <= Outbound.LegalOnly(b, max)
  {
    Outbound.LegalOnlyPrefix(a, b[|a|..], max);
    assert a + b[|a|..] == b;
  }

  // ---- One connection's line from the room to the wire ----

  /** The room with its sinks, the connection, its send queue, and the translator's own send while it is under way. */
  datatype Line<S> = Line(
    w: RoomBroadcast.World<S>, c: GatewaySessions.Conn, p: Outbound.Pipe, sending: Option<Outbound.SendId>)

  /** `Receive` is the translator taking an event off its sink, `Offer` the start of its send once the event's validation
      has passed, `Conclude` its return from that send. */
  datatype Event<S> =
    | RoomMoves(input: RoomBroadcast.Input<S>)
    | Receive
    | Answer(task: GatewaySessions.Task, answer: GatewaySessions.Answer)
    | SessionMoves(step: GatewaySessions.Label)
    | Offer(id: Outbound.SendId)
    | Conclude
    | QueueMoves(move: Outbound.Label)

  predicate TouchesTranslator(l: GatewaySessions.Label) {
    l.TranslatorResumes? || l.TranslatorReturns? || l.CleanedUp? || l.Abort?
  }

  predicate Passing(c: GatewaySessions.Conn) {
    c.translator.Checking? && GatewaySessions.Passes(c.translator.auth, c.translator.answer)
  }

  ghost predicate Concludes<S>(a: Line<S>, b: Line<S>) {
    && a.c.translator.Checking? && a.sending.Some? && a.sending.value in a.p.outcomes
    && var t := a.c.translator;
       b == a.(c := GatewaySessions.OnChecked(a.c, t.event, t.auth, t.answer, false, a.p.outcomes[a.sending.value].Ok?),
               sending := None)
  }

  /** Room events are put on the send queue by the translator only, and a send is not interrupted: it has no await. */
  ghost predicate Happens<S>(encode: RoomEvent -> seq<byte>, sink: S, a: Line<S>, e: Event<S>, b: Line<S>) {
    match e
    case RoomMoves(input) => input != RoomBroadcast.TakeFrom(sink) && b == a.(w := RoomBroadcast.Step(a.w, input))
    case Receive =>
      && a.c.translator.Listening? && sink in a.w.sinks && a.w.sinks[sink].queue != []
      && b == a.(w := RoomBroadcast.Step(a.w, RoomBroadcast.TakeFrom(sink)),
                 c := GatewaySessions.OnEvent(a.c, a.w.sinks[sink].queue[0]))
    case Answer(task, answer) =>
      GatewaySessions.Asked(a.c, task).Some? && b == a.(c := GatewaySessions.Told(a.c, task, answer))
    case SessionMoves(l) =>
      && GatewaySessions.Ready(a.c, l) && !l.Answered? && !l.EventArrives? && (a.sending.Some? ==> !TouchesTranslator(l))
      && (l.TranslatorResumes? ==> l.late || !Passing(a.c))
      && b == a.(c := GatewaySessions.Moved(a.c, l))
    case Offer(id) =>
      && Passing(a.c) && a.sending.None?
      && Outbound.Enabled(a.p, Outbound.DoCheck(id, FrameOf(encode, a.c.translator.event), false))
      && b == a.(p := Outbound.Step(a.p, Outbound.DoCheck(id, FrameOf(encode, a.c.translator.event), false)),
                 sending := Some(id))
    case Conclude => Concludes(a, b)
    case QueueMoves(l) =>
      && (l.DoCheck? ==> l.frame.opcode != ROOM_EVENT_OPCODE)
      && Outbound.Enabled(a.p, l) && b == a.(p := Outbound.Step(a.p, l))
  }

  // ---- What every step keeps ----

  /** The events among the accepted frames are those the translator has queued, and the one it has just got accepted. */
  ghost predicate Linked<S>(encode: RoomEvent -> seq<byte>, line: Line<S>) {
    var c, p := line.c, line.p;
    var queued := FramesOf(encode, c.queued);
    if line.sending.None? then EventFrames(p.accepted) == queued
    else
      var id := line.sending.value;
      && Passing(c)
      && (id in p.sends <==> id !in p.outcomes)
      && (id in p.sends ==>
            && (p.sends[id].Failing? || p.sends[id] == Outbound.Passed(FrameOf(encode, c.translator.event), false))
            && EventFrames(p.accepted) == queued)
      && (id in p.outcomes ==>
            EventFrames(p.accepted) ==
            (if p.outcomes[id].Ok? then queued + [FrameOf(encode, c.translator.event)] else queued))
  }

  /** Every other send carries no room event. */
  ghost predicate OthersCarryNone<S>(line: Line<S>) {
    forall id :: id in line.p.sends && line.sending != Some(id) && !line.p.sends[id].Failing? ==>
      line.p.sends[id].frame.opcode != ROOM_EVENT_OPCODE
  }

  ghost predicate LineOk<S>(encode: RoomEvent -> seq<byte>, sink: S, line: Line<S>) {
    && RoomBroadcast.Sound(line.w, sink)
    && GatewaySessions.ConnOk(line.c) && Outbound.PipeOk(line.p)
    && line.c.received == line.w.sinks[sink].taken
    && Linked(encode, line) && OthersCarryNone(line)
  }

  lemma EventFramesAppend(frames: seq<Frame>, frame: Frame)
    ensures EventFrames(frames + [frame])
         == if frame.opcode == ROOM_EVENT_OPCODE then EventFrames(frames) + [frame] else EventFrames(frames)
  {
    assert (frames + [frame])[..|frames + [frame]| - 1] == frames;
  }

  lemma FramesOfAppend(encode: RoomEvent -> seq<byte>, events: seq<RoomEvent>, event: RoomEvent)
    ensures FramesOf(encode, events + [event]) == FramesOf(encode, events) + [FrameOf(encode, event)]
  {
    assert (events + [event])[..|events + [event]| - 1] == events;
  }

  /** A step of the send queue accepts at most one frame, that of the send it enqueues. */
  lemma QueueStepAccepts(p: Outbound.Pipe, l: Outbound.Label)
    requires Outbound.Enabled(p, l)
    ensures Outbound.Step(p, l).accepted == p.accepted
         || (l.DoEnqueue? && Outbound.Step(p, l).accepted == p.accepted + [p.sends[l.id].frame])
  {
  }

  lemma OwnEnqueue<S>(encode: RoomEvent -> seq<byte>, sink: S, a: Line<S>, id: Outbound.SendId, b: Line<S>)
    requires Linked(encode, a) && OthersCarryNone(a) && a.sending == Some(id)
    requires Happens(encode, sink, a, QueueMoves(Outbound.DoEnqueue(id)), b)
    ensures Linked(encode, b) && OthersCarryNone(b)
  {
    EventFramesAppend(a.p.accepted, FrameOf(encode, a.c.translator.event));
  }

  lemma OtherEnqueue<S>(encode: RoomEvent -> seq<byte>, sink: S, a: Line<S>, id: Outbound.SendId, b: Line<S>)
    requires Linked(encode, a) && OthersCarryNone(a) && a.sending != Some(id)
    requires Happens(encode, sink, a, QueueMoves(Outbound.DoEnqueue(id)), b)
    ensures Linked(encode, b) && OthersCarryNone(b)
  {
    EventFramesAppend(a.p.accepted, a.p.sends[id].frame);
  }

  lemma QuietQueueStep<S>(encode: RoomEvent -> seq<byte>, sink: S, a: Line<S>, l: Outbound.Label, b: Line<S>)
    requires Linked(encode, a) && OthersCarryNone(a) && !l.DoEnqueue?
    requires Happens(encode, sink, a, QueueMoves(l), b)
    ensures Linked(encode, b) && OthersCarryNone(b)
  {
    QueueStepAccepts(a.p, l);
  }

  lemma QueueOk<S>(encode: RoomEvent -> seq<byte>, sink: S, a: Line<S>, l: Outbound.Label, b: Line<S>)
    requires LineOk(encode, sink, a) && Happens(encode, sink, a, QueueMoves(l), b)
    ensures LineOk(encode, sink, b)
  {
    Outbound.StepOk(a.p, l);
    if !l.DoEnqueue? {
      QuietQueueStep(encode, sink, a, l, b);
    } else if a.sending == Some(l.id) {
      OwnEnqueue(encode, sink, a, l.id, b);
    } else {
      OtherEnqueue(encode, sink, a, l.id, b);
    }
  }

  lemma RoomOk<S>(encode: RoomEvent -> seq<byte>, sink: S, a: Line<S>, input: RoomBroadcast.Input<S>, b: Line<S>)
    requires LineOk(encode, sink, a) && Happens(encode, sink, a, RoomMoves(input), b)
    ensures LineOk(encode, sink, b)
  {
    RoomBroadcast.StepOnlyAdds(a.w, input, sink);
    RoomBroadcast.TakenStays(a.w, input, sink);
  }

  lemma ReceiveOk<S>(encode: RoomEvent -> seq<byte>, sink: S, a: Line<S>, b: Line<S>)
    requires LineOk(encode, sink, a) && Happens(encode, sink, a, Receive, b)
    ensures LineOk(encode, sink, b)
  {
    RoomBroadcast.StepOnlyAdds(a.w, RoomBroadcast.TakeFrom(sink), sink);
  }

  lemma SessionOk<S>(encode: RoomEvent -> seq<byte>, sink: S, a: Line<S>, l: GatewaySessions.Label, b: Line<S>)
    requires LineOk(encode, sink, a) && Happens(encode, sink, a, SessionMoves(l), b)
    ensures LineOk(encode, sink, b)
  {
    GatewaySessions.MovedOk(a.c, l);
    SessionKeepsEvents(a.c, l);
  }

  /** Steps that do not let an event through leave what was received and queued alone, and most of them the translator. */
  lemma SessionKeepsEvents(c: GatewaySessions.Conn, l: GatewaySessions.Label)
    requires GatewaySessions.Ready(c, l) && !l.Answered? && !l.EventArrives?
    requires l.TranslatorResumes? ==> l.late || !Passing(c)
    ensures var c' := GatewaySessions.Moved(c, l);
            && c'.received == c.received && c'.queued == c.queued
            && (!TouchesTranslator(l) ==> c'.translator == c.translator)
  {
  }

  lemma AnswerOk<S>(
    encode: RoomEvent -> seq<byte>, sink: S, a: Line<S>, task: GatewaySessions.Task, answer: GatewaySessions.Answer, b: Line<S>)
    requires LineOk(encode, sink, a) && Happens(encode, sink, a, Answer(task, answer), b)
    ensures LineOk(encode, sink, b)
  {
  }

  lemma OfferOk<S>(encode: RoomEvent -> seq<byte>, sink: S, a: Line<S>, id: Outbound.SendId, b: Line<S>)
    requires LineOk(encode, sink, a) && Happens(encode, sink, a, Offer(id), b)
    ensures LineOk(encode, sink, b)
  {
    Outbound.StepOk(a.p, Outbound.DoCheck(id, FrameOf(encode, a.c.translator.event), false));
  }

  lemma ConcludeOk<S>(encode: RoomEvent -> seq<byte>, sink: S, a: Line<S>, b: Line<S>)
    requires LineOk(encode, sink, a) && Concludes(a, b)
    ensures LineOk(encode, sink, b)
  {
    ConcludeLinks(encode, a, b);
  }

  lemma ConcludeLinks<S>(encode: RoomEvent -> seq<byte>, a: Line<S>, b: Line<S>)
    requires Linked(encode, a) && OthersCarryNone(a) && GatewaySessions.ConnOk(a.c) && Concludes(a, b)
    ensures Linked(encode, b) && OthersCarryNone(b) && GatewaySessions.ConnOk(b.c)
    ensures b.c.received == a.c.received
  {
    FramesOfAppend(encode, a.c.queued, a.c.translator.event);
  }

  lemma HappensOk<S>(encode: RoomEvent -> seq<byte>, sink: S, a: Line<S>, e: Event<S>, b: Line<S>)
    requires LineOk(encode, sink, a) && Happens(encode, sink, a, e, b)
    ensures LineOk(encode, sink, b)
  {
    match e {
      case RoomMoves(input) => RoomOk(encode, sink, a, input, b);
      case Receive => ReceiveOk(encode, sink, a, b);
      case Answer(task, answer) => AnswerOk(encode, sink, a, task, answer, b);
      case SessionMoves(l) => SessionOk(encode, sink, a, l, b);
      case Offer(id) => OfferOk(encode, sink, a, id, b);
      case Conclude => ConcludeOk(encode, sink, a, b);
      case QueueMoves(l) => QueueOk(encode, sink, a, l, b);
    }
  }

  // ---- Every history ----

  /** A new connection, with a sink nothing has been taken from, in whatever state the room is. */
  ghost predicate Begins<S>(line: Line<S>, sink: S) {
    && RoomBroadcast.Sound(line.w, sink) && line.w.sinks[sink].taken == []
    && line.c == GatewaySessions.FRESH && line.sending.None?
    && exists capacity, max :: line.p == Outbound.NewPipe(capacity, max)
  }

  ghost predicate IsHistory<S>(encode: RoomEvent -> seq<byte>, sink: S, lines: seq<Line<S>>, events: seq<Event<S>>) {
    && |lines| == |events| + 1 && Begins(lines[0], sink)
    && forall i {:trigger events[i]} :: 0 <= i < |events| ==> Happens(encode, sink, lines[i], events[i], lines[i + 1])
  }

  lemma {:induction false} HistoryOk<S>(
    encode: RoomEvent -> seq<byte>, sink: S, lines: seq<Line<S>>, events: seq<Event<S>>, n: nat)
    requires IsHistory(encode, sink, lines, events) && n < |lines|
    ensures LineOk(encode, sink, lines[n]) && lines[n].p.max == lines[0].p.max
  {
    if n > 0 {
      HistoryOk(encode, sink, lines, events, n - 1);
      HappensOk(encode, sink, lines[n - 1], events[n - 1], lines[n]);
      LimitStays(encode, sink, lines[n - 1], events[n - 1], lines[n]);
    }
  }

  lemma LimitStays<S>(encode: RoomEvent -> seq<byte>, sink: S, a: Line<S>, e: Event<S>, b: Line<S>)
    requires Happens(encode, sink, a, e, b)
    ensures b.p.max == a.p.max
  {
    if e.QueueMoves? {
      Outbound.StepIsMonotone(a.p, e.move);
    }
  }

  /** The inputs of the room in a piece of a history. */
  function InputsOf<S>(sink: S, events: seq<Event<S>>): seq<RoomBroadcast.Input<S>>
    decreases |events|
  {
    if events == [] then []
    else
      var front, last := InputsOf(sink, events[..|events| - 1]), events[|events| - 1];
      match last
      case RoomMoves(input) => front + [input]
      case Receive => front + [RoomBroadcast.TakeFrom(sink)]
      case _ => front
  }

  lemma {:induction false} RoomPart<S>(
    encode: RoomEvent -> seq<byte>, sink: S, lines: seq<Line<S>>, events: seq<Event<S>>, m: nat, n: nat)
    requires IsHistory(encode, sink, lines, events) && m <= n < |lines|
    ensures lines[n].w == RoomBroadcast.Run(lines[m].w, InputsOf(sink, events[m..n]))
    decreases n
  {
    if m < n {
      RoomPart(encode, sink, lines, events, m, n - 1);
      var piece := events[m..n];
      assert piece[..|piece| - 1] == events[m..n - 1] && piece[|piece| - 1] == events[n - 1];
      RoomPartStep(encode, sink, lines[n - 1], events[n - 1], lines[n], lines[m].w, InputsOf(sink, events[m..n - 1]));
    }
  }

  lemma RoomPartStep<S>(
    encode: RoomEvent -> seq<byte>, sink: S, a: Line<S>, e: Event<S>, b: Line<S>,
    w: RoomBroadcast.World<S>, inputs: seq<RoomBroadcast.Input<S>>)
    requires Happens(encode, sink, a, e, b) && a.w == RoomBroadcast.Run(w, inputs)
    ensures e.RoomMoves? ==> b.w == RoomBroadcast.Run(w, inputs + [e.input])
    ensures e.Receive? ==> b.w == RoomBroadcast.Run(w, inputs + [RoomBroadcast.TakeFrom(sink)])
    ensures !e.RoomMoves? && !e.Receive? ==> b.w == a.w
  {
    if e.RoomMoves? || e.Receive? {
      var input := if e.RoomMoves? then e.input else RoomBroadcast.TakeFrom(sink);
      assert (inputs + [input])[..|inputs + [input]| - 1] == inputs;
    }
  }

  // ---- What the client parses ----

  lemma AcceptedIsTaken<S>(encode: RoomEvent -> seq<byte>, sink: S, line: Line<S>)
    requires LineOk(encode, sink, line)
    ensures EventFrames(line.p.accepted) <= FramesOf(encode, line.w.sinks[sink].taken)
  {
    var c := line.c;
    FramesOfPrefix(encode, c.queued, c.received);
    if line.sending.Some? {
      FramesOfAppend(encode, c.queued, c.translator.event);
    }
  }

  /** In every history: the room events the client parses are a prefix of those its sink handed out, in order, leaving out
      only what is too large for a frame. */
  lemma ClientParsesWhatWasTaken<S>(
    encode: RoomEvent -> seq<byte>, sink: S, lines: seq<Line<S>>, events: seq<Event<S>>, n: nat, peerMax: nat)
    requires IsHistory(encode, sink, lines, events) && n < |lines| && lines[0].p.max < U32 && lines[0].p.max <= peerMax
    ensures sink in lines[n].w.sinks
    ensures EventFrames(Parse(lines[n].p.wire, peerMax).frames)
         <= Outbound.LegalOnly(FramesOf(encode, lines[n].w.sinks[sink].taken), lines[n].p.max)
  {
    HistoryOk(encode, sink, lines, events, n);
    var p, taken := lines[n].p, lines[n].w.sinks[sink].taken;
    Outbound.PeerParses(p, peerMax);
    EventFramesPrefix(Parse(p.wire, peerMax).frames, Outbound.LegalOnly(p.accepted, p.max));
    LegalEventFrames(p.accepted, p.max);
    AcceptedIsTaken(encode, sink, lines[n]);
    LegalPrefix(EventFrames(p.accepted), FramesOf(encode, taken), p.max);
  }

  /** What the sink has carried: this room's share of it is its share before the stay, the stay's slice of the room's log,
      and what came after the stay. */
  ghost predicate Carried<S>(
    w: RoomBroadcast.World<S>, inputs: seq<RoomBroadcast.Input<S>>, player: PlayerId, sink: S, carried: seq<RoomEvent>)
    requires sink in w.sinks
  {
    var w', at := RoomBroadcast.Run(w, inputs), |w.t.log|;
    && at < |w'.t.log|
    && var end := RoomBroadcast.StayEnd(w'.t.log, player, at);
       var slice := w'.t.log[at..end];
       && RoomBroadcast.Stay(w'.t.log, player, at, end)
       && RoomBroadcast.Share(w, sink) + slice <= RoomBroadcast.OfRoom(carried, w'.t.actor.room.id)
       && (RoomBroadcast.StillIn(w, inputs, player, |inputs|) ==>
             RoomBroadcast.Share(w, sink) + slice == RoomBroadcast.OfRoom(carried, w'.t.actor.room.id) && end == |w'.t.log|)
  }

  lemma TakenIsCarried<S>(
    w: RoomBroadcast.World<S>, inputs: seq<RoomBroadcast.Input<S>>, player: PlayerId, sink: S) returns (carried: seq<RoomEvent>)
    requires RoomBroadcast.Sound(w, sink) && RoomBroadcast.StaysWith(w, inputs, player, sink)
    requires sink in RoomBroadcast.Run(w, inputs).sinks && !RoomBroadcast.Run(w, inputs).sinks[sink].failed
    ensures Carried(w, inputs, player, sink, carried)
    ensures RoomBroadcast.Run(w, inputs).sinks[sink].taken <= carried
  {
    RoomBroadcast.EveryStayIsDelivered(w, inputs, player, sink);
    RoomBroadcast.RunIsSound(w, inputs, sink);
    carried := RoomBroadcast.Run(w, inputs).sinks[sink].offered;
  }

  /** End to end, for every stay in every history of a connection: if the member's sink has not failed, the room events the
      client parses are a prefix of what the sink carried, in order, without gaps or repetitions, leaving out only what is
      too large for a frame; and this room's share of what the sink carried is its share before the stay, then exactly the
      stay's own slice of the room's log, then what came after. */
  lemma ClientParsesItsStay<S>(
    encode: RoomEvent -> seq<byte>, sink: S, lines: seq<Line<S>>, events: seq<Event<S>>,
    m: nat, n: nat, player: PlayerId, peerMax: nat) returns (carried: seq<RoomEvent>)
    requires IsHistory(encode, sink, lines, events) && m <= n < |lines|
    requires lines[0].p.max < U32 && lines[0].p.max <= peerMax
    requires RoomBroadcast.StaysWith(lines[m].w, InputsOf(sink, events[m..n]), player, sink)
    requires sink in lines[n].w.sinks && !lines[n].w.sinks[sink].failed
    ensures sink in lines[m].w.sinks && Carried(lines[m].w, InputsOf(sink, events[m..n]), player, sink, carried)
    ensures EventFrames(Parse(lines[n].p.wire, peerMax).frames)
         <= Outbound.LegalOnly(FramesOf(encode, carried), lines[n].p.max)
  {
    HistoryOk(encode, sink, lines, events, m);
    RoomPart(encode, sink, lines, events, m, n);
    carried := TakenIsCarried(lines[m].w, InputsOf(sink, events[m..n]), player, sink);
    ClientParsesWhatWasTaken(encode, sink, lines, events, n, peerMax);
    var taken := lines[n].w.sinks[sink].taken;
    FramesOfPrefix(encode, taken, carried);
    LegalPrefix(FramesOf(encode, taken), FramesOf(encode, carried), lines[n].p.max);
  }

  /** Nothing is under way between the room and the wire, and neither the sink nor the writer is gone. */
  predicate CaughtUp<S>(line: Line<S>, sink: S)
    requires sink in line.w.sinks
  {
    && line.w.sinks[sink].open && line.w.sinks[sink].queue == []
    && line.c.translator.Listening? && line.sending.None?
    && line.p.q.receiverOpen && line.p.q.frames == [] && line.p.pending == []
  }

  /** Nothing gets lost on a line that has caught up: in every history, the client has then parsed every room event its sink
      accepted, in order, leaving out only what is too large for a frame; and if the sink has not failed, that is every
      event it was ever offered. */
  lemma CaughtUpClientHasEverything<S>(
    encode: RoomEvent -> seq<byte>, sink: S, lines: seq<Line<S>>, events: seq<Event<S>>, n: nat, peerMax: nat)
    requires IsHistory(encode, sink, lines, events) && n < |lines| && lines[0].p.max < U32 && lines[0].p.max <= peerMax
    requires sink in lines[n].w.sinks && CaughtUp(lines[n], sink)
    ensures var s, p := lines[n].w.sinks[sink], lines[n].p;
            && EventFrames(Parse(p.wire, peerMax).frames) == Outbound.LegalOnly(FramesOf(encode, s.accepted), p.max)
            && (!s.failed ==> s.accepted == s.offered)
  {
    HistoryOk(encode, sink, lines, events, n);
    var s, p := lines[n].w.sinks[sink], lines[n].p;
    assert s.taken + [] == s.taken && p.popped + [] == p.popped;
    Outbound.PeerReads(p, peerMax);
    LegalEventFrames(p.accepted, p.max);
  }
}
