# LongshipX: verified model of the server's core

LongshipX is a long-connection game server. Its hard parts are small concurrent state machines that talk through
bounded FIFO queues, sticky signals and permits released on drop. This project models them in Dafny 4.11 and proves
what they promise, over every input, every interleaving and every reachable state. `dafny verify dfyconfig.toml`
checks everything.

## How the model is organised

| file | component |
|---|---|
| `Texts.dfy` | trimming a text to its core |
| `RoomAggregate.dfy` | the `Room` aggregate: a class over value functions |
| `RoomActor.dfy` | the event sink with its sticky failure flag; the actor as a fold of its commands; the event log |
| `RoomNames.dfy` | the names under which members speak, told from the event log |
| `RoomBroadcast.dfy` | the actor together with all sinks and their receivers: isolation and delivery |
| `RoomActorProgram.dfy` | the actor as the program holds it, on the heap, refining the fold |
| `RoomService.dfy` | the registry, the command queues, the actors and the service calls in flight, as one state machine |
| `RoomRegistry.dfy` | the registry map with its pruning lookups, refining the machine's registry steps |
| `RoomServiceInvariant.dfy` | what every step keeps; departures never fail |
| `RoomServiceOutcomes.dfy` | what every finished join and chat met, told from the queue, the registry and the actor's reply |
| `RoomShutdown.dfy` | `close_all` |
| `RoomServiceQuiescence.dfy` | what lingers in the registry at rest, and which cancellations can make it linger |
| `RoomServiceProgress.dfy` | rest is reached: progress, and a bound on the steps left |
| `RoomLeftovers.dfy`, `ConnectionLeftovers.dfy` | runs in which a cancelled call or a late clean-up leaves something behind |
| `RoomCleanup.dfy` | the clean-up after a dropped connection |
| `RoomHandlers.dfy` | the gateway's join and leave handlers on top of the service |
| `RoomRecords.dfy` | the room a connection has on record, told exactly from the history |
| `FrameCodec.dfy`, `Outbound.dfy` | framing, the outbound queue, the write task and the peer |
| `TokenStores.dfy` | the two session-token stores and the map they implement |
| `GatewaySessions.dfy` | connections that re-validate their session while logins and revocations go on |
| `RateLimit.dfy` | the token bucket |
| `Progression.dfy` | experience and levels |
| `Admission.dfy`, `AdmissionInvariant.dfy` | the per-address gate, the connection registry, the guard, and the life of connection tasks |
| `ConnectionCleanup.dfy` | connection tasks and the room service together: what a finished clean-up means for the rooms |
| `Delivery.dfy` | from a room's log to the frames a client parses |

Objects that the program updates in place are classes whose methods are proved against functions on values; the
lemmas are about those functions. Concurrent protocols are state machines: a state, a label per atomic step, and runs
that are sequences of steps. The steps of the room service are finer than one per `.await`, because the actor closes the
room, sends the reply and drops its queue one after the other while other threads may look; a send on the outbound queue
is split the same way into its check, its enqueueing and the raising of the signal.

Main results, by component:

- Rooms: `LeaveNeverFails`, `AtRestRegistryIsSound`, `RunsOutOfSteps`, `StuckIsAtRest`, `CleanupCompletes`,
  `RecordedRoomIsTheOnlyOne`, `RecordIsExact`, `JoinEndsForAReason`, `CloseAllTellsEveryRoom`, `EveryStayIsDelivered`,
  `FailsExactlyWhenChoked`, `SlowMemberIsIsolated`, `EveryLifeIsValid`, `EveryChatIsNamed`, `FirstComeFirstServed`,
  `RoomActor.Run`.
- Wire: `PeerGetsAPrefix`, `ParseIsExact`, `ParseAfterFrames`.
- Sessions: `StoresAgree`, `DeadStaysDead`, `EveryActIsValidated`, `FailureEndsTheConnection`, `RevocationTakesEffect`,
  `BoundPlayerNeverChanges`; and the other way round `CurrentTokenBinds`, `CurrentSessionIsServed`, `CurrentSessionIsTold`.
- Admission: `LimitsHold`, `TurnedAwayExactlyWhenFull`, `ReleasedExactlyOnce`, `EverythingIsReturned`,
  `DepartedPlayerIsOut`.
- End to end: `ClientParsesItsStay`, `CaughtUpClientHasEverything`.
- Arithmetic: `AdvertisedLimit`, `AdvertisedIsOptimal`, `GainsAddUpExactlyWhen`, `CommitsAddUp`.

Properties that do not hold without a condition, with the exact condition and an input at which they fail:

- An encoded frame reads back as itself if and only if its length fits the four-byte prefix (`ReadBackIffItFits`):
  `encode_frame` casts the length to 32 bits, so a payload of 2^32 - 2 bytes is misread (`OverlongFrameIsMisread`).
- Gaining a and then b is gaining a + b if and only if nothing saturates, or the first gain pays for no level, or b is
  zero (`GainsAddUpExactlyWhen`, `SaturatedGainsDoNotAddUp`).
- What a window refills is rate times its length if and only if the clock does not go back within it, and more otherwise
  (`RefillIsRateTimesLengthExactlyWhen`), so the advertised limit needs a clock that does not go back in the window
  (`AdvertisedLimit`, `BackwardClockBreaksTheLimit`); the bound on refills holds on every clock (`WindowBound`).
- The key-value server keeps a time-to-live as it is if and only if it is a positive whole number of milliseconds
  (`TtlIsKeptExactlyWhen`, `BrokenTtlDivides`).
- A refused connection leaves an entry in the gate's map if and only if the map had none for the address, which for a
  tidy map happens only when the limit is zero (`RefusalLeavesNoTraceExactlyWhen`, `ZeroLimitLeavesATrace`).
- From a shut queue a frame can still be accepted if and only if the receiver is there, the capacity is positive and some
  send had already passed its check (`ShutAcceptsExactlyWhen`, `SendRacesRefusal`).
- At rest a registered room is open with a member unless one of its calls was cancelled at a harmful point: a creation
  after registering and before its Join was queued, or while taking the room back, or a departure after its Leave was
  queued and before it evicted (`AtRestRegistryIsSound`, `CancelledCreationLingers`, `CancelledDepartureLingers`).
- An empty connection registry means that a bound connection's rooms were cleaned up if and only if its clean-up did not
  run into its deadline (`EmptyRegistryMeansSettled`, `TimedOutCleanupIsForgotten`,
  `LateCleanupLeavesThePlayerInside`).

Where code and documentation disagree, the model follows the code: `read_frame` is documented to return no frame when
the peer closes before the first byte, and in fact does so as well when the stream ends inside the four-byte prefix
(`StoppedBecause`, `ParseIsExact`).

Assumptions: room ids and tokens are never drawn twice; an actor task does not panic; a step of a channel, a mutex or an
atomic flag is atomic; seconds and tokens of the rate limiter are reals. `PeerGetsAPrefix` takes a frame limit below 2^32
and a peer whose limit is at least ours; beyond 2^32 `ReadBackIffItFits` says what happens.

## Model

| member | source | states |
|---|---|---|
| `RoomAggregate.WithoutRemoves` | crates/domain/src/room/aggregate.rs:130-138 | retaining everybody but one removes exactly that player, keeps duplicates out, and the length differs exactly when somebody was removed, which is what `try_leave` answers |
| `RoomAggregate.LeaveKeepsValid` | crates/domain/src/room/aggregate.rs:130-138 | a departure keeps the member list free of duplicates and within capacity |
| `RoomAggregate.LeaveUndoesJoin` | crates/domain/src/room/aggregate.rs:115-138 | leaving after a successful join answers true and restores the room exactly |
| `RoomAggregate.RoomRuns` | crates/domain/src/room/aggregate.rs:55-164 | over any sequence of calls: no duplicates, at most `max_players` members, a state that never goes back, and a closed room that never changes again |
| `RoomAggregate.Room.Open` | crates/domain/src/room/aggregate.rs:55-64 | a new room is empty and waiting, and its capacity is the number asked for, or one if that is zero |
| `RoomAggregate.FirstComeFirstServed` | crates/domain/src/room/aggregate.rs:55-128 | a room opened for n players, asked by any number of distinct players in turn, lets exactly the first n in, in order, and answers each later one that the room is full |
| `RoomAggregate.ClosedRoomRefuses` | crates/domain/src/room/aggregate.rs:115-138 | a closed room answers every join and leave with the closed error and does not change |
| `RoomAggregate.Room.Join` | crates/domain/src/room/aggregate.rs:115-128 | closed, member already, full, in that order; otherwise the player is appended; the invariant is kept |
| `RoomAggregate.Room.Leave` | crates/domain/src/room/aggregate.rs:130-138 | closed is an error; otherwise the player is out, and the answer tells whether it was in |
| `RoomAggregate.Room.Transition` | crates/domain/src/room/aggregate.rs:140-156 | exactly one step forward is allowed; otherwise an error and no change |
| `RoomAggregate.Room.Close` | crates/domain/src/room/aggregate.rs:158-164 | the room is closed afterwards and the answer tells whether it was not before |
| `RoomSinks.RoomEventSink.TrySend` | crates/application/src/room/sink.rs:21-25 | with the queue open and below its capacity the event is put at its end and the flag stays as it was; otherwise the queue stays as it was and the flag is up |
| `RoomSinks.LossIsSticky` | crates/application/src/room/sink.rs:21-25 | over any sequence of sends, receives and hang-ups: a lost event leaves the failure flag set for ever; without failure everything offered was queued, in order |
| `RoomSinks.FailsExactlyWhenChoked` | crates/application/src/room/sink.rs:21-25 | over any sequence of sends, receives and hang-ups: a sink that starts unfailed fails if and only if some send met a queue that was hung up or already held `capacity` events |
| `RoomSinks.KeepingUpLosesNothing` | crates/application/src/room/sink.rs:21-25 | so a receiver that never hangs up and never lags `capacity` behind is given every event, in order |
| `RoomSinks.TakingEmptiesTheQueue` | crates/application/src/room/sink.rs:21-25 | receiving as often as there are queued events hands out exactly those events and empties the queue |
| `RoomSinks.OfferAllKeepsValid` | crates/application/src/room/sink.rs:21-25 | a whole broadcast keeps the queue within capacity and its history consistent |
| `RoomSinks.OfferAllOnce` | crates/application/src/room/actor.rs:261-266 | a member alone on its sink is offered each event exactly once |
| `RoomActors.HandleKeepsValid` | crates/application/src/room/actor.rs:163-276 | every command on a live actor keeps the member map equal to the aggregate's members and the closed flag equal to its Closed state; it asks to stop exactly when the room closed; a leave always succeeds and says whether the player was in; exactly which players are members afterwards |
| `Texts.TrimIsCore` | crates/application/src/room/actor.rs:224-238 | trimming a text made of white space, a core that neither starts nor ends with white space, and white space, gives that core |
| `Texts.EveryTextHasACore` | crates/application/src/room/actor.rs:224-238 | every text is made up that way, so what a chat says is told for every text |
| `RoomActors.ChatSaysTheCore` | crates/application/src/room/actor.rs:224-238 | a member's chat with a core of one to 512 characters broadcasts exactly one event: room, sender, the member's nickname, the core; any other chat broadcasts nothing |
| `RoomActors.CommandsSay` | crates/application/src/room/actor.rs:190-276 | exactly what a join, a leave and a closing announce, in which order and to whom, told from who was a member |
| `RoomActors.HandleExtendsLog` | crates/application/src/room/actor.rs:190-276 | the events a command broadcasts extend the log so that replaying it still gives the members, with the closing at most once and last |
| `RoomActors.ServeKeepsValid` | crates/application/src/room/actor.rs:153-188 | one turn of the loop keeps the whole transcript consistent, and the second `finish` of a stopping actor adds nothing |
| `RoomActors.HearKeepsValid` | crates/application/src/room/actor.rs:153-161 | the same when every sender is gone and the actor finishes |
| `RoomActors.EveryLifeIsValid` | crates/application/src/room/actor.rs:153-276 | after every prefix of every command sequence: members map and aggregate agree, without duplicates and within capacity; the flag is the Closed state; a finished actor has logged exactly one closing, as its last event; the log rebuilds the membership |
| `RoomNames.EveryChatIsNamed` | crates/application/src/room/actor.rs:190-238 | in every life of a room each chat lies in a stay of its sender that began under the very nickname it is said under |
| `RoomBroadcast.ActorIgnoresSinks` | crates/application/src/room/actor.rs:163-276 | state, replies and log are a fold of the commands alone, whatever the sinks do |
| `RoomBroadcast.OneSinkAlone` | crates/application/src/room/actor.rs:261-266 | a sink evolves exactly as if everything about the other sinks were erased |
| `RoomBroadcast.SlowMemberIsIsolated` | crates/application/src/room/actor.rs:261-266 | two runs that agree on the commands and on one sink's own receiver agree on that sink: a slow or dead member cannot change what others are given |
| `RoomBroadcast.SoleUserHears` | crates/application/src/room/actor.rs:261-266 | one signal offers a sink that one player alone uses in the room exactly what that player hears of it, and nothing else |
| `RoomBroadcast.EveryRunKeepsTrack` | crates/application/src/room/actor.rs:190-276 | from any point of any run, with any sink and with other rooms offering to it: as long as the members using it are at most one player, the room offers it exactly what the log says that player hears |
| `RoomBroadcast.MemberHearsItsPartOfTheLog` | crates/application/src/room/sink.rs:21-25 | the same, whatever the sink carried before: if it never failed, all of that was queued and what was received is a prefix of it; anything lost leaves the flag up |
| `RoomBroadcast.InsideIsReplayed` | crates/application/src/room/actor.rs:190-259 | being inside according to the log is being among the members it rebuilds |
| `RoomBroadcast.EveryStayIsOneSlice` | crates/application/src/room/actor.rs:190-276 | for every coherent log and every joining in it: that stay was heard as one contiguous slice, from its own joining to its own leaving, plus the closing if the member was the last one out; nothing is heard after it unless the member joins again |
| `RoomBroadcast.EveryStayIsDelivered` | crates/application/src/room/actor.rs:190-276 | for every stay of every player in every run, rejoining, a reused sink, a new connection and events of other rooms on the same sink included: the stay adds exactly that slice to the room's share of the sink, in order, without gap or repetition; with no failure all of it was queued. Only while the stay lasts must nobody else in the room use the sink |
| `RoomBroadcast.EveryRunIsSound` | crates/application/src/room/actor.rs:153-276 | every run from an opened room reaches only worlds the two lemmas above speak about |
| `RoomActorProgram.TellAll` | crates/application/src/room/actor.rs:261-266 | visiting the members in any order offers the event to every sink once per member that uses it |
| `RoomActorProgram.RoomActor.constructor` | crates/application/src/room/actor.rs:134-151 | a spawned actor has no members, has never had any, and is not closed |
| `RoomActorProgram.RoomActor.Broadcast` | crates/application/src/room/actor.rs:261-266 | every sink is told according to who is a member now; the log grows by the event |
| `RoomActorProgram.RoomActor.FinishRoom` | crates/application/src/room/actor.rs:268-276 | closing is announced only if the room was open, members stay, and the flag is set |
| `RoomActorProgram.RoomActor.Join` | crates/application/src/room/actor.rs:190-222 | the heap is the effect of the join on values: a newcomer is added before the announcement, a repeated join keeps the first sink |
| `RoomActorProgram.RoomActor.Chat` | crates/application/src/room/actor.rs:224-238 | only members speak, and only trimmed, non-empty texts of bounded length are broadcast |
| `RoomActorProgram.RoomActor.Leave` | crates/application/src/room/actor.rs:240-259 | the leaver hears its own departure, and the closing if it was the last, before it is dropped from the map |
| `RoomActorProgram.RoomActor.HandleCommand` | crates/application/src/room/actor.rs:163-188 | state, reply, log, every sink and the decision to stop are those of the value model |
| `RoomActorProgram.RoomActor.Run` | crates/application/src/room/actor.rs:153-161 | the loop over a whole command queue, on the heap, refines the fold: state, log, replies and the contents of every sink |
| `RoomService.CallIsLocal` | crates/application/src/room/service.rs:55-225 | a step of one call leaves the other calls, their replies and every actor alone, and lengthens at most one queue, by at most one command |
| `RoomServiceInvariant.StepOk` | crates/application/src/room/service.rs:55-225 | every step of every call and actor, aborts included, keeps the invariant: replies reach the calls that wait for them, queues are bounded, actors are consistent, unregistered rooms are untouched |
| `RoomServiceInvariant.LostDepartureFindsClosed` | crates/application/src/room/service.rs:147-163 | in every state that satisfies the invariant, a departing call that finds its send refused or its reply dropped finds the room closed and goes on to evict it |
| `RoomServiceInvariant.RunOk` | crates/application/src/room/service.rs:55-225 | the invariant holds in every reachable state |
| `RoomServiceInvariant.LeaveNeverFails` | crates/application/src/room/service.rs:131-183 | in every run, aborts included, `leave` and `leave_all` return Ok: the RoomClosed error, the failed send on an open room and the reply lost from an open room are unreachable |
| `RoomServiceInvariant.LostReplyMeansClosed` | crates/application/src/room/actor.rs:153-188 | a stopped actor's room is closed, no command is served on a closed room, and a reply can be lost only with the actor |
| `RoomServiceOutcomes.JoinFailsExactlyWhen` | crates/application/src/room/service.rs:55-103 | a join fails with an error exactly when it meets it: no available room or no actor (not found), the aggregate's own refusal, or a reply that will never come (unknown); a creating one takes its room back first |
| `RoomServiceOutcomes.JoinGoesOnExactlyWhen` | crates/application/src/room/service.rs:72-103 | and otherwise goes on: an available room leads to the send, a send puts exactly this Join at the end of the queue, a welcome leads to success |
| `RoomServiceOutcomes.JoinEndsForAReason` | crates/application/src/room/service.rs:55-103 | in every run a join that succeeded was welcomed by the actor of the very room it reports, and one that failed had met the error it reports |
| `RoomServiceOutcomes.ChatEndsExactlyWhen` | crates/application/src/room/service.rs:105-129 | each outcome of a chat, told from the core of its text, the registry, the actor and its queue; an accepted one puts exactly the core at the end of the queue |
| `RoomShutdown.CloseAllTellsEveryRoom` | crates/application/src/room/service.rs:185-202 | in every run, draining leaves no room registered, and when `close_all` is over every room that was registered is closed or has the closing, with the reason given, in its queue |
| `RoomServiceQuiescence.EvictionProceeds` | crates/application/src/room/service.rs:158-169 | the departure that emptied a room is never stuck, and its next steps unregister the room |
| `RoomServiceQuiescence.StepTends` | crates/application/src/room/service.rs:55-225 | every step, cancellations included, keeps: a registered room is open with members, on its way to its first member, being evicted, or excused by a call cancelled at a point where only that call would have put things right |
| `RoomServiceQuiescence.ClosedRoomIsBeingEvicted` | crates/application/src/room/service.rs:131-183 | in every run, cancellations included, a closed room still in the registry has an in-flight departure that will remove it, unless a call on it was cancelled at a harmful point |
| `RoomServiceQuiescence.AtRestRegistryIsSound` | crates/application/src/room/service.rs:55-225 | in every quiescent state of every run, cancellations included: every open room is registered, and a registered room that is closed or empty had a creation cancelled after registering and before its Join was queued, or while taking the room back, or a departure cancelled after its Leave was queued and before it evicted |
| `RoomServiceQuiescence.AtRestRegistryIsExact` | crates/application/src/room/service.rs:55-225 | hence without such a cancellation, harmless ones allowed, the registered rooms at rest are exactly the open rooms, each with at least one member |
| `RoomLeftovers.CancelledCreationLingers` | crates/application/src/room/service.rs:55-70 | a run in which a creation is cancelled right after registering: at rest the room is registered, open and empty |
| `RoomLeftovers.CancelledDepartureLingers` | crates/application/src/room/service.rs:131-175 | a run in which the last member's departure is cancelled once its Leave is queued: at rest the room is closed and still registered |
| `RoomServiceProgress.CallCanAdvance` | crates/application/src/room/service.rs:55-225 | once no actor has anything to do, every unfinished call can go on |
| `RoomServiceProgress.SomebodyCanStep` | crates/application/src/room/service.rs:55-225 | unless everything is at rest, some call or actor can take a step, without a new call and without cancelling one |
| `RoomServiceProgress.StepCosts` | crates/application/src/room/service.rs:55-225 | every step other than a new call makes a weight on calls and queues smaller |
| `RoomServiceProgress.RunsOutOfSteps` | crates/application/src/room/service.rs:55-225 | in every run, from any point on, the number of further steps without new calls is bounded by that weight |
| `RoomServiceProgress.StuckIsAtRest` | crates/application/src/room/service.rs:55-225 | a reachable state in which nobody can step is at rest; so rest is reached whenever calls stop coming |
| `RoomRegistry.Registry.HandleFor` | crates/application/src/room/service.rs:208-219 | a handle is found exactly for a registered room that is not closed; a closed one is removed on sight and nothing else changes; this is the lookup step of the machine |
| `RoomRegistry.Registry.LiveHandles` | crates/application/src/room/service.rs:221-225 | exactly the closed rooms are dropped, and every remaining handle is returned exactly once |
| `RoomRegistry.Registry.Drain` | crates/application/src/room/service.rs:186-191 | every handle is returned exactly once and the registry is empty |
| `RoomRegistry.Registry.Insert` | crates/application/src/room/service.rs:61-64 | registering a fresh room is the machine's registering step |
| `RoomRegistry.Registry.Remove` | crates/application/src/room/service.rs:164-166 | removing a room is the machine's evicting step |
| `RoomCleanup.HandleKeepsCover` | crates/application/src/room/actor.rs:163-188 | serving the queue keeps the clean-up ahead: its Leave stays behind every Join of the player, or the room is clear |
| `RoomCleanup.StepTidies` | crates/application/src/room/service.rs:131-183 | every step of anybody keeps every open listed room covered by the departing call |
| `RoomCleanup.CleanupClears` | crates/application/src/room/service.rs:177-183 | once nothing in flight can join for the player, a `leave_all` that completes leaves it in no open registered room, with nothing queued that would put it there |
| `RoomCleanup.CleanupCompletes` | crates/gateway/src/tcp/lifecycle.rs:65-86 | at whatever point the connection's call is aborted, mid-join included, the `leave_all` that follows succeeds and leaves the player in no open registered room |
| `RoomHandlers.HappensOk` | crates/gateway/src/tcp/handlers.rs:78-167 | every handler step, every background step, every drop of a connection in the middle of a request and every step of its clean-up keeps each player's memberships within what its connection recorded or is waiting for |
| `RoomHandlers.CleanSlate` | crates/gateway/src/tcp/lifecycle.rs:36-86 | a completed clean-up leaves a state a new connection of the player can start from |
| `RoomHandlers.RecordedRoomIsTheOnlyOne` | crates/gateway/src/tcp/handlers.rs:78-167 | with one connection per player at a time, dropped connections and reconnects after the clean-up included, between requests the open registered rooms a player is in are contained in `current_room`, so there is at most one |
| `RoomRecords.RecordIsExact` | crates/gateway/src/tcp/handlers.rs:78-167 | in every history, at every point, a player is connected with a room on record if and only if that is the room of its last successful join, since which the connection was not dropped and no successful leave of that room, or of all rooms, was answered |
| `RoomRecords.FreeAfterLeaving` | crates/gateway/src/tcp/handlers.rs:98-167 | after a successful leave of the recorded room nothing is on record, and the next join or creation the player asks for begins a call |
| `RoomRecords.JoinedWhatWasAsked` | crates/gateway/src/tcp/handlers.rs:78-122 | a player told that it has joined has the very room on record that it asked for, or the one created for it |
| `FrameCodec.BytesRoundTrip` | crates/net-kit/src/codec.rs:44-61 | big-endian bytes give the number back when it fits |
| `FrameCodec.BytesDetermined` | crates/net-kit/src/codec.rs:63-81 | bytes are determined by the number they denote |
| `FrameCodec.LengthRoundTrip` | crates/net-kit/src/codec.rs:44-81 | the decoded length prefix is the length modulo 2^32 |
| `FrameCodec.ReadBack` | crates/net-kit/src/codec.rs:44-102 | a legal frame reads back as itself whatever follows it |
| `FrameCodec.ReadBackIffItFits` | crates/net-kit/src/codec.rs:44-102 | an encoded frame reads back as itself if and only if its length fits the prefix |
| `FrameCodec.OverlongFrameIsMisread` | crates/net-kit/src/codec.rs:44-81 | a payload of 2^32 - 2 bytes declares length zero and is refused as malformed |
| `FrameCodec.ReadIsExact` | crates/net-kit/src/codec.rs:83-102 | a frame that was read is exactly what its bytes encode, and is legal |
| `FrameCodec.StoppedBecause` | crates/net-kit/src/codec.rs:63-102 | the outcome of a failed read, told from the bytes: fewer than four bytes, too short, too large, or truncated |
| `FrameCodec.ParseIsExact` | crates/net-kit/src/codec.rs:83-102 | for every byte stream the frames read encode exactly the prefix used up; a quiet end leaves fewer than four bytes, any other end a bad length or a truncated body |
| `FrameCodec.ParseAfterFrames` | crates/net-kit/src/codec.rs:44-102 | concatenated encodings of legal frames read back as those frames, and what follows is parsed as if it stood alone |
| `FrameCodec.CutFrameIsUnread` | crates/net-kit/src/codec.rs:83-102 | a frame cut short is never mistaken for a frame |
| `FrameCodec.ByteStream.ReadFrame` | crates/net-kit/src/codec.rs:83-102 | the reads on the stream give what the head of the stream denotes |
| `FrameCodec.ByteStream.ReadAll` | crates/net-kit/src/codec.rs:83-102 | the reading loop returns exactly the parsed frames and the error that ended it |
| `Outbound.OutboundSender.TrySendFrame` | crates/net-kit/src/backpressure.rs:30-44 | accepted at the end of the queue exactly when open, not disconnected and not full; closed is reported exactly when it was shut, full exactly when it was open without room, which disconnects; the queue stays within capacity |
| `Outbound.StepOk` | crates/net-kit/src/connection.rs:37-93 | every step keeps: accepted frames are those taken plus those queued, and the wire plus the bytes in hand are the encodings of the legal frames taken |
| `Outbound.UndisturbedSend` | crates/net-kit/src/backpressure.rs:30-44 | a send that nobody disturbs, taken through its separate steps, does what the method does |
| `Outbound.StepIsMonotone` | crates/net-kit/src/connection.rs:37-93 | nothing accepted or written is ever taken back; a shut queue stays shut; an exited writer stays exited |
| `Outbound.PeerReads` | crates/net-kit/src/connection.rs:72-93 | from the bytes on the wire a peer parses a prefix of the legal frames taken, and all of them when no frame is half written |
| `Outbound.PeerGetsAPrefix` | crates/net-kit/src/connection.rs:37-93 | for every schedule of sends, overflow, disconnect, socket error and drain timeout, the peer parses a prefix of the accepted frames of legal size, in order, without gaps or duplicates; all of them if the writer finished by itself |
| `Outbound.ShutLetsOnlyPassedSendsThrough` | crates/net-kit/src/backpressure.rs:30-60 | once the signal is up or the receiver is gone, the frames still accepted number at most the sends that had already passed their check |
| `Outbound.RefusalIsFinal` | crates/net-kit/src/backpressure.rs:30-60 | after a reported refusal at most those sends are still accepted, and none if there are none; the queue stays within capacity |
| `Outbound.ShutAcceptsExactlyWhen` | crates/net-kit/src/backpressure.rs:30-60 | in every run, from a shut queue some continuation still accepts a frame if and only if the receiver is there, the capacity is positive and some send had passed its check |
| `Outbound.SendRacesRefusal` | crates/net-kit/src/backpressure.rs:30-44 | a run in which a send that had passed its check is accepted after another was told that the queue is full |
| `Outbound.ExitIsFinal` | crates/net-kit/src/connection.rs:49-61 | once the writer is gone the wire never changes |
| `Outbound.WriteTask` | crates/net-kit/src/connection.rs:72-93 | frames are written and flushed in turn, too large ones skipped; the socket gets the encodings of the frames attempted before a write or a flush failed, cut exactly where a write failed |
| `TokenStores.InMemoryTokenStore.RevokePlayer` | crates/infrastructure/src/cache/memory_token_store.rs:90-98 | every token of the player is removed from both maps |
| `TokenStores.InMemoryTokenStore.Create` | crates/infrastructure/src/cache/memory_token_store.rs:55-79 | an expiry beyond the clock is refused without change; otherwise the old tokens go and the new one is the only one |
| `TokenStores.InMemoryTokenStore.Resolve` | crates/infrastructure/src/cache/memory_token_store.rs:81-88 | an entry counts only while its expiry lies ahead |
| `TokenStores.InMemoryTokenStore.LiveTokens` | crates/infrastructure/src/cache/memory_token_store.rs:34-39 | afterwards exactly the entries whose expiry lies ahead are there, unchanged, and the answer is their number |
| `TokenStores.RedisTokenStore.RevokeScript` | crates/infrastructure/src/cache/redis_token_store.rs:84-100 | the script deletes every token of the player's index and the index |
| `TokenStores.RedisTokenStore.Create` | crates/infrastructure/src/cache/redis_token_store.rs:42-71 | a time-to-live is refused, without change, exactly if its whole milliseconds exceed half of the largest 64-bit integer; otherwise the old tokens go and both keys expire together, after at least one millisecond |
| `TokenStores.TtlIsTruncated` | crates/infrastructure/src/cache/redis_token_store.rs:44-48 | the guard in nanoseconds, and what the server makes of a time-to-live: its whole milliseconds, but at least one |
| `TokenStores.RedisTokenStore.Resolve` | crates/infrastructure/src/cache/redis_token_store.rs:73-82 | a player while the key has not expired, nothing when it is absent or expired, an error when it does not hold a player id |
| `TokenStores.TtlIsKeptExactlyWhen` | crates/infrastructure/src/cache/redis_token_store.rs:44-48 | the server keeps a time-to-live as it is if and only if it is a positive whole number of milliseconds |
| `TokenStores.BrokenTtlDivides` | crates/infrastructure/src/cache/redis_token_store.rs:44-48 | with one and a half milliseconds the two stores disagree after one |
| `TokenStores.MemoryCreateFits` | crates/infrastructure/src/cache/memory_token_store.rs:55-79 | a login in memory leaves exactly the map with that player's session replaced |
| `TokenStores.DatabaseRevokeFits` | crates/infrastructure/src/cache/redis_token_store.rs:84-100 | the revoking script leaves exactly the map without that player's session |
| `TokenStores.DatabaseCreateFits` | crates/infrastructure/src/cache/redis_token_store.rs:42-71 | the login script leaves exactly the map with that player's session replaced |
| `TokenStores.EvictFits` | crates/infrastructure/src/cache/redis_token_store.rs:73-82 | the server dropping an expired key is invisible |
| `TokenStores.StepOk` | crates/infrastructure/src/cache/memory_token_store.rs:34-98 | logins, revocations, pruning, expiry and eviction keep both stores refining one map |
| `TokenStores.StoresAgree` | crates/infrastructure/src/cache/redis_token_store.rs:42-100 | after any history, at any later instant, both stores resolve a token exactly when it is its player's current unexpired token, and the server never reports corrupt data |
| `TokenStores.OneTokenPerPlayer` | crates/infrastructure/src/cache/memory_token_store.rs:54-98 | at most one token per player resolves, and to that player only |
| `TokenStores.OthersAreUntouched` | crates/infrastructure/src/cache/memory_token_store.rs:54-98 | a login or a revocation changes nobody else's session |
| `TokenStores.SessionEndsExactlyWhen` | crates/infrastructure/src/cache/memory_token_store.rs:54-98 | a session ends exactly by its player's revocation, its player's next login, or its expiry |
| `TokenStores.DeadStaysDead` | crates/infrastructure/src/cache/memory_token_store.rs:54-98 | a token that stopped resolving never resolves again |
| `GatewaySessions.StepOk` | crates/gateway/src/tcp/handler.rs:97-128 | every step keeps: a validation in flight is about the connection's own player and token, binding happens only while unbound, the room events queued are those received in order, and the tasks end with the connection |
| `GatewaySessions.BoundPlayerNeverChanges` | crates/gateway/src/tcp/context.rs:69-73 | once bound, a connection is bound to that player and token for the rest of the run |
| `GatewaySessions.BoundByOwnToken` | crates/gateway/src/tcp/handlers.rs:17-61 | a connection is bound only after the store found the presented token to be that player's current unexpired one |
| `GatewaySessions.GateDecides` | crates/gateway/src/tcp/handler.rs:201-243 | what the gate does with a frame: throttled or undecodable ends the reader, a bound connection validates its session first, an unbound one may only bind |
| `GatewaySessions.LoadingBinds` | crates/gateway/src/tcp/handlers.rs:42-61 | a player that is found is bound, with the token presented; one that is not found leaves the connection unbound |
| `GatewaySessions.CurrentTokenBinds` | crates/gateway/src/tcp/handlers.rs:17-61 | in every run, however other steps interleave: an unbound connection that presents a player's current unexpired token, with an answer in time and the player found, is bound to exactly that player and token |
| `GatewaySessions.CurrentSessionIsServed` | crates/gateway/src/tcp/handler.rs:232-256 | in every run a request of a bound connection whose token is current when the store answers, in time, is dispatched |
| `GatewaySessions.CurrentSessionIsTold` | crates/gateway/src/tcp/handler.rs:259-283 | in every run a room event for a bound connection whose token is current when the store answers, in time and with room in the send queue, is queued |
| `GatewaySessions.ValidatedWhen` | crates/gateway/src/tcp/context.rs:75-92 | a validation that stands was answered at an instant when the token was current, and its task did nothing since |
| `GatewaySessions.ActNeedsValidation` | crates/gateway/src/tcp/handler.rs:232-283 | a message is dispatched and an event queued only on a validation that stands, which is used up by it |
| `GatewaySessions.EveryActIsValidated` | crates/gateway/src/tcp/handler.rs:201-283 | in every run each message dispatched other than Bind and each room event queued follows its own validation, at which the connection's own token was its player's current unexpired token |
| `GatewaySessions.ValidationDecides` | crates/gateway/src/tcp/handler.rs:232-271 | a refusal, a store error or a timeout lets nothing through and ends its task; success lets the message through, except a second Bind |
| `GatewaySessions.FailureIsFinal` | crates/gateway/src/tcp/handler.rs:201-283 | after a failed validation that task never lets anything through again |
| `GatewaySessions.SelectStaysReady` | crates/gateway/src/tcp/handler.rs:103-106 | once either task has ended the connection can leave its select, and this stays so until it does |
| `GatewaySessions.BeyondSelect` | crates/gateway/src/tcp/handler.rs:103-114 | after the select nothing is dispatched any more; after the clean-up and the translator's abort nothing is queued any more |
| `GatewaySessions.FailureEndsTheConnection` | crates/gateway/src/tcp/handler.rs:97-128 | in every run a validation that fails in either task, by refusal, store error or timeout, ends the connection: that task is over, the select can be left until it is, from then on nothing is dispatched, and after the clean-up nothing is queued |
| `GatewaySessions.RevocationTakesEffect` | crates/gateway/src/tcp/context.rs:75-92 | once its token has expired, been revoked or been replaced, a connection lets through at most one more message and one more event, and only if that one's validation was already answered |
| `RateLimit.TokenBucket.New` | crates/gateway/src/tcp/rate_limit.rs:13-24 | no bucket when disabled or when rate or burst is zero; otherwise a full one with the configured burst and rate |
| `RateLimit.TokenBucket.TryAcquire` | crates/gateway/src/tcp/rate_limit.rs:27-39 | refill by the elapsed time up to capacity, then take one token if there is one |
| `RateLimit.LevelIsTheTightestWindow` | crates/gateway/src/tcp/rate_limit.rs:27-39 | the level before a decision is the smallest allowance of any window that ends there |
| `RateLimit.BucketDecides` | crates/gateway/src/tcp/rate_limit.rs:27-39 | the program's decisions are those of that level |
| `RateLimit.RefusedExactlyWhenAWindowIsFull` | crates/gateway/src/tcp/rate_limit.rs:27-39 | a call is refused if and only if some earlier call starts a window with no room for one more |
| `RateLimit.WindowBound` | crates/gateway/src/tcp/rate_limit.rs:27-39 | every window grants at most burst plus what was refilled, on any clock |
| `RateLimit.RefillIsRateTimesLengthExactlyWhen` | crates/gateway/src/tcp/rate_limit.rs:27-33 | what a window refills is at least rate times its length, and exactly that if and only if the clock does not go back within it |
| `RateLimit.AdvertisedLimit` | crates/gateway/src/tcp/rate_limit.rs:13-39 | a window within which the clock does not go back grants at most burst + rate * length |
| `RateLimit.AdvertisedRefusal` | crates/gateway/src/tcp/rate_limit.rs:13-39 | if the clock has not gone back so far, a call is refused exactly when some window that ends at it has less than one left of burst + rate * length |
| `RateLimit.BackwardClockBreaksTheLimit` | crates/gateway/src/tcp/rate_limit.rs:32 | a clock that goes back moves `last_refill` back and two grants fit where one is allowed |
| `RateLimit.BucketIsOptimal` | crates/gateway/src/tcp/rate_limit.rs:27-39 | no limiter that respects the bound on every window has granted more, after any number of calls |
| `RateLimit.AdvertisedIsOptimal` | crates/gateway/src/tcp/rate_limit.rs:13-39 | on every clock, no limiter that keeps every window within burst + rate * length has granted more |
| `Progression.Player.GainExp` | crates/domain/src/player/aggregate.rs:101-114 | the loop ends in the settled standing and returns the new level exactly when it rose |
| `Progression.SettleConserves` | crates/domain/src/player/aggregate.rs:101-114 | settling conserves 50 * level * (level - 1) + exp, ends in normal form and never lowers the level |
| `Progression.NormalFormIsUnique` | crates/domain/src/player/aggregate.rs:101-114 | a total has only one normal form |
| `Progression.GainIsExact` | crates/domain/src/player/aggregate.rs:101-114 | a gain is exactly the one normal standing, between the old level and the top, worth what was there plus what was credited; above the top level the level stays |
| `Progression.GainsAddUpExactlyWhen` | crates/domain/src/player/aggregate.rs:101-114 | gaining a then b is gaining a + b if and only if nothing saturates, or the first gain pays for no level, or b is zero |
| `Progression.SaturatedGainsDoNotAddUp` | crates/domain/src/player/aggregate.rs:101-114 | at level one with a full u64 of experience, two gains of one differ from one gain of two |
| `Progression.CommitsAddUp` | crates/infrastructure/src/persistence/repositories/memory_repos.rs:119-143 | any interleaving of awards and logins, absent saturation, ends like one award of the sum and the last login |
| `Progression.ReportsIncrease` | crates/application/src/player/progression.rs:20-44 | the levels reported strictly increase in commit order and the last one is the stored level |
| `Progression.PlayersAreIndependent` | crates/infrastructure/src/persistence/repositories/memory_repos.rs:119-143 | a player ends where its own commits take it, whatever the interleaving |
| `Progression.PlayerRepository.GainExp` | crates/infrastructure/src/persistence/repositories/memory_repos.rs:119-130 | an unknown player changes nothing; otherwise one award is committed and its level report returned |
| `Progression.PlayerRepository.RecordLogin` | crates/infrastructure/src/persistence/repositories/memory_repos.rs:132-143 | an unknown player changes nothing; otherwise the login is committed |
| `Progression.GainExpUseCase.Execute` | crates/application/src/player/progression.rs:20-44 | validation, commit, then publication of the committed level; a failed publication is reported and the commit stands |
| `Gates.AuthGate.Acquire` | crates/gateway/src/tcp/auth_gate.rs:39-47 | a slot is taken exactly while the address is below its limit; the entry is made first |
| `Gates.AuthGate.Release` | crates/gateway/src/tcp/auth_gate.rs:50-58 | one slot is given back, never below zero, and an empty entry is removed |
| `Gates.ReleaseUndoesAcquire` | crates/gateway/src/tcp/auth_gate.rs:39-58 | a release gives back exactly what was acquired and touches no other address |
| `Gates.RefusalLeavesNoTraceExactlyWhen` | crates/gateway/src/tcp/auth_gate.rs:39-47 | a refusal changes the map exactly if it had no entry for the address, and then the limit is zero |
| `Gates.ZeroLimitLeavesATrace` | crates/gateway/src/tcp/auth_gate.rs:39-47 | with limit zero and an empty map, a refusal leaves an entry of zero |
| `Gates.ConnectionRegistry.BeginDrain` | crates/gateway/src/tcp/connections.rs:28-32 | the sender goes, the entry stays, and no other entry changes |
| `Gates.ConnectionRegistry.Remove` | crates/gateway/src/tcp/connections.rs:24-26 | the entry goes, and the sender is handed back if it was still there |
| `Gates.ConnectionRegistry.DrainThenRemove` | crates/gateway/src/tcp/connections.rs:24-32 | a connection that began to drain hands back no sender when it is removed |
| `Lifecycle.ConnectionGuard.Drop` | crates/gateway/src/tcp/lifecycle.rs:65-86 | writer and translator are aborted, and the drop is the machine's loss of the entry: a bound connection that was not cleaned up stays registered and a clean-up is spawned; otherwise it is removed |
| `AdmissionInvariant.StepOk` | crates/gateway/src/tcp/handler.rs:60-128 | every step of every task, aborts included, keeps counters equal to live permits, the registry equal to the connections still to be removed, and each stage to what it may hold |
| `AdmissionInvariant.LimitsHold` | crates/gateway/src/tcp/server.rs:68-103 | in every run, running handlers never exceed `max_connections`, handshakes never exceed `accept_concurrency`, and the count of an address is its live permits, covers its unauthenticated connections and never exceeds the limit |
| `AdmissionInvariant.TurnedAwayExactlyWhenFull` | crates/gateway/src/tcp/server.rs:68-103 | in every run a connection is taken on exactly while fewer than `max_connections` run, passes the gate exactly while its address has a permit left, and begins its handshake exactly while a slot is left |
| `AdmissionInvariant.RoomForOneMore` | crates/gateway/src/tcp/server.rs:68-103 | with room under all three limits, an uninterrupted connection whose handshake succeeds is served: listed with its sender, its slot given back, its permits held, nobody else touched |
| `AdmissionInvariant.SenderGoesWithTheCleanup` | crates/gateway/src/tcp/handler.rs:109-110 | in every run a listed connection has a sender for broadcasts if and only if its own clean-up has not ended |
| `AdmissionInvariant.OutcomeIsRecorded` | crates/gateway/src/tcp/lifecycle.rs:42-63 | in every run the record of completed and of timed-out clean-ups is exactly what the steps that ended them say |
| `AdmissionInvariant.OneCleanupEnds` | crates/gateway/src/tcp/lifecycle.rs:36-86 | at most one clean-up of a connection ends |
| `AdmissionInvariant.EmptyRegistryMeansSettled` | crates/gateway/src/tcp/lifecycle.rs:42-86 | a bound connection is listed until its clean-up has ended; with an empty registry it was completed if and only if it did not run out of time |
| `AdmissionInvariant.TimedOutCleanupIsForgotten` | crates/gateway/src/tcp/lifecycle.rs:52-80 | a run that ends with an empty registry although a bound connection's clean-up was not completed |
| `ConnectionCleanup.HappensOk` | crates/gateway/src/tcp/lifecycle.rs:36-86 | every step of the connection tasks and the room service together keeps: whatever may still let a player in is the call of its serving connection, and the clean-up of its last connection covers every open listed room |
| `ConnectionCleanup.DepartedPlayerIsOut` | crates/gateway/src/tcp/lifecycle.rs:36-86 | in every history, once the clean-up of a player's last connection is completed, the player is in no open registered room and nothing queued will put it there, until it connects again |
| `ConnectionCleanup.EmptyRegistryMeansOut` | crates/gateway/src/tcp/lifecycle.rs:36-86 | with an empty registry, every player whose last clean-up did not run out of time is in no open registered room |
| `ConnectionLeftovers.LateCleanupLeavesThePlayerInside` | crates/gateway/src/tcp/lifecycle.rs:52-80 | a history that ends with an empty connection registry and a player still inside an open registered room, its clean-up having run out of time |
| `AdmissionInvariant.EverythingIsReturned` | crates/net-kit/src/listener.rs:103-135 | when all tasks and clean-ups are over, both semaphores are full, the registry is empty, and the gate is empty unless its limit is zero |
| `AdmissionInvariant.TakenOnce` | crates/gateway/src/tcp/auth_gate.rs:13-58 | per task and resource, acquisitions minus releases is what is held, and there is at most one acquisition |
| `AdmissionInvariant.ReleasedExactlyOnce` | crates/gateway/src/tcp/handler.rs:60-128 | at whatever point tasks are aborted, each permit, slot and registry entry is released at most once, and exactly once by the time the task and its clean-up are over |
| `Delivery.HappensOk` | crates/gateway/src/tcp/handler.rs:259-283 | every step of room, connection, translator and send queue together keeps: the translator received what the sink handed out, and the room events among the accepted frames are those it queued |
| `Delivery.ClientParsesWhatWasTaken` | crates/gateway/src/tcp/handler.rs:259-283 | in every history the room events a client parses are a prefix of what its sink handed out, in order, leaving out only what is too large for a frame |
| `Delivery.ClientParsesItsStay` | crates/gateway/src/tcp/handler.rs:259-283 | end to end, for every stay in every history of a connection: if the member's sink has not failed, they are a prefix of what the sink carried, and this room's share of that is its share before the stay, then exactly the stay's own slice of the room's log, then what came after |
| `Delivery.CaughtUpClientHasEverything` | crates/gateway/src/tcp/handler.rs:259-283 | in every history, once nothing is under way between the room and the wire, the client has parsed every room event its sink accepted, in order, leaving out only what is too large for a frame; if the sink has not failed, every event it was offered |

## Left out

- TLS, sockets, listener options, HTTP routes and redirects: input and output over foreign libraries.
- Protobuf messages, the opcode router and error-code mapping: payloads are opaque, a message is a Bind or a request.
- SeaORM repositories, migrations, the audit log and server connections: only the two scripts are kept, as atomic updates of a map with expiry.
- Argon2, random tokens and UUIDs: fresh values are parameters.
- Configuration, metrics, tracing, benches and the example client are not modelled.
- Value-object validation, account status, model converters and the expiry of idle sessions are not modelled.
- Wall-clock liveness: timeouts are steps that may happen, so meeting a deadline is not proved; `RoomHandlers` lets a player connect again only after a completed clean-up.
- Several connections of one player at the same time: `RoomHandlers`, `RoomCleanup.CleanupCompletes` and `ConnectionCleanup` are about one at a time.
- TokenStores.StoresAgree: instants are whole milliseconds and a key is taken to be gone at the millisecond of its expiry; a server that still answers during that very millisecond, and differences below a millisecond, are not modelled.
- RateLimit.AdvertisedLimit: over reals, so `f64` rounding is not modelled.
- The accept loop without a connection limit (`max_concurrent` absent): the server always sets one.
