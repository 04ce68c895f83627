# Massrelay, modelled and verified

Massrelay is a relay for collaborating browsers. A Go server keeps rooms in a table, gives every
client a bounded channel of room events, and evicts a client that falls behind; a TypeScript
client joins a room, keeps a roster of it, reconnects when it is dropped, and elects one peer to
answer a newcomer's request for the scene. This project models those parts in Dafny and proves
what their code and documentation promise, for every input, every interleaving and every run.

`dafny verify dfyconfig.toml` checks all of it.

## How it is built

| files | what they model |
|---|---|
| `Protocol.dfy`, `Options.dfy`, `Identity.dfy` | the events, and what a token lets a connection join |
| `Delivery.dfy`, `NoGap.dfy`, `CrossSender.dfy` | one client's path: `deliver`, `SendCh`, the bridge, the stream's queue, `endSession`, `Recv`, as a step relation in which `deliver`'s slow check and its channel send are separate steps, and so are the parts of a join |
| `BidiStream.dfy` | the same path as the object it is; every method is a run of that relation |
| `Rooms.dfy`, `RoomTable.dfy`, `RoomLaws.dfy`, `RoomEvents.dfy`, `RoomExceptions.dfy`, `Hints.dfy` | the room table, handler call by handler call, and where a client hint leads |
| `CollabRoom.dfy`, `CollabService.dfy` | the room and the service as objects changed in place, proved to do what the functions of `Rooms.dfy` say |
| `Pipes.dfy`, `Rosters.dfy`, `RosterLaws.dfy`, `PeerEvents.dfy`, `PeerLives.dfy`, `KnownSenders.dfy`, `Succession.dfy`, `Election.dfy` | the table and the delivery path together: what each client's roster is, what its peer events say of the room, whether it knows who a message is from, what becomes of a room its owner leaves and who hears of it, and who is elected |
| `Reconnect.dfy`, `ReconnectLaws.dfy`, `ReconnectEffects.dfy`, `CollabClient.dfy` | the browser client's connection, as a state machine and as an object |
| `ClientRelay.dfy` | clients, sockets, a relay and its restarts |
| `Sniffer.dfy`, `JoinCode.dfy`, `JoinCodeBits.dfy`, `PeerColors.dfy` | the incremental close-frame parser, the join codes, the string hash |

A member of a room carries the whole delivery path behind its `SendCh` (`Rooms.Client.pipe`), and
`Pipes.dfy` shows that every handler call moves it along a run of the delivery relation. So the
theorems about one client's path, about the table, about rosters and about the election are about
the same runs.

A path begins as its connection opens (`Delivery.OPENED`), before any join, and a join in the
service's runs may come on any connection without a client, one whose session has ended included.
An ended session does not stop a second join on its connection either: that client has a path of
its own, on which what the earlier one left in the queue stands as answers. *Room events* of a path
are those of its client.

A handler call (`handleJoin`, `handleLeave`, `handleBroadcast`, ...) is one atomic step; a run of the
service mixes such steps with the streams' own steps. Ids that the code takes from `uuid` are
parameters of a step and fresh. Fields called *history* (`offered`, `accepted`, `received`,
`departed`, `at`, `log`) record what happened and decide nothing.

Seven natural expectations are false of the code. Each has a witness and an exact condition:

- Across senders the no-gap promise fails (`CrossSender.GapAcrossSenders`): broadcasts share a read
  lock, so an event can be dropped between two that arrive. It holds per sender in every run, and
  across a set of senders exactly when there is at most one of them
  (`CrossSender.PrefixIffOneSender`), or at most one delivery between its check and its send
  (`CrossSender.PrefixIffOneInFlight`).
- `SessionEnded` from a token expiry is not always the last event: the timer does not wait for the
  bridge (`NoGap.ExpiryIsNotLast`), and it is armed before the join, which goes ahead on an ended
  session (`NoGap.ExpiryBeforeJoin`). As `SessionEnded` is queued, whoever ends the session and
  whenever, a room event can still follow exactly when the join is still to come, or the client's
  bridge is running, or about to with the client in its room, and there is more for it: an event in
  its hand, in `SendCh`, in flight from a sender, or still to be offered to a client that is in the
  room and not slow (`NoGap.SessionEndedIsLastUnless`). On a live connection whose join came first
  that is an event in the running bridge's hand or in `SendCh`
  (`NoGap.JoinedSessionEndedIsLastUnless`); after an eviction there is none
  (`NoGap.EvictionEndsCleanly`).
- A session's end does not reach everyone in the room: a client taken out between its admission and
  the start of its bridge hears nothing of what it was offered (`NoGap.EndBeforeBridge`,
  `NoGap.NoBridgeNoEvents`). It reaches every client whose bridge started, is not slow and whose
  connection was not cancelled (`Succession.EndReachesEveryone`).
- The sender of an AppMessage is not always in the receiver's peer map, although
  `ts/src/CollabClient.ts:141-143` says so (`KnownSenders.StrangerIsHeard`): it is exactly when it
  was in the room, which every client that sends is (`KnownSenders.SenderIsKnown`).
- A room can stay empty, and a room can have two owners; `RoomExceptions` says exactly when.
- A client that never joined can reconnect, although `ts/src/CollabClient.ts:67-68` says only a client
  that has joined does: `ReconnectLaws.UnjoinedRetriesExactly` says exactly when.
- Such a client can then give up with retries left and no onSessionEnded
  (`ReconnectLaws.SilentStopHappens`), although `ts/src/CollabClient.ts:234-235` counts a failed
  `getToken` as one failed attempt: `ReconnectLaws.SilentStopExactly` says exactly when.

Where `README.md:1203` and `ARCHITECTURE.md:148` of the repository say that a full queue drops events
silently, the code marks the client slow and evicts it; the model follows the code.

## Model

| member | source | states |
|---|---|---|
| Delivery.FlowStep | web/server/stream.go:177-232 | every bridge, `endSession`, reply and reader step keeps the events accepted into `SendCh` equal, in order, to those put into the stream's queue, the one in the bridge's hand and those still in `SendCh`, until the bridge has ended |
| Delivery.EndsStep | web/server/stream.go:234-247 | every step keeps: at most one SessionEnded in the stream's queue, exactly one once the ending is complete on a live connection, an eviction's only after the bridge is done, and no room event behind it |
| NoGap.RunKeepsInv | services/room.go:135-144 | the delivery invariant holds along every interleaving of senders, room, bridge, ending and reader |
| NoGap.DeliverIsRun | services/room.go:135-144 | an undisturbed `deliver` is a run of its separate steps: check, send, or mark slow |
| NoGap.NoGapPerSender | web/server/stream.go:173-232 | in every interleaving the events of one sender that `Recv` returned are, in order, an unbroken prefix of those its deliveries offered |
| NoGap.MissedIsForever | services/room.go:132-144 | once an event of a sender was offered but not queued the client is slow in every later state and no later event of that sender is queued |
| NoGap.DropLeavesSlow | services/room.go:135-144 | if fewer events are queued or in flight than were offered, the client is slow |
| NoGap.BacklogBound | web/server/stream.go:80 | room events on their way never exceed 129, two queues of 64 and the bridge's hand |
| NoGap.SlowMeansFull | services/room.go:139-143 | a client is marked slow only when all 64 slots of its `SendCh` are taken |
| NoGap.SmallBacklogIsNeverEvicted | services/room.go:135-144 | a client whose backlog stays below 64 is never slow and its bridge never evicts |
| NoGap.EvictionEndsCleanly | web/server/stream.go:204-232 | when the bridge's eviction ended the session, the stream's queue got one SessionEnded; the room events before it are an unbroken prefix of those accepted and none follows |
| NoGap.OneSessionEnded | web/server/stream.go:234-247 | at most one SessionEnded per stream whoever calls `endSession`, exactly one once it is through on a connection that was not cancelled; it says token_expired from the timer and slow_consumer from everyone else |
| NoGap.StoppedHasAll | web/server/stream.go:177-202 | in every interleaving, once a bridge has stopped on a connection that was never cancelled, with its client not slow, `SendCh` is closed and everything ever accepted into it has been put into the stream's queue; with it slow, `endSession` is through or nothing is missing |
| NoGap.NothingIsLost | web/server/stream.go:177-202 | until then, from a client's admission on, what was accepted is what was put into the stream's queue, what the bridge holds and what `SendCh` holds, in order |
| NoGap.NoBridgeNoEvents | web/server/stream.go:150-160 | a client already out of its room when its bridge would start never hears any room event |
| NoGap.EndBeforeBridge | web/server/stream.go:150-160 | such a client exists, not slow, on a live connection, with an event accepted into its `SendCh` |
| NoGap.ExpiryIsNotLast | web/server/stream.go:84-88 | a token expiry can queue SessionEnded before a room event the bridge still forwards |
| NoGap.ExpiryBeforeJoin | web/server/stream.go:136-160 | a token that expires before the join queues SessionEnded and ends the stream, the join is handled all the same, its client stays in the room and its room events follow SessionEnded |
| NoGap.JoinIsRun | web/server/stream.go:136-160 | an undisturbed join is a run of its separate steps: into the room, id stored, bridge started |
| NoGap.SessionEndedIsLastUnless | web/server/stream.go:204-247 | from the opening of a connection on, as SessionEnded is queued, by whichever caller, before or after a join, live or cancelled: some continuation puts a room event of the client behind it if and only if the join is still to come, or its bridge runs or is about to and has an event in hand, in `SendCh`, in flight, or one that may still be offered |
| NoGap.MoreFollowsExactly | web/server/stream.go:177-232 | the same in every state before the reader saw the end of the stream |
| NoGap.JoinedSessionEndedIsLastUnless | web/server/stream.go:204-247 | on a live connection that knew its client as its session began to end, the client is out of its room when SessionEnded is queued, and a room event can follow if and only if the bridge is running and holds one or finds one in `SendCh` |
| NoGap.ChannelIsOpenWhileUsed | services/room.go:47-54 | a client in its room has an open `SendCh`, `deliver` never sends on a closed one, and none is closed twice |
| NoGap.RecvDrains | web/server/stream.go:259-281 | however calls of `Recv`, through whichever ready branch, interleave with senders, bridge, ending and cancellation: they return what was put into the queue, in order; at every io.EOF all of it so far has been returned, the one SessionEnded of a live connection included; and unless it gives up on a cancelled context, more calls than items bring io.EOF |
| NoGap.ReaderStepsAreRecv | web/server/stream.go:262-281 | the reader's steps in these runs are exactly the calls of `Recv`: an item when a ready branch returns it, the end when one returns io.EOF, by when all that was put so far has been returned |
| CrossSender.PrefixIffOneSender | services/room.go:146-166 | what a client received is a prefix of everything offered to it, in every run of a set of senders, if and only if the set has at most one |
| CrossSender.PrefixIffOneInFlight | services/room.go:146-166 | the same in every run with at most n deliveries between their check and their send, if and only if n is at most 1 |
| CrossSender.GapAcrossSenders | services/room.go:146-166 | with two in flight a client can receive an event offered after one it never gets |
| Streams.FlushedExtendsPrefix | web/server/stream.go:204-230 | what `evictSlow` passes on extends the prefix already forwarded, to everything accepted unless the stream's queue is full |
| Streams.FlushedInv | web/server/stream.go:204-230 | the delivery invariant survives `evictSlow` |
| Streams.SessionOverRun | web/server/stream.go:238-247 | `endSession` with nothing to wait for is a run of its steps: the client the stream knows out of the room, SessionEnded last if there is room, ended |
| Streams.Connection.Join | web/server/stream.go:136-160 | on the live object: the join, whether or not the session has ended, is a run of its steps and starts the bridge |
| Streams.Connection.RunBridge | web/server/stream.go:177-202 | whatever ready branches its selects take, the bridge goroutine performs a run of bridge steps and comes to rest waiting on an empty `SendCh`, before a full queue with nothing lost, stopped after a closed `SendCh` is drained or on cancellation, or evicting with all passed on that fits |
| Streams.Connection.EvictSlow | web/server/stream.go:210-232 | the loop passes on exactly what fits, in order, and drops nothing before it |
| Streams.Connection.EndSession | web/server/stream.go:238-247 | only the first call does anything: a run of the ending's steps, to its end or to where it waits for the room's lock or for room in the queue; with nothing to wait for the client the stream knows, if any, is out and SessionEnded is queued last |
| Streams.Connection.ResumeEnding | web/server/stream.go:238-257 | a call that waits goes on by a run of the ending's steps, again to its end or to a wait |
| Streams.Connection.Receive | web/server/stream.go:262-281 | whenever a branch of its select is ready, one `Recv` is one of the ready branches; io.EOF only on an empty queue of an ended stream, the context's error only when cancelled and changing nothing |
| Streams.Connection.Deliver | services/room.go:135-144 | the new state is that of an undisturbed delivery |
| Identity.AllowsRoomMeaning | services/identity.go:49-69 | no token, and one without room entries, opens every session, the empty id included; a restricted one exactly the non-empty sessions an entry names whole or by a prefix before `*` |
| RoomObjects.CollabClient.Deliver | services/room.go:135-144 | queues, or marks slow, or skips a slow client |
| RoomObjects.CollabRoom.Broadcast | services/room.go:146-166 | every named client is offered the event once, nobody else changes |
| RoomObjects.CollabRoom.SendEach | services/room.go:168-188 | one addressed copy per distinct id in the room, the missing ids returned |
| RoomObjects.CollabRoom.FindByBrowserId | services/room.go:56-70 | some other client of that browser, none only if there is none |
| RoomObjects.CollabRoom.RemoveClient | services/room.go:79-89 | that client and nobody else is out of the room; an unknown id changes nothing |
| RoomObjects.CollabRoom.CloseAllClients | services/room.go:46-54 | the room is empty and every channel of its clients is closed once |
| RoomObjects.CollabRoom.Admit | services/collab_service.go:397-428 | the room with the newcomer in it, ownership and title claimed, everyone else told once |
| ServiceObjects.CollabService.HandleJoin | services/collab_service.go:286-446 | on the live object: the table, the hints, the hook counts, the queues and the answer are those of the join on values, in every branch |
| ServiceObjects.CollabService.HandleLeave | services/collab_service.go:457-556 | on the live object: table, hints, hook counts, queues of those who stay and answer are those of the leave on values, with an heir that `FindByBrowserId` could have returned; an unknown client changes nothing |
| ServiceObjects.CollabService.HandleBroadcast | services/collab_service.go:583-678 | on the live object: the relayed message on values in the sender's own room, or nothing |
| ServiceObjects.CollabService.DeliverAppMessage | services/collab_service.go:692-715 | on the live object: the message relayed into the named room, or ErrRoomNotFound with nothing changed |
| ServiceObjects.CollabService.FindRoomForClient | services/collab_service.go:142-157 | a room that holds the client, none only if no room does |
| ServiceObjects.CollabService.DropRoom | services/collab_service.go:124-140 | an empty room and every hint to it go and OnRoomRemoved is counted, any other room stays |
| RoomTable.RunKeepsTable | services/collab_service.go:286-556 | the table invariant holds in every run: admission, one room per client, hints, counts, ownership |
| RoomLaws.FindRoomFinds | services/collab_service.go:142-157 | in every run a client is in one room at most, and that is the one `findRoomForClient` returns |
| RoomLaws.RoomsAreAdmitted | services/collab_service.go:298-345 | in every run no room exceeds a positive limit and every member's token allows its room, also when the room came from a hint |
| RoomLaws.HintsPointSomewhere | services/collab_service.go:304-332 | in every run a hint points at a room of the table or at a session some join was refused ROOM_NOT_FOUND for |
| RoomLaws.Ownership | services/collab_service.go:347-356 | in every run the owner is a member flagged as one, flagged members share the owner's browser, a room without an owner flags nobody |
| RoomLaws.OwnerStays | services/collab_service.go:457-534 | in every run no handler call leaves a room that had an owner ownerless while it stays in the table |
| RoomLaws.Conservation | services/collab_service.go:473-526 | in every run OnRoomCreated less OnRoomRemoved is the number of rooms, and OnPeerJoined is OnPeerLeft plus peers present plus peers taken out by CloseAllClients |
| RoomLaws.MustExistOpensNothing | services/collab_service.go:326-332 | a join with `must_exist` never adds a room |
| RoomLaws.SendEachSplits | services/collab_service.go:717-732 | an addressed message splits its distinct ids into those in the room, each offered one copy naming it alone, and those reported missing; nobody else's queue changes |
| RoomLaws.MissingMeaning | services/room.go:168-188 | the missing ids are exactly those not in the room, without repeats |
| RoomLaws.MissingInOrder | services/room.go:168-188 | the missing ids come in the order first named |
| RoomEvents.LetInIffWelcome | services/collab_service.go:298-376 | a join is let in if and only if its token covers the session, the room exists or may be made, there is a place, no owner from another browser stands against it and it is new enough for the encryption |
| RoomEvents.TurnedAwayBecause | services/collab_service.go:298-376 | who is not let in gets the code of the first reason that applies: ROOM_FORBIDDEN, ROOM_NOT_FOUND, ROOM_FULL, an owner from another browser, PROTOCOL_VERSION_TOO_OLD |
| RoomEvents.TurnedAwayLeaves | services/collab_service.go:298-376 | a join that is turned away moves nobody and calls no peer hook; it leaves a new empty room exactly when it failed the encryption check of a session without one, and a room declared encrypted exactly when its own declaration failed it |
| RoomEvents.JoinDoes | services/collab_service.go:378-446 | in every run a join that is let in puts the newcomer in the room with an empty queue, its name, browser, token and owner flag as it asked; answers with exactly those who were there and the owner there is now; tells each of them once; sets owner, owner's browser, encryption and title as it may; counts one peer, and one room if it is new; and leaves every other room alone |
| RoomEvents.RelayDoes | services/collab_service.go:583-732 | a relayed message is offered to everyone but its sender, or as a copy naming it alone to each addressee in the room; only a removed password and a new title change the room, and only an addressee that is missing makes an answer |
| Hints.AnsweredAsAsked | services/collab_service.go:304-324 | who is let in is answered with, and is in, the session it named, else the one its hint stands for, else a new one |
| Hints.SameHintSameSession | services/collab_service.go:302-324 | in every run, after a join with a hint that was let in, while its room lasts and no join takes the hint elsewhere, every later join with that hint and no session id that is let in is answered with the same session and is in its room |
| Hints.HintGoesWithItsRoom | services/collab_service.go:124-140 | in every run a join a token allows points its hint at the session it asked for, and a hint is otherwise unchanged until the room it leads to goes, and gone then |
| Succession.LeaveExactly | services/collab_service.go:457-556 | the last client out takes the room along; who is no owner leaves PeerLeft to the others and nothing else; an owner leaves to another tab of its non-empty browser id, announced by OwnerChanged and then PeerLeft, exactly when there is one, and otherwise everyone is told SessionEnded, taken out with a closed channel, and the session is out of the table; each leave calls its hooks once and touches no other room |
| Succession.EndReachesEveryone | services/collab_service.go:496-511 | in every run after such an end, whatever happens next, everyone who was in the room has SessionEnded as the last thing it is offered; a bridge that has stopped on a live connection of a client not slow has put it, and all before it, into its stream; one still at work has it yet to pass on; without a bridge the client hears nothing |
| PeerEvents.PeerEventsAreChanges | services/collab_service.go:378-556 | over any part of any run in which a client stays in its room, the PeerJoined and PeerLeft events it is offered are the changes of the room's membership, step by step, each once and in order |
| PeerLives.EverybodyLivesOnce | services/collab_service.go:378-556 | in every run, in what any client is told, an id gets at most one PeerJoined, only if its RoomJoined did not list it and nothing was said of it before, and at most one PeerLeft, only if it was listed or joined |
| RoomLaws.EmptyRoomStays | services/collab_service.go:358-376 | a refused encrypted join leaves an empty room in the table |
| RoomLaws.TwoOwners | services/collab_service.go:347-356 | two tabs of one browser can both be owners |
| RoomExceptions.EmptyRoomExactly | services/collab_service.go:358-376 | in any state a step leaves a session, not empty before, with a room nobody is in if and only if it is the join of an owner refused for the encryption it has just declared on that session, which was not in the table |
| RoomExceptions.SecondOwnerExactly | services/collab_service.go:347-356 | in every run a room gets a second owner if and only if the step is the join of an owner into a room that has one, and token, capacity, browser and version let it in |
| Pipes.RunOk | services/collab_service.go:286-556 | in every run of the service each client's queue was reached by a run of the delivery relation |
| Rosters.RunKeepsRosters | ts/src/CollabClient.ts:329-380 | in every run each member's answer and offered events fold to the membership of its room, and each event leaves its receivers with the membership recorded when it was broadcast |
| RosterLaws.RosterAgreement | ts/src/CollabClient.ts:329-380 | the roster of a member that is not slow, folded from its RoomJoined and the events queued for it, is exactly the ids in its room |
| RosterLaws.RosterWasMembership | ts/src/CollabClient.ts:329-380 | after any prefix of its queue a client's roster, slow or not, is the membership its room had at some earlier point of the same run |
| RosterLaws.ReceivedRosterWasMembership | ts/src/CollabClient.ts:329-380 | the same for what `Recv` has handed over at the end of the whole path |
| KnownSenders.SenderIsKnown | ts/src/CollabClient.ts:137-144 | in every run, as a client reads a relayed message, then or ever after, its roster holds the sender if and only if the sender was in the room at the broadcast; for every message a client sent it does |
| KnownSenders.StrangerIsHeard | services/collab_service.go:680-716 | DeliverAppMessage under an id that is not in the room reaches a client whose roster does not hold it |
| Election.LeqMeaning | ts/src/CollabEngine.ts:366-377 | the order of ids is lexicographic: a beginning first, else the first place where they differ decides |
| Election.ShouldRespondMeaning | ts/src/CollabEngine.ts:368-377 | filtering, sorting and comparing picks this client exactly when its id is the lowest but for the requester's, however the map lists its keys |
| Election.ViewIsRoster | ts/src/CollabEngine.ts:197-210 | until a reset the editor's peer map is the client's roster; after one it has no id |
| Election.SameRoster | ts/src/CollabEngine.ts:366-377 | however late they read it, all readers of one SceneInitRequest hold the same roster |
| Election.AtMostOneElected | ts/src/CollabEngine.ts:366-377 | at most one client takes the lowest-id branch for a request, in any run |
| Election.LowestIsElected | ts/src/CollabEngine.ts:366-377 | a request is queued for every other member that is not slow; however the run goes on and however late they read it, of those exactly the lowest id in the room at the broadcast is elected, unless a reset came before |
| Reconnect.RunKeeps | ts/src/CollabClient.ts:149-507 | the connection invariant holds in every run of calls, timers, checks, token fetches, messages and closes |
| ReconnectLaws.OneActivity | ts/src/CollabClient.ts:446-480 | at most one timer, room check, token fetch or socket is live, and `isConnecting` holds exactly while one still leads somewhere |
| ReconnectLaws.CallbackBalance | ts/src/CollabClient.ts:421-507 | onConnect less onDisconnect is 1 while connected and 0 otherwise, and 0 or 1 after every callback |
| ReconnectLaws.NothingAfterTheEnd | ts/src/CollabClient.ts:482-498 | onSessionEnded fires only at balance 0 and until the next `connect()` no onSessionEnded, onConnect or onReconnecting follows |
| ReconnectLaws.JoinsAskRight | ts/src/CollabClient.ts:286-306 | a join carries `mustExist` exactly when the client has been in a room since `connect()`, and then names the session it was last in |
| ReconnectLaws.BoundedBackoff | ts/src/CollabClient.ts:446-459 | between two successful joins there are at most `maxRetries` attempts and at most 30000 ms of waiting for each |
| ReconnectEffects.AppSees | ts/src/CollabClient.ts:149-507 | in every state of every run, whatever happens next, exactly these callbacks, timers and messages follow, in this order |
| ReconnectEffects.GoesOn | ts/src/CollabClient.ts:149-507 | and exactly this, of timer, room check, token fetch and socket, is under way then, nothing beside it |
| ReconnectEffects.StopsExactly | ts/src/CollabClient.ts:149-507 | in every state of every run a client stops trying exactly when told to, when onSessionEnded fires and when its join is refused, and only `connect()` lets it try again |
| ReconnectEffects.KnowsItself | ts/src/CollabClient.ts:329-507 | its client id is the one its RoomJoined gave it, and gone with the connection |
| ReconnectEffects.Remembers | ts/src/CollabClient.ts:149-507 | the session it names is the one `connect()` gave and from its RoomJoined on that one's; it knows whether it has been in a room since `connect()`; its retry count starts over with either and grows by one with each onReconnecting |
| ReconnectEffects.Lists | ts/src/CollabClient.ts:311-507 | its roster changes with the events it hears and is emptied with the connection, and at no other time |
| ReconnectEffects.EndOfStreamBringsBack | ts/src/CollabClient.ts:382-394 | the reason the relay gives when it ends a stream's session is one a reconnecting client with retries left comes back from, an expired token only with `getToken` |
| ReconnectEffects.RoomCheckSays | ts/src/CollabClient.ts:463-480 | for a client not told to stop: session_gone if and only if the answer is 404, a token fetch or a socket if and only if it is 200, and otherwise the next attempt with its timer, or reconnect_failed exactly when none is left |
| ReconnectEffects.DelayDoubles | ts/src/CollabClient.ts:446-459 | the wait is the configured one first, then twice the one before, 30000 ms at most |
| ReconnectEffects.BackoffExactly | ts/src/CollabClient.ts:446-459 | in every run the n-th onReconnecting since the last `connect()` or onConnect says n and is followed at once by a timer of the n-th wait |
| ReconnectLaws.SomethingCanFinish | ts/src/CollabClient.ts:446-480 | a client that is trying always has something outstanding that can finish |
| ReconnectLaws.FinishingRanks | ts/src/CollabClient.ts:446-480 | whatever finishes, and however, lowers the rank (retries left, stage); nothing else raises it |
| ReconnectLaws.ReconnectingTerminates | ts/src/CollabClient.ts:446-480 | from any state of any run a client goes on trying through fewer than 6 * maxRetries + 6 results |
| ReconnectLaws.HowRetryingEnds | ts/src/CollabClient.ts:234-250 | retrying, by a client that has joined or not, ends connected, with `session_gone`, with `reconnect_failed`, with a refused join, with the relay's own SessionEnded, or, before the first room only, with a failed token fetch or a closed socket |
| ReconnectLaws.SilentStopExactly | ts/src/CollabClient.ts:421-430 | a client that is trying stops with neither onSessionEnded nor onErrorEvent if and only if it has not been in a room since `connect()` and its token fetch fails or its socket closes |
| ReconnectLaws.SilentStopHappens | ts/src/CollabClient.ts:234-250 | such a client exists after onReconnecting, with retries left |
| ReconnectLaws.UnjoinedRetriesExactly | ts/src/CollabClient.ts:382-394 | in every run a client that has not been in a room since `connect()` has retries behind it if and only if it has retries at all and since then the relay ended its session for a reason it may retry on |
| ReconnectLaws.UnjoinedRetries | ts/src/CollabClient.ts:382-394 | such a client exists, waiting for its first retry |
| ClientObjects.CollabClient.Connect | ts/src/CollabClient.ts:149-176 | on the live object: throws when connected, else starts over and opens a socket or fetches a token |
| ClientObjects.CollabClient.Disconnect | ts/src/CollabClient.ts:178-209 | on the live object: timer cleared, LeaveRoom sent and onDisconnect called exactly when connected |
| ClientObjects.CollabClient.HandleMessage | ts/src/CollabClient.ts:311-419 | on the live object: every event has the effect of the state machine's step, and the peer map holds what it should: the listed peers and itself, the peer added, removed, all flags moved to the new owner, or nobody |
| ClientObjects.CollabClient.RoomStatus | ts/src/CollabClient.ts:463-480 | on the live object: 404 ends, 200 opens, anything else retries, nothing after an explicit disconnect |
| ClientObjects.CollabClient.SocketClosed | ts/src/CollabClient.ts:273-277 | on the live object: only the current socket's close counts |
| ClientObjects.CollabClient.FillPeers | ts/src/CollabClient.ts:349-363 | each peer RoomJoined listed is in the peer map under its own id, as listed; the client itself, unless listed, under the name it gave; nobody else |
| ClientObjects.FilledExactly | ts/src/CollabClient.ts:349-363 | where every peer is listed under its own id, that is the list and the client itself and nothing else |
| ClientObjects.PeersAfterMeaning | ts/src/CollabClient.ts:365-403 | per peer: one that joined is there as announced, one that left is not, OwnerChanged flags the new owner and nobody else, and all else stays |
| ClientRelay.PlayKeeps | ts/src/CollabClient.ts:286-306 | in every run of clients and relay, joins and answers in transit agree with the client that waits for them |
| ClientRelay.RejoinsNameTheirSession | ts/src/CollabClient.ts:288-305 | every join a client sends after its first RoomJoined, until the next `connect()`, names that RoomJoined's session with `mustExist` |
| ClientRelay.OnlyFirstJoinsOpen | services/collab_service.go:326-332 | the only move that puts a session into the table is a join without `mustExist` |
| ClientRelay.RemovedSessionsStayRemoved | services/collab_service.go:326-332 | however rejoins, first visits to other sessions, leaves, evictions and relay restarts interleave, a session gone from the table that nobody is on a first visit to does not come back until somebody connects to it anew or without naming one |
| Sniffing.FeedTwice | ts/interop/stall-proxy.ts:90-135 | feeding two chunks is feeding their concatenation, in every state |
| Sniffing.ChunkingIndependence | ts/interop/stall-proxy.ts:90-135 | any two ways of cutting one byte stream end in the same state with the same close frames |
| Sniffing.FaithfulDecoding | ts/interop/stall-proxy.ts:101-133 | after a header and any frames with 7-, 16- or 64-bit lengths, however cut and whether or not the mask bit is set, the output is exactly the close frames' codes and reasons in order, 1005 where there is no code |
| Sniffing.NothingBeforeTheLastByte | ts/interop/stall-proxy.ts:107-133 | while a frame is incomplete the output holds the closes of the frames before it and no more |
| Sniffing.NothingInTheHeader | ts/interop/stall-proxy.ts:99-106 | before the blank line that ends the header nothing is reported |
| Sniffing.CloseFrameSniffer.Sniff | ts/interop/stall-proxy.ts:94-134 | the loop over a chunk computes the function the theorems are about |
| JoinCodes.RoundTrip | ts/src/url-params.ts:42-64 | encoding fails exactly on a character above 255, and what it prints reads back as the same URL and session exactly when the session id is not empty |
| JoinCodes.Injective | ts/src/url-params.ts:42-45 | no two targets share a code |
| JoinCodes.ReprintsIffCanonical | ts/src/url-params.ts:51-64 | a code that parses prints back as itself exactly when its URL part has only base64url digits and no stray bits |
| JoinCodes.OctetsOfSextets | ts/src/url-params.ts:43 | base64 groups of every length residue give back the bytes |
| JoinCodeBits.PrintedBits | ts/src/url-params.ts:42-45 | digit i of a printed code is the base64url character of bits 6i to 6i + 5 of the URL's bytes, filled up with zeros; then a colon and the session id, and nothing else |
| JoinCodeBits.ParsedBits | ts/src/url-params.ts:51-64 | digits of those characters, `+` and `/` included, read as the URL whose character m is bits 8m to 8m + 7; a single digit too many or no session id is refused |
| JoinCodeBits.PaddingFillsTheGroup | ts/src/url-params.ts:51-64 | `=` signs behind the digits are dropped where they fill a group of four and refused elsewhere |
| JoinCodeBits.BlanksAreSkipped | ts/src/url-params.ts:51-64 | white space in the URL part changes nothing |
| JoinCodeBits.MisplacedIsRefused | ts/src/url-params.ts:51-64 | any other character, or a `=` anywhere but at the end, is refused |
| PeerColors.HashClientIdToColorIndex | ts/src/peerColors.ts:22-28 | the wrapping 32-bit loop yields the sum of the codes with alternating signs, the last positive, modulo 8, always in 0..7 |

## Left out

- `CloseSend` (web/server/stream.go:315-319), which closes the stream's queue with no handshake with the bridge; the theorems are about streams it is not called on.
- Cancellation inside the other parts of `Send`: a handler call and its answer are a step each, and cancelling stops the bridge and lets `endSession` give up its wait.
- Handlers that drop their locks midway: a handler call is one step, so two joins racing for the last place or the ownership of a room are not modelled.
- The order of RoomJoined against the first bridged event (web/server/stream.go:158-168): rosters start from RoomJoined, and a room event bridged before it finds none.
- `ALREADY_JOINED`, `RATE_LIMITED` and the checks of `Send` on who is speaking (web/server/stream.go:98-171); a client sends as itself.
- `Metadata`, avatars, client types and identities of peers, `GetRoom`, `ListRooms`, timestamps and message texts of errors.
- The `isOwner` flags of a client's peer map against those of its room, and the sharing of one PeerInfo between a room and the events that mention it; the owner's branch of the election is not constrained.
- ServiceObjects.CollabService.HandleLeave: the history of the value, `departed` with the queues of clients that left and `ejected`, the number CloseAllClients took out, has no field in the object; that a client object leaves with that queue is stated by `RoomObjects.CollabRoom.RemoveClient` and `ServiceObjects.CollabService.LeaveAndEnd` only.
- Display fields of the browser client (`title`, `roomEncrypted`, `maxPeers`, `isOwner`), its `beforeunload` hook, `sendAppMessage` and the callbacks onPeerJoined, onPeerLeft, onOwnerChanged, onTitleChanged, onCredentialsChanged and onAppMessage, which change nothing else.
- App callbacks that call back into the client, and `connect()` while an earlier attempt is outstanding. A closed socket delivers nothing more, a failed connect reports a close, and a relay sends one RoomJoined per connection.
- Scene initialisation timing, cursor throttling, encryption and key handling of the editor engine (ts/src/CollabEngine.ts, ts/src/crypto.ts).
- `Election.ShouldRespond`: compares ids character by character; for ids outside the basic plane JavaScript's order by code unit differs, and ids are uuids.
- `Sniffing.Feed`: a 64-bit length above 2^53 is exact here and rounded in JavaScript, and close reasons stay bytes where the source decodes UTF-8.
- `resolveRelayUrl`, `parseConnectParam`, `buildConnectUrl` (ts/src/url-params.ts:5-36): thin wrappers of browser functions. `getPeerColor` and `getPeerLabel`: one-line look-ups.
- Token validation, key loading, CORS, HTTP handlers, rate limiters, metrics, logging, deployment and generated protobuf code.
