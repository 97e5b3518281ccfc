# Verified model of go-partyx: rooms, event bus, wire codec, client connections

go-partyx seats WebSocket clients in game rooms. A room is an actor: an inbox of closures run one
at a time. A manager owns the table of rooms and, per user and room type, the singleton record that
says where the user sits. An event bus carries what happens to topics, a generated codec carries
messages over the wire, and each connection has a send queue, a handle queue and books of its
subscriptions. This project models those four parts and proves what they keep.

## How it is built

Each concurrent part has two layers. The imperative layer (`RoomActor`, `Manager`, `EventBus`,
`Client`, `Dispatcher`, `Codec`) has the classes and methods of the program, changed in place, each
proved against a function on plain values. The protocol layer (`RoomProtocol`, `ActorLoop`,
`BusProtocol`, `ClientQueues`) is a transition system in which every locked phase, actor closure and
channel or map operation is one atomic step, and the theorems hold of every sequence of steps.
The two meet: the room classes and the room protocol use the same closure functions (`RoomModel`)
and record functions (`SessionTable`), and a request that nothing interleaves with is shown to take
the protocol exactly where the sequential manager goes (`SoloRuns.EverySoloJoin`,
`SoloRuns.EverySoloLeave`); the same is shown of the bus (`BusRefinement.SequentialBusIsTheMap`). That a
room's closures may be taken as atomic is shown of its inbox and loop (`ActorLoop.ClosuresAreAtomic`).

Safety is stated over every run. That the model is not safe because it is stuck is shown beside it: from
every reachable state each request, call, message, frame and publish can come to its end
(`RoomProgress`, `ActorLoop.EveryCallReturns`, `ClientAnswers`, `BusDelivery`).

| file | holds |
|---|---|
| Base.dfy | shared types |
| RoomModel.dfy, SessionTable.dfy | actor closures and record edits as functions, with their laws |
| RoomActor.dfy, Manager.dfy, ManagerModel.dfy | the sequential room and manager, and record/seat agreement |
| News.dfy, Announcements.dfy | the events requests publish, and what a listener learns from them, in order and out of order |
| RoomProtocol.dfy, RoomSafety.dfy, RoomExclusivity.dfy, RoomRuns.dfy | the interleaved protocol: its invariants and theorems |
| SoloRuns.dfy | the protocol without interleaving is the sequential manager |
| RoomTakeover.dfy, RoomRemoval.dfy | exactly when one seat per user, and the removal of empty rooms only, hold in every interleaving |
| RoomLimits.dfy | runs where the guarantees end |
| RoomProgress.dfy | what can always still happen: requests end, emptied rooms go, and what a removal does |
| RoomTimers.dfy | the empty timer and its callbacks, accounted for over whole runs |
| ActorLoop.dfy | inbox, loop and callers of `do` |
| BusModel.dfy, EventBus.dfy, BusProtocol.dfy, BusRefinement.dfy, BusDelivery.dfy | the bus as a map, as objects, interleaved, how these agree, and whom a publish reaches |
| Client.dfy, Dispatcher.dfy, Connection.dfy | subscription books, login and disconnect, one client's requests |
| ClientQueues.dfy, ClientAnswers.dfy | a connection's queues and its auth gate; what gets through, what it is answered, and that nothing can be stuck |
| Wire.dfy, Messages.dfy, Layout.dfy, Codec.dfy | wire forms, messages as values, where each field lies, Marshal and Unmarshal in place |

## Assumptions

- Room ids and client ids are fresh, and a client belongs to one user.
- A client has one request in flight, as its handle loop ensures; its disconnect sweep does not
  overlap one of its own handlers.
- On the bus, one subscribe or unsubscribe is in flight per topic and subscriber; publishes are free.
- Hooks do not panic and do not call blocking room methods. All a hook does here is call
  SetKeepOnEmpty, any number of times with any arguments. OnInit only decides the initial keep flag: it
  runs before the empty callback is installed, and does not release a keep again.
- A timer is armed, fired or stopped, and may fire at any time while armed. Frames are written or
  fail. When several cases of a select are ready, any may be taken.

## Where the code promises less than its comments

- The comment on `Join` calls a rejoin idempotent, but fullness and closedness are tested before
  membership. A refused rejoin then deletes the record of a client that is still seated. The exact
  condition is `ManagerModel.JoinKeepsAgreeIff`; the consequence is
  `RoomLimits.RefusedRejoinSeatsTwice`.
- Replacing rooms can seat a user twice: when joins overlap, the kick or swap of a replaced client may
  come before that client's own join (`RoomLimits.ReplaceRaceSeatsTwice`); and a join that took a record
  over may be refused or abandoned (`RoomLimits.RefusedTakeoverSeatsTwiceFromScratch`). With the
  rollback of a refused rejoin and the undeclared modes, these are the only steps that leave a seat
  without a record, a leave or a newcomer to end it: a run is free of such seats exactly if it has no
  such step (`RoomTakeover.CoveredExactly`), and the user then has at most one lasting seat
  (`RoomTakeover.OneLastingSeat`).
- A mode byte outside the three declared ones falls through the switch and overwrites the record
  without a kick; it is one of the parting joins of `ManagerModel.JoinKeepsAgreeIff`.
- A room can be removed from under a player, with or without a grace: `Leave` schedules the removal in a
  second closure that does not look at the players again (`RoomLimits.ZeroGraceRemovesOccupiedRoom`);
  a request issued while the room is empty is served later, and `Remove` does not look either
  (`RoomLimits.ExpiredGraceRemovesOccupiedRoom`); and hooks that release the keep inside a sole player's
  swap make a room request its removal just before it fills it. The closures that request a removal over
  players are told exactly by `RoomRemoval.PrematureStepsExactly`, the runs in which an occupied room
  has a removal of its own pending by `RoomRemoval.OccupiedRoomsAtRisk`.
- The comment on the bus's `Subscribe` says a subscription is never lost. It is, if it completes in
  the gap of an `Unsubscribe`, and only then (`BusProtocol.LostSubscriptionsExactly`,
  `BusProtocol.SubscribeInTheGapIsLost`).
- After `Unsubscribe` returns, a publish that had already loaded the topic can deliver to a
  subscriber that subscribes again before the snapshot
  (`BusRefinement.DeliveredAfterUnsubscribeFromScratch`).
- `do` can report false although its closure ran, after cancel (`ActorLoop.FalseAlthoughRan`), and a join
  that was given up at a shutdown can still seat its client (`RoomProgress.GivenUpJoinStillRuns`).
- A disconnect leaves the rooms in the client's books, and these can miss a seat: after the client
  unsubscribed from the `room:` topic of a room it sits in, or from its bare id, after a refused
  rejoin, whose handler unsubscribes, and after a join under a topic it still holds while the id is gone.
  These are the only ways (`Connection.RoutedExactly`, `Connection.SeatLeftBehindFromScratch`).
- Rooms announce joins and leaves outside the actor, so those of overlapping requests can come in the
  other order and leave a listener misled (`Announcements.ListenerMisledFromScratch`). It knows the
  players exactly when the last notice it heard about each client says what the last closure did
  (`Announcements.ListenerExactly`). Once all is published it is wrong only after a publish that overtook
  one about the same client (`Announcements.OrderExactly`, `Announcements.ListenerInOrder`), which takes a
  replacing room of the type (`Announcements.ListenerWhereNobodyIsReplaced`).
- A send that races with `Close` can be queued after the flush and is then never written
  (`ClientQueues.QueuedAfterTheFlush`). On an unbroken connection the frames enqueued before the write loop
  ended are written, and no others (`ClientQueues.WrittenExactly`).
- The comment on `SetKeepOnEmpty` says a kept room survives indefinitely. A removal requested before the
  keep was set still unregisters it (`RoomLimits.KeptRoomRemovedFromScratch`); the runs with a kept room
  so exposed are told by `RoomRemoval.KeptRoomsAtRisk`.

## Model

| member | source | states |
|---|---|---|
| RoomRuns.RejectExclusivity | room/manager.go:178-283 | in every interleaving of locked phases, actor closures, rollbacks and removals, a user holds at most one settled seat in the rejecting rooms of a type, provided no seated client of the user was refused a rejoin there and no room of the type takes records over |
| RoomRuns.NoDanglingRecord | room/manager.go:144-257 | in every interleaving each singleton record names a registered, running room whose type is the record's key and whose mode is not allow, and no user keeps an empty inner map |
| RoomRuns.EmptiedRoomIsNotLeaked | room/room.go:261-336 | in every interleaving a registered room that was joined, is empty and is not kept has its removal on the way: an armed timer, a started callback, an issued request, or a leave between its two actor steps |
| RoomRuns.GraceSafety | room/room.go:295-336 | in every interleaving a step that makes a room with an EmptyGrace request its removal ends with the room empty and not kept; a kept room never has an armed timer |
| RoomRuns.RunsKeepSafe | room/manager.go:144-283 | the four inductive invariants behind the theorems above hold along every run |
| RoomRuns.SoloJoin | room/manager.go:178-257 | a join can be run by itself to its end, where the sequential join ends, with no request left in flight |
| RoomRuns.SoloLeave | room/manager.go:259-283 | the same for a leave with its second actor step |
| SoloRuns.EverySoloJoin | room/manager.go:178-257 | every join that nothing interleaves with and that ends leaves the maps, and returns the error, of the sequential join with the hook calls its closures made |
| SoloRuns.EverySoloLeave | room/manager.go:259-283 | every leave that nothing interleaves with and that ends leaves the maps of the sequential leave |
| RoomProtocol.StepKeepsWellFormed | room/manager.go:144-283 | every step keeps rooms within capacity, kept rooms disarmed, registered rooms running, and each request consistent with the room it is for |
| RoomSafety.StepKeepsRecords | room/manager.go:178-247 | every locked phase, rollback and removal keeps records pointing to registered rooms of their own type |
| RoomSafety.StepKeepsNoLeak | room/room.go:261-336 | every step keeps each leaky joined room covered by a leave that still has to schedule its removal |
| RoomSafety.StepIsGraceSafe | room/room.go:311-327 | one step of any kind makes a graceful room issue a request only if it leaves it empty and not kept |
| RoomExclusivity.StepKeepsExclusive | room/manager.go:178-283 | the invariant tying seats and in-flight joins of a rejecting room to the user's record survives every step |
| RoomTakeover.CoveredExactly | room/manager.go:178-283 | in every interleaving, all seats and queued joins of a user in a type stay recorded, about to be left, or about to be ended by a newcomer that took the record over, if and only if no step of the run is one of the moves told by Uncovers from the state before it |
| RoomTakeover.OneLastingSeat | room/manager.go:178-283 | after every such run the user has at most one seat that nobody is about to end in all the rooms of the type that keep records, replacing rooms included, and the record names it |
| RoomTakeover.StepUncoversExactly | room/manager.go:178-247 | where all is covered, a step leaves a seat or queued join without cover exactly if it is a refused or abandoned takeover, a swap or kick that comes before the claimant's own join, the rollback of a refused rejoin, or a record overwritten in an undeclared mode |
| RoomTakeover.MoveExactly | room/manager.go:178-283 | the same for one client's move and one seat, in both directions |
| RoomRemoval.PrematureStepsExactly | room/room.go:216-336 | in every interleaving, a step makes a room request its removal and leaves it occupied or kept exactly if it runs one of the closures told from the state before it |
| RoomRemoval.OccupiedRoomsAtRisk | room/room.go:181-336 | over every run, a room is at some time occupied with a removal request of its own pending if and only if some step requested it over a player, or seated a player under a pending request |
| RoomRemoval.RiskExactly | room/room.go:181-336 | the same for one step: which closure puts a room at that risk |
| RoomRemoval.KeptRoomsAtRisk | room/room.go:287-336 | over every run, a room is at some time kept with a removal request of its own pending if and only if a closure set the keep while a request was pending, or issued one and set the keep again |
| RoomRemoval.KeptRiskExactly | room/room.go:287-336 | the same for one step, told from the state before it |
| RoomRemoval.KeptRemovalExactly | room/manager.go:144-158 | the removal a room requested unregisters it although it is kept exactly when it is at that risk |
| RoomRemoval.OwnRemovalExactly | room/manager.go:144-158 | the removal a room requested unregisters it from under a player exactly when it is at that risk |
| RoomRemoval.OwnRemovalOfOccupiedRoom | room/manager.go:144-158 | so every such removal in a run has its cause in an earlier step |
| RoomLimits.RefusedRejoinSeatsTwice | room/room.go:188-191 | from any such state: a seated client that rejoins a full or closed room keeps its seat and loses its record, and its next join seats it a second time |
| RoomLimits.RejectSeatsTwiceFromScratch | room/manager.go:240-245 | a reachable state with one client settled in two rejecting rooms of one type |
| RoomLimits.ReplaceRaceSeatsTwice | room/manager.go:222-228 | from any such state: two overlapping replacing joins of one user end with both clients seated |
| RoomLimits.ReplaceSeatsTwiceFromScratch | room/manager.go:222-228 | a reachable state with one user seated twice in replacing rooms of one type |
| RoomLimits.RefusedTakeoverSeatsTwiceFromScratch | room/manager.go:213-247 | a reachable state with one user seated twice because a join that took the record over was refused |
| RoomLimits.OccupiedRoomRemovedFromScratch | room/room.go:280-284 | a reachable state in which a running room with a player in it is no longer registered |
| RoomLimits.ZeroGraceRemovesOccupiedRoom | room/room.go:280-284 | from any such state, whatever the mode: without a grace, the leaver's second actor step removes a room that was joined in between |
| RoomLimits.ExpiredGraceRemovesOccupiedRoom | room/room.go:319-326 | from any such state with a pending grace: a request issued while the room is empty is served after a client was seated |
| RoomLimits.KeptRoomRemovedFromScratch | room/room.go:287-305 | a reachable state in which a running kept room is no longer registered |
| RoomLimits.GracefulRoomRemovedFromScratch | room/room.go:319-326 | a reachable state in which a running room with an EmptyGrace and a player in it is no longer registered |
| RoomProgress.EveryRequestEnds | room/manager.go:178-283 | no request hangs: from every reachable state, a join or leave in flight can end by its own steps |
| RoomProgress.ClosureOrGiveUp | room/room.go:143-162 | in every interleaving, the closure of a queued request can run unless the loop has stopped, and its caller can give up exactly once the room is shut down, even when the closure has just run |
| RoomProgress.GivenUpJoinRollsBack | room/manager.go:235-247 | a join that is given up drops the one record that names its client, and no other, unless its room keeps none |
| RoomProgress.GivenUpLeaveEnds | room/room.go:143-162 | any other request that is given up just ends |
| RoomProgress.GivenUpJoinStillRuns | room/room.go:143-162 | a join that was given up can still seat its client while the loop of the shut-down room has not stopped |
| RoomProgress.EmptiedRoomGoes | room/room.go:261-336 | from every reachable state, a registered room that was joined, is empty and is not kept can come to be unregistered by what is already on its way |
| RoomProgress.OnceOccupiedRoomGoes | room/room.go:261-336 | the same told without history: a registered room that had a player at some time of the run and is now empty and not kept |
| RoomProgress.RemoveExactly | room/manager.go:144-158 | in every interleaving a removal unregisters its room, drops exactly the records that name it, and touches no other room and no request |
| RoomProgress.RemovalIsPossible | room/manager.go:144-158 | any registered room can be removed at any time, and a requested removal can be served |
| RoomProgress.ShutdownEmptiesMaps | room/manager.go:163-176 | a shutdown of the manager leaves no room registered and no record |
| RoomProgress.UnregisteredRoomStops | room/room.go:89-105 | from every reachable state an unregistered room can stop, with its players and without a timer |
| RoomProgress.OwnMoveAdvances | room/manager.go:178-283 | in any well-formed state the next step of a request is possible and brings it nearer to its end |
| RoomProgress.ScheduleFollowsEmptyRoom | room/room.go:261-285 | in every interleaving, a leave comes to schedule a removal only if nobody was left in the room when its closure had run |
| RoomTimers.GraceIsWaitedOut | room/room.go:287-336 | in every interleaving a room with a grace that is not shut down has requested its removal at most as often as its timer was armed and ran out |
| RoomTimers.CallbacksAreAccountedFor | room/room.go:311-327 | conservation in every interleaving: every timer callback that was started has run, was dropped at shutdown, or is still under way, each once; and the timer ran out at most as often as it was armed |
| RoomTimers.StepBalances | room/room.go:311-336 | one step keeps these accounts |
| ManagerModel.SequentialAgreement | room/manager.go:144-283 | over every sequential run without a parting join, a record names exactly the seat its user holds in the type, so nobody holds two |
| ManagerModel.JoinKeepsAgreeIff | room/manager.go:178-257 | a join keeps records and seats in agreement if and only if it is not refused inside the room while the user has a record there to lose, nor overwrites one in an undeclared mode |
| ManagerModel.JoinErrorsExactly | room/manager.go:178-257 | which of the four errors a join returns, told from the state before it, and that a join that returns one changes no room |
| ManagerModel.LeaveKeepsAgree | room/manager.go:259-283 | a leave by the seated client's own user keeps the agreement |
| ManagerModel.RemoveKeepsAgree | room/manager.go:144-158 | a removal with its cleanup keeps the agreement |
| ManagerModel.CreateKeepsAgree | room/manager.go:81-115 | a new room keeps the agreement |
| ManagerModel.RunKeepsSound | room/manager.go:144-283 | agreement, capacity and client ownership hold along every such run |
| ManagerModel.JoinFrame | room/room.go:181-259 | what a join does to the target room: when exactly it is refused, that a refusal changes nothing, and who sits there afterwards |
| ManagerModel.LeaveInRoomFrame | room/room.go:261-285 | a leave with its scheduling step removes exactly the leaver, whatever the hooks do |
| ManagerModel.LeaveRequestsExactly | room/room.go:261-285 | exactly when a leave requests the removal of its room or arms its timer: never while somebody else is left, and with the last player unless a hook leaves the room kept |
| ManagerModel.JoinDisarms | room/room.go:192-206 | a newcomer's join leaves no timer and no new request in its room |
| ManagerModel.JoinSeatsOnlyItsClient | room/manager.go:178-257 | a join seats nobody but its client, in any room |
| ManagerModel.RefusedRejoinThenSecondSeat | room/manager.go:235-247 | sequentially: the failed rejoin loses the record of a seated client, and the next join in another room of the type is admitted |
| ManagerModel.TakeoverOfUnseated | room/manager.go:224-228 | sequentially: kicking a client whose own join has not reached its room removes nobody |
| RoomModel.CapacityOverEveryRun | room/room.go:184-201 | over every run of actor closures a capped room never exceeds its cap, so narrowing the count to 16 bits is lossless and the fullness test is exact |
| RoomModel.ReplaceAllOrNothing | room/room.go:219-259 | JoinReplace either seats the newcomer in the old client's place or leaves the room untouched; swapping out a seated client is refused only by a closed room; the becameEmpty branch is unreachable |
| RoomModel.FullIsExact | room/room.go:190-191 | the narrowed comparison is the true one within capacity |
| RoomModel.ActIsGraceSafe | room/room.go:295-336 | one actor closure requests a removal under a grace only if it ends empty and not kept, and never arms a kept room |
| RoomModel.KeepsUnderRequestExactly | room/room.go:181-336 | exactly when one actor closure leaves a room kept with a removal request pending |
| RoomModel.PrematureRequestsExactly | room/room.go:181-336 | exactly when one actor closure requests a removal and leaves the room occupied or kept: always without a grace, and by a scheduling over players, a hook that releases the keep inside a sole player's swap, or a last leave whose hook releases the keep and sets it again |
| RoomModel.ActLeaksOnlyByLeaving | room/room.go:261-285 | only a leave closure can leave a room empty with no removal of its own under way |
| RoomModel.ActSeatsOnlyItsClient | room/room.go:181-259 | no closure seats anyone but the client it is for |
| RoomModel.HookFrame | room/room.go:295-305 | whatever SetKeepOnEmpty calls a hook makes, it can request a removal only of an empty graceless room |
| RoomModel.HookExactly | room/room.go:295-327 | what a hook requests and where it leaves the keep, told from the calls it makes |
| RoomModel.RunHook | room/room.go:295-305 | a hook leaves players, configuration, open flag and pending callbacks alone |
| SessionTable.Record | room/manager.go:208-208 | writes one record and no other, and leaves no inner map empty |
| SessionTable.Unrecord | room/manager.go:241-244 | deletes one record and no other, and the inner map with its last one |
| SessionTable.Cleanup | room/manager.go:317-328 | drops exactly the records of the removed room and leaves no inner map empty |
| SessionTable.WithoutRoom | room/manager.go:319-321 | one user's share of a cleanup, key by key |
| SessionTable.CleanupByUser | room/manager.go:317-328 | cleaning one user up brings that user, and nobody else, to the result of the whole cleanup |
| News.RosterOverEveryRun | room/room.go:181-285 | over every run of closures of a new room, each announced before the next runs, replaying PlayerJoined and PlayerLeft gives exactly its players |
| News.ActIsHeard | room/room.go:206-284 | what one closure announces is exactly the change it makes to the players |
| News.DirectoryOverEveryRun | room/manager.go:81-283 | over every sequential run, following the lobby's and the rooms' events gives exactly the registered rooms and their players |
| News.JoinNewsExactly | room/manager.go:178-257 | the events of a join in order, told from the state before it: none if it fails or the client sits there already, one join for a newcomer, a leave and a join for a swap, then the leave of another room and the notice to its client |
| News.KickedExactly | room/manager.go:213-233 | a client is sent the kicked event exactly if a successful join took over the record that names it |
| News.KickedIsUnseated | room/manager.go:213-233 | and has then lost the seat that record named |
| Announcements.HeardIsLast | room/room.go:206-284 | after any notices a listener takes each client for what the last one about it said |
| Announcements.NoticesAlternateExactly | room/room.go:181-284 | over every run of closures of a new room a client is announced as joined and left by turns, a rejoin not at all, if and only if no swap of the run drops it where it does not sit or seats it where it does |
| Announcements.HeardAlikeExactly | room/room.go:206-284 | two orders of notices leave the same roster if and only if they end alike about each client |
| Announcements.AnyOrderExactly | room/room.go:181-284 | for any run of closures of a new room and anything heard of it, the roster heard is the players if and only if the last notice heard about each client says what the last one issued did |
| Announcements.ListenerExactly | room/room.go:181-284 | the same in every interleaving of requests, closures and publishes, for a registered room; and once all is published, if and only if the last notices are the same ones |
| Announcements.OrderExactly | room/room.go:206-284 | over every run, the notices about each client are heard in the order of the closures throughout if and only if no publish overtakes another notice about its client |
| Announcements.ListenerInOrder | room/room.go:206-284 | in such a run the listener is wrong about nobody but clients with notices still due, and once all is published about nobody |
| Announcements.ListenerWhereNobodyIsReplaced | room/manager.go:213-233 | in every interleaving of a room whose type has no replacing room no publish overtakes, so the same holds of it |
| Announcements.EveryNoticeGoesOut | room/room.go:206-284 | no notice is stuck: from any state whatever is due can be published, in the order it came due |
| Announcements.ListenerMisledFromScratch | room/room.go:252-259 | a reachable state of a registered room with everything published, in which the listener has a player who was swapped out |
| RoomActor.Room.Join | room/room.go:181-214 | the method's new state and error are those of the join closure; exactly one PlayerJoined for a newcomer that is let in, nothing for a refusal or a rejoin; a shut-down room reports closed and does not change |
| RoomActor.Room.JoinReplace | room/room.go:219-259 | the same for the atomic swap, whose all-or-nothing property is proved about that closure; the leave and the join are announced in order exactly if it succeeds |
| RoomActor.Room.Leave | room/room.go:261-285 | both actor steps of a leave: the player goes, PlayerLeft is announced exactly if it sat there, and an emptied room schedules its removal |
| RoomActor.Room.SetKeep | room/room.go:295-305 | the whole new state of the keep toggle |
| RoomActor.Room.Hook | room/room.go:295-305 | a loop of keep toggles equals the hook function |
| RoomActor.Room.ScheduleRemoval | room/room.go:311-327 | the timer and requests after scheduling |
| RoomActor.Room.CancelRemoval | room/room.go:331-336 | the timer after cancelling |
| RoomActor.Room.TimerCallback | room/room.go:320-326 | the closure of a started grace callback |
| RoomActor.Room.PlayerCount | room/room.go:434-444 | the reported count is the true one modulo 65536, and exact for a capped room within capacity |
| RoomActor.Room.Shutdown | room/room.go:559-562 | the actor is down and no timer stays armed |
| Manager.Manager.JoinRoom | room/manager.go:178-257 | the two maps, the error and the events published, in order, are those of the sequential specification |
| Manager.Manager.Reserve | room/manager.go:178-211 | the locked phase: refused without a change, or recorded with the session it took over |
| Manager.Manager.Enter | room/manager.go:213-233 | swap in the same room, plain join otherwise; only the target room changes, and what it announces |
| Manager.Manager.KickOut | room/manager.go:216-233 | the replaced client leaves its old room if that is another one still registered, and is told |
| Manager.Manager.Undo | room/manager.go:235-247 | the rollback deletes the record only while it names this client |
| Manager.Manager.Conclude | room/manager.go:213-247 | after the room's part of a join: the kick of the replaced client, or the rollback |
| Manager.Manager.LeaveRoom | room/manager.go:259-283 | the two maps and the announcement after a leave |
| Manager.Manager.Remove | room/manager.go:144-158 | the room is unregistered, its records are gone, its actor is down and the lobby is told |
| Manager.Manager.CleanupOne | room/manager.go:319-326 | the inner deleting loop over one user's records |
| Manager.Manager.CleanupSessionType | room/manager.go:317-328 | the outer loop drops exactly the records of the removed room |
| Manager.Manager.ShutdownAll | room/manager.go:163-176 | both maps are empty and every room that was registered is down |
| Manager.Manager.ShutdownRooms | room/manager.go:173-175 | every room handed over is shut down |
| Manager.Manager.Create | room/manager.go:81-115 | the new room is registered under its fresh id, open and empty, with the module's mode and grace and its cap unless the request names one, or with the requested configuration if there is no module; the lobby is told |
| Manager.Resolve | room/manager.go:86-104 | a plain room gets the requested configuration; a module's room gets the module's mode and grace, and its cap unless the request names one |
| ActorLoop.EveryCallReturns | room/room.go:143-162 | in a room that is not shut down no call hangs: from every reachable state, one that waits or is blocked on the inbox can come to return true with its closure ended, and from a shut-down one it can return |
| ActorLoop.ReleasedExactly | room/room.go:147-155 | in every interleaving a waiting caller can learn that its closure ran exactly when it ended |
| ActorLoop.SelectsExactly | room/room.go:112-126 | in every interleaving what can begin between two activities is exactly the oldest queued closure, a tick, or the end of a room that is shut down |
| ActorLoop.InboxIsBounded | room/room.go:151-152 | the inbox holds at most 64 closures, and a sender is blocked exactly while it holds that many |
| ActorLoop.ShutdownEnds | room/room.go:89-126 | from every reachable state of a shut-down room the loop can come to its end |
| ActorLoop.DoAfterShutdown | room/room.go:140-162 | a call of do on a shut-down room can return false with nothing run |
| ActorLoop.TrueFromScratch | room/room.go:151-155 | a run from scratch in which a do of a live room returns true |
| ActorLoop.ActorProtocol | room/room.go:89-162 | in every interleaving of senders and loop: closures begin in inbox order, each at most once, never overlapping another closure, a tick or OnClose; after OnClose begins only its end follows; do is true only after its closure ended and false only after cancel |
| ActorLoop.ClosuresAreAtomic | room/room.go:89-162 | in every interleaving of senders and loop, a room whose closures do their work by the time they end is in the state of those closures run one at a time in inbox order |
| ActorLoop.FalseAlthoughRan | room/room.go:153-158 | a run in which do reports false although its closure ran |
| ActorLoop.RunsKeepOk | room/room.go:89-162 | the invariants of log, inbox and callers hold along every run |
| BusProtocol.LostSubscriptionsExactly | eventbus/eventbus.go:29-53 | in every interleaving a standing subscription is a member of its instance, and that is the map's current one unless an Unsubscribe saw it empty before the add and deleted it after the check |
| BusProtocol.RetriesArePaidByDeletions | eventbus/eventbus.go:29-38 | a Subscribe has gone back to the top of its loop at most as often as its topic was deleted since it began |
| BusProtocol.UnsubscribeIsFinal | eventbus/eventbus.go:42-59 | a subscriber off since before a publish started is not in its snapshot, and a publish delivers only to its snapshot |
| BusProtocol.PublishDeliversOnce | eventbus/topic.go:43-63 | in every interleaving a publish delivers to each member of its snapshot at most once, exactly once when it has ended, and to nobody else |
| BusProtocol.StepKeepsInv | eventbus/eventbus.go:21-59 | one atomic step of any operation keeps the bus invariant |
| BusProtocol.RunsKeepInv | eventbus/eventbus.go:21-59 | the bus invariant holds along every run |
| BusProtocol.SubscribeInTheGapIsLost | eventbus/eventbus.go:49-52 | from any state with a leaver between isEmpty and CompareAndDelete: a subscribe completed there is lost |
| BusProtocol.ResubscribedBeforeSnapshotIsDelivered | eventbus/topic.go:43-49 | from any such state: a publish that loaded the topic before a resubscription can still deliver to it |
| BusDelivery.StandingSubscriberIsDelivered | eventbus/topic.go:43-63 | in every interleaving, a subscription that is not lost and stands from the start of a publish on its topic to its end is delivered exactly once |
| BusDelivery.EveryCallReturns | eventbus/eventbus.go:29-53 | from every reachable state a subscribe or unsubscribe under way can return by its own steps, the one with its subscription standing, the other with none |
| BusDelivery.EveryPublishReturns | eventbus/eventbus.go:55-59 | from every reachable state a publish can return by its own steps with all its deliveries made, and has a snapshot unless it found no topic |
| BusRefinement.SequentialBusIsTheMap | eventbus/eventbus.go:21-53 | over every sequential run the interleaved bus is the map from topic to subscriber ids and stores no empty topic |
| BusRefinement.SubscribeAlone | eventbus/eventbus.go:29-38 | a whole subscribe that nothing interleaves with returns, and has exactly the effect of the map operation |
| BusRefinement.UnsubscribeAlone | eventbus/eventbus.go:42-53 | the same for an unsubscribe, whatever the map holds |
| BusRefinement.SubscriptionLostFromScratch | eventbus/eventbus.go:49-52 | a reachable state in which a subscription whose Subscribe returned is on no topic of the map |
| BusRefinement.DeliveredAfterUnsubscribeFromScratch | eventbus/topic.go:43-49 | a reachable run in which a subscriber whose Unsubscribe returned before a publish started, and that subscribes again, is delivered that publish |
| BusModel.BooksMatchTheBus | gateway/client.go:85-161 | over every sequential run of many connections, each client's topics are exactly the bus topics holding it, every room id it is routed by has its topic, and a disconnected client is held nowhere |
| BusModel.SubscribeChangesOne | eventbus/eventbus.go:29-38 | subscribing changes one membership of one topic and stores no empty topic |
| BusModel.UnsubscribeChangesOne | eventbus/eventbus.go:42-53 | unsubscribing changes one membership of one topic and leaves no empty topic |
| BusModel.UnsubscribeUndoesSubscribe | eventbus/eventbus.go:29-53 | for a newcomer the pair restores the map, down to the topic entry |
| BusModel.SubscribeStores | eventbus/eventbus.go:21-24 | storing an empty topic first makes no difference to the result |
| BusModel.UnsubscribeKeepsRoomsExactIff | gateway/client.go:155-161 | the room ids stay those of the room topics if and only if the topic is a room topic or not the bare id of a subscribed room |
| BusModel.SubscribeKeepsRoomsExact | gateway/client.go:141-153 | subscribing keeps the room ids those of the room topics |
| BusModel.BookKeepsRoomsBacked | gateway/client.go:141-161 | either operation keeps every room id backed by its topic |
| BusModel.SweepLeavesNothing | gateway/dispatcher.go:163-165 | dropping every topic held empties the books, takes the client off the bus and leaves everyone else |
| EventBus.Topic.Add | eventbus/topic.go:21-25 | the subscriber table after an add |
| EventBus.Topic.Remove | eventbus/topic.go:27-31 | the subscriber table after a removal |
| EventBus.Topic.Snapshot | eventbus/topic.go:44-49 | every subscriber once, and nobody else |
| EventBus.Topic.Send | eventbus/topic.go:43-63 | delivers exactly once to each subscriber that does not panic, and a panicking one stops nobody |
| EventBus.EventBus.GetTopic | eventbus/eventbus.go:21-24 | the stored instance, or a fresh empty one stored under the name |
| EventBus.EventBus.Subscribe | eventbus/eventbus.go:29-38 | run alone, the bus as a map gains exactly this membership |
| EventBus.EventBus.Unsubscribe | eventbus/eventbus.go:42-53 | run alone, the bus as a map loses exactly this membership, and the topic with its last one |
| EventBus.EventBus.CompareAndDelete | eventbus/eventbus.go:49-52 | deletes the entry exactly when it still holds the instance |
| EventBus.EventBus.Publish | eventbus/eventbus.go:55-59 | delivers exactly once to each member that takes events, and to nobody else |
| Client.Client.constructor | gateway/client.go:66-90 | a new client is subscribed to its personal topic and its books say so |
| Client.Client.Subscribe | gateway/client.go:141-153 | books and bus stay in agreement; a topic already held is not subscribed again |
| Client.Client.Unsubscribe | gateway/client.go:155-161 | books and bus stay in agreement |
| Client.Client.UnsubscribeAll | gateway/dispatcher.go:163-165 | the unsubscribe loop over a list of topics, on the books and on the bus |
| Client.Client.RoomIDs | gateway/client.go:165-173 | every room id once |
| Client.Client.Sweep | gateway/dispatcher.go:151-165 | afterwards the bus holds no subscription of the client, its books are empty and no other client is touched |
| Client.Elements | gateway/client.go:168-172 | copying a set out of its map: every element once |
| Client.PersonalTopicsDiffer | gateway/client.go:86-88 | no two clients share a personal topic, and none is a room's |
| Dispatcher.SweepOfSeats | gateway/dispatcher.go:157-161 | the leave loop takes a client out of exactly the listed rooms, keeps records and seats in agreement, and leaves no seat and no record of it if and only if the list covered every room it sat in |
| Dispatcher.LeaveAllLeavesExactly | gateway/dispatcher.go:157-161 | listed rooms lose the client, all others are unchanged |
| Dispatcher.LeaveAllLeavesEach | gateway/dispatcher.go:157-161 | each listed room is left once, by an ordinary leave that runs that room's own hook |
| Dispatcher.LeaveAllKeepsAgree | gateway/dispatcher.go:157-161 | the leave loop keeps records and seats in agreement |
| Dispatcher.Dispatcher.OnDisconnect | gateway/dispatcher.go:143-170 | the bus holds nothing of the client and nobody else is touched; records and seats stay in agreement, and nothing of the client is left in them if and only if it was authenticated and routed by every room it sat in, or sat nowhere |
| Dispatcher.DisconnectOfSeats | gateway/dispatcher.go:151-161 | the same of the manager's maps, with or without a session |
| Dispatcher.Dispatcher.LeaveRooms | gateway/dispatcher.go:158-160 | the loop of LeaveRoom calls equals the folded specification |
| Dispatcher.Dispatcher.HandleAuth | gateway/dispatcher.go:58-84 | a login never changes a session that is set; otherwise it sets the one the token is accepted for, or hangs up |
| Connection.RoutedExactly | internal/handlers/room.go:28-96 | over every run of the client's create, join, leave, subscribe and unsubscribe requests between other requests, each of its seats stays routed by its books if and only if it makes none of the calls told by Unroutes |
| Connection.CallUnroutesExactly | internal/handlers/room.go:28-96 | the same for one call: unsubscribing from the topic or bare id of a room it sits in, a refused rejoin, or a join under a topic still held |
| Connection.EmptyNamesAreRefused | internal/handlers/room.go:31-89 | a request without a room id, or for a room without a type, changes nothing |
| Connection.JoinLeavesBehind | internal/handlers/room.go:59-79 | a join ends with the seat and its topic, or with the rooms as they were and without the topic |
| Connection.CreateLeavesBehind | internal/handlers/room.go:28-57 | a create ends with the new room, its creator in it and the topic; or, exactly if the room rejects and its creator is recorded in one of its type, with the rooms and records as they were |
| Connection.LeaveLeavesBehind | internal/handlers/room.go:81-96 | a leave ends without the seat, the topic and the route |
| Connection.SweepExactly | gateway/dispatcher.go:157-161 | the leave loop leaves the client seated nowhere if and only if its seats are routed |
| Connection.DisconnectAfterRun | gateway/dispatcher.go:143-170 | so after a run without such calls a disconnect leaves it seated nowhere |
| Connection.SeatLeftBehindFromScratch | gateway/dispatcher.go:157-161 | a reachable state in which a client sits in a room it is not routed by |
| ClientQueues.WrittenIsPrefixOfEnqueued | gateway/client.go:112-122 | over every run the frames written are a gap-free prefix of those enqueued, short of at most one frame lost or in flight and of the queue |
| ClientQueues.SentOrClosed | gateway/client.go:112-122 | every send that returned either put its frame in the queue in its turn or left the client closed |
| ClientQueues.CloseFlushes | gateway/client.go:197-232 | unless the connection broke, the write loop ends only after writing every frame enqueued before the client was closed |
| ClientQueues.WrittenExactly | gateway/client.go:112-232 | over every run whose write loop ended unbroken, a frame that was enqueued, before Close or after it, is written if and only if it was enqueued while the loop was still running |
| ClientQueues.EndOfTheFlush | gateway/client.go:219-231 | such a run has one state before the end of the loop in which all enqueued frames are written, and these are all that ever are |
| ClientQueues.QueuedAfterTheFlush | gateway/client.go:114-116 | a run in which a send after Close is queued and never written |
| ClientQueues.ExitIsFinal | gateway/client.go:200-202 | nothing is written once the write loop has ended |
| ClientQueues.DispatchedInOrder | gateway/client.go:289-309 | dispatched messages are a prefix of the accepted ones in arrival order; the rest waits in a queue of at most 64 |
| ClientQueues.AuthGate | gateway/client.go:278-309 | every dispatched message but a login finds the session set, to the one session the connection ever gets; pings are never dispatched |
| ClientQueues.RunKeeps | gateway/client.go:112-309 | the queue and gate invariants hold along every run |
| ClientQueues.StepKeepsDelivering | gateway/client.go:112-232 | one step of any goroutine keeps frames conserved, sends accounted for and the flush complete |
| ClientQueues.StepKeepsReceived | gateway/dispatcher.go:43-84 | one step of any goroutine keeps the order, the gate and the single login |
| ClientQueues.SendBuffer | gateway/gateway.go:90-92 | a positive size is kept, any other falls back to 256 |
| ClientAnswers.AcceptedExactly | gateway/client.go:252-294 | over every run the messages in the handle queue or past it are exactly those read that pass, in order: no pings, and before somebody logged in only logins; an open client drops none of them, a closing one at most the last |
| ClientAnswers.ArrivalExactly | gateway/client.go:265-285 | the acceptance rule both ways: a message is handed over if and only if it passes, a ping is answered with the pong of its id, anything else refused with 401 under its id, an unreadable frame with 400 |
| ClientAnswers.PushExactly | gateway/client.go:287-293 | a message that passed goes to the end of the handle queue while fewer than 64 wait there, or is given up if the client is closed |
| ClientAnswers.ReplyIsQueued | gateway/client.go:112-122 | a reply of the read loop goes into the queue before the next frame is read |
| ClientAnswers.AnsweredUnderItsId | gateway/dispatcher.go:43-114 | over every run, an answer under way is for the message dispatched last, under its id and with the response or error its kind, the session and the verdict call for; loops end only with the client closed |
| ClientAnswers.HandledExactly | gateway/dispatcher.go:43-122 | what handling one message alone enqueues, and what it does to the session and the connection, by its kind, the session, the outcome and the verdict |
| ClientAnswers.OverflowExactly | gateway/client.go:112-122 | in every interleaving a send is queued exactly if fewer frames wait than configured, 256 by default, is dropped only if the client is closed, and overflows exactly if it is open and full |
| ClientAnswers.ReplyOverflows | gateway/client.go:112-122 | the read loop that finds the queue full closes the client, and its reply is lost |
| ClientAnswers.AnswerOverflows | gateway/client.go:112-122 | the same for the handle loop |
| ClientAnswers.EventOverflows | gateway/client.go:112-122 | the same for any other sender |
| ClientAnswers.EveryMessageIsHandled | gateway/client.go:287-308 | no message is stuck: from every reachable state of an open client, all that passed can come to be dispatched and done with |
| ClientAnswers.EveryFrameIsWritten | gateway/client.go:197-232 | no frame is stuck: from every reachable state whose write loop runs, all frames enqueued can come to be written, and the loop of a closed client then ends |
| ClientAnswers.EveryConnectionEnds | gateway/client.go:197-318 | from every state of a closed client all three loops can come to their end |
| ClientAnswers.ClosingTakesEffectOnce | gateway/client.go:313-318 | a close is possible at any time, takes effect once and loses nothing that is queued |
| Wire.RoundTripInContext | protocol/schema_gen.go:29-195 | for any exact format, prefix and trailing bytes: the prefix is unchanged, the value comes back and exactly its encoding is consumed |
| Wire.ReadsExactlyTheEncodings | protocol/schema_gen.go:44-108 | a read succeeds if and only if the data starts with the encoding of a value that fits, and writing the value again gives the consumed bytes |
| Wire.PrefixFree | protocol/schema_gen.go:29-195 | no encoding is a proper prefix of another of its type |
| Wire.U16Bytes | protocol/schema_gen.go:32-32 | of a 16-bit integer the low byte comes first |
| Wire.U32Bytes | protocol/schema_gen.go:31-31 | of a 32-bit integer the four bytes come lowest first |
| Wire.U16RoundTrip | protocol/schema_gen.go:32-32 | little-endian 16-bit integers come back, with the rest |
| Wire.U16IsPut | protocol/schema_gen.go:59-63 | and only their encodings read as them |
| Wire.U32RoundTrip | protocol/schema_gen.go:31-31 | little-endian 32-bit integers come back, with the rest |
| Wire.U32IsPut | protocol/schema_gen.go:54-58 | and only their encodings read as them |
| Wire.StrRoundTrip | protocol/schema_gen.go:33-34 | length-prefixed strings of up to 65535 bytes come back, with the rest |
| Wire.StrIsPut | protocol/schema_gen.go:64-76 | and only their encodings read as them |
| Wire.ListRoundTrip | protocol/schema_gen.go:246-249 | length-prefixed lists of any exact element format come back |
| Wire.ListIsPut | protocol/schema_gen.go:295-313 | and only their encodings read as them |
| Wire.ReadInTurn | protocol/schema_gen.go:307-313 | reading slot by slot until one fails is reading the list |
| Messages.ClientMessageExact | protocol/schema_gen.go:29-108 | ClientMessage: reading undoes writing, whatever reads was written, and writing appends |
| Messages.ServerMessageExact | protocol/schema_gen.go:110-195 | the same for ServerMessage |
| Messages.CreateOptionExact | protocol/schema_gen.go:317-357 | the same for CreateOption |
| Messages.CreateRoomRequestExact | protocol/schema_gen.go:239-315 | the same for CreateRoomRequest with its nested options |
| Messages.RoomRecordExact | protocol/schema_gen.go:413-497 | the same for a room with its flag byte as it lies on the wire |
| Messages.RoomInfoRestores | protocol/schema_gen.go:413-497 | RoomInfo: reading undoes writing and writing appends |
| Messages.RoomListRestores | protocol/schema_gen.go:499-533 | the same for a list of rooms |
| Messages.RoomInfoUpToUnusedBits | protocol/schema_gen.go:422-490 | a room is written back as it was read up to the seven unused bits, and exactly if and only if they were clear |
| Messages.RoomListUpToUnusedBits | protocol/schema_gen.go:507-533 | a list is written back as it was read with those bits cleared in each room |
| Messages.MinimumLengths | protocol/schema_gen.go:44-47 | the up-front length checks of all six messages refuse nothing that could be read |
| Messages.ClientMessageInContext | protocol/schema_gen.go:29-108 | a ClientMessage after any prefix and before any trailing bytes comes back with them |
| Messages.ClientMessageReads | protocol/schema_gen.go:44-108 | a ClientMessage is read exactly from the data that starts with the encoding of one, and writing it again gives the consumed bytes |
| Messages.ClientMessagePrefixFree | protocol/schema_gen.go:29-42 | no encoded ClientMessage starts another |
| Messages.ServerMessageInContext | protocol/schema_gen.go:110-195 | as for ClientMessage |
| Messages.ServerMessageReads | protocol/schema_gen.go:126-195 | as for ClientMessage |
| Messages.ServerMessagePrefixFree | protocol/schema_gen.go:110-124 | as for ClientMessage |
| Messages.CreateRoomRequestInContext | protocol/schema_gen.go:239-315 | as for ClientMessage, with the nested options |
| Messages.CreateRoomRequestReads | protocol/schema_gen.go:253-315 | as for ClientMessage, with the nested options |
| Messages.CreateRoomRequestPrefixFree | protocol/schema_gen.go:239-251 | as for ClientMessage, with the nested options |
| Messages.RoomListInContext | protocol/schema_gen.go:499-533 | as for ClientMessage |
| Messages.RoomListReads | protocol/schema_gen.go:507-533 | a room list is read exactly from the data that starts with an encoded list of rooms, whatever their unused bits |
| Messages.RoomListPrefixFree | protocol/schema_gen.go:499-505 | as for ClientMessage |
| Layout.ClientMessageLayout | protocol/schema_gen.go:29-42 | the bytes of a ClientMessage, field by field: type, id, op, then token, channel and payload, each behind its length |
| Layout.ServerMessageLayout | protocol/schema_gen.go:110-124 | the bytes of a ServerMessage: type, id, code, op, then channel, error and payload |
| Layout.CreateOptionLayout | protocol/schema_gen.go:317-323 | the bytes of an option: key, then value |
| Layout.CreateRoomRequestLayout | protocol/schema_gen.go:239-251 | the bytes of a CreateRoomRequest: name, type, cap and mode, then the count and the options |
| Layout.RoomRecordLayout | protocol/schema_gen.go:413-429 | the bytes of a room, with its flags in one byte |
| Layout.RoomListLayout | protocol/schema_gen.go:499-505 | the bytes of a list: the count, then the rooms |
| Layout.RoomListReadLayout | protocol/schema_gen.go:507-533 | what a list that can be read starts with: the bytes of rooms that show what is read |
| Codec.TakeUint16 | protocol/schema_gen.go:59-63 | the two bytes at the offset, the low one first; refused exactly if they are not there |
| Codec.TakeUint32 | protocol/schema_gen.go:54-58 | the four bytes at the offset, lowest first; refused exactly if they are not there |
| Codec.EnsureUint16Length | protocol/schema_gen.go:10-15 | the length, or the panic exactly above 65535 |
| Codec.StringEqualBytes | protocol/schema_gen.go:17-27 | true exactly for the same bytes |
| Codec.AppendString | protocol/schema_gen.go:33-34 | appends length and bytes, or panics exactly on a longer string |
| Codec.AppendPayload | protocol/schema_gen.go:37-40 | the element loop appends the whole slice |
| Codec.TakeString | protocol/schema_gen.go:64-76 | the string at the offset whatever the receiver held, refused exactly when the data is too short |
| Codec.TakePayload | protocol/schema_gen.go:90-106 | the slice at the offset whatever the receiver's array held, which is kept when large enough |
| Codec.Resize | protocol/schema_gen.go:299-306 | enough slots, the receiver's own if it has them, and everything past the new length cleared |
| Codec.FillOptions | protocol/schema_gen.go:307-313 | slots are overwritten in turn up to the first that cannot be read; those past the list stay |
| Codec.FillRooms | protocol/schema_gen.go:525-531 | the same for rooms |
| Codec.MarshalOption | protocol/schema_gen.go:317-323 | appends one option, or panics exactly when a length does not fit |
| Codec.UnmarshalOption | protocol/schema_gen.go:325-357 | the option at the offset whatever the slot held |
| Codec.MarshalRoom | protocol/schema_gen.go:413-429 | appends one room, or panics exactly when a length does not fit |
| Codec.UnmarshalRoom | protocol/schema_gen.go:431-497 | the room at the offset whatever the slot held |
| Codec.TakeOptions | protocol/schema_gen.go:295-313 | the list at the offset, with the slots past it cleared |
| Codec.ClientMessage.Marshal | protocol/schema_gen.go:29-42 | the buffer followed by the fields in their order, integers low byte first, or the panic exactly when a length does not fit |
| Codec.ClientMessage.Unmarshal | protocol/schema_gen.go:44-108 | the value and length of the message the data starts with, whose bytes are its fields in their order; refused exactly when it starts with none |
| Codec.ServerMessage.Marshal | protocol/schema_gen.go:110-124 | as for ClientMessage |
| Codec.ServerMessage.Unmarshal | protocol/schema_gen.go:126-195 | as for ClientMessage |
| Codec.CreateRoomRequest.Marshal | protocol/schema_gen.go:239-251 | as for ClientMessage, over the nested list |
| Codec.CreateRoomRequest.Unmarshal | protocol/schema_gen.go:253-315 | as for ClientMessage, and no slot past the list keeps an old option |
| Codec.RoomList.Marshal | protocol/schema_gen.go:499-505 | as for ClientMessage, over the nested list |
| Codec.RoomList.Unmarshal | protocol/schema_gen.go:507-533 | as for ClientMessage, and no slot past the list keeps an old room |

## Left out

- RoomRuns.RejectExclusivity: speaks of settled seats (member of a registered room, no own leave under way) and of users none of whose seated clients was refused a rejoin, because the code does not give more; see RoomLimits.
- RoomExclusivity.StepKeepsExclusive: is about rejecting rooms only, of which it keeps the stronger claim that every settled seat is unique; replacing rooms are in RoomTakeover.
- RoomRuns.SoloJoin: says that such a run exists; what every such run does is SoloRuns.EverySoloJoin.
- RoomRuns.SoloLeave: says that such a run exists; what every such run does is SoloRuns.EverySoloLeave.
- ClientQueues.CloseFlushes: is about the frames enqueued before Close; those enqueued later are in ClientQueues.WrittenExactly.
- News.RosterOverEveryRun: announces each closure before the next one runs; other orders are in Announcements.
- RoomModel.NewRoom: has no timer and no request, so an OnInit that releases the keep again is left out; the code would then arm a timer, or call an empty callback that is not there yet.
- RoomActor.Room.Shutdown: leaves out the OnClose hook and the wait for the loop, which are in ActorLoop.
- BusProtocol.UnsubscribeIsFinal: is about the snapshot of a publish, not its start, because a resubscription in between is delivered.
- EventBus.EventBus.Subscribe: runs alone, so its first pass succeeds; the retries are in BusProtocol.
- Manager.Manager.JoinRoom: returns the error and the events only; the room snapshot taken after a successful join reads state without changing it, and its not-found error after a concurrent removal is not modelled.
- Manager.Manager.Create: leaves out names, options and the room snapshot that the lobby event carries.
- Manager.Manager.ShutdownRooms: shuts the rooms down one after the other, and leaves out their OnClose hooks.
- Dispatcher.Dispatcher.OnDisconnect: leaves out the session store.
- Dispatcher.Dispatcher.HandleAuth: takes the authenticator's verdict as given, and leaves out the session store and the answer's wording.
- Connection.RoutedExactly: runs requests one after the other, and answers only those that touch seats and books.
- News.DirectoryOverEveryRun: orders events by request, as published when requests do not overlap.
- Manager.Resolve: covers the type, cap, mode and grace of a configuration, not names, options and the other defaults.
- ClientQueues.AuthGate: the authenticator's verdict is a free choice of each step, and the session store is not modelled.
- Codec.ClientMessage.Unmarshal: what an error leaves in the receiver is not specified, as callers drop it.
- Codec.TakeString: aliasing between the input bytes and the receiver is excluded, the input being a value.
- Error texts of the codec: an error and a panic are each one value.
- Direct joins of a room that bypass the manager, and a disconnect racing a handler of the same client.
- Routing of room-scoped requests, List, Find, and the read accessors of a room.
- WebSocket, HTTP, deadlines, pings and wall-clock time.
- Game state, handler bodies, panics in hooks, logging and id generation.
- The application facade, builders, session store, command registry, lobby and tuning other than the send buffer.
- The other wire messages (AuthResult, JoinRoomRequest, LeaveRoomRequest, PlayerJoined, PlayerLeft, Kicked, RoomRemoved), which repeat the same field patterns.
