# Verified model of the voice-chat SFU backend and its client replica

This project models the backend prototype (`backend/.prototype/`) as a distributed protocol run by steps, with the
browser's space object (`web/src/types/`) that listens to it, and proves what every run keeps. `dafny verify
dfyconfig.toml` checks all of it.

## How it is organised

Each imperative source file has a class written in its form, and a specification on values that says what each handler
does. A class keeps the specification's state beside its fields (a `model` field, or a `View` function), and each method's
contract is one step of the specification. The results about all runs are lemmas about the specification.

| Part | Specification and its runs | Classes |
|---|---|---|
| SFU worker | `WorkerModel`, `WorkerRuns`, `WorkerSources`, `WorkerReplies`, `WorkerKinds`, `WorkerFeeds` | `SfuWorker.dfy` |
| Workers on the fan-out bus | `Cluster`, `Bus` | `Bus.dfy`, `IdGenerator.dfy` |
| Members, transports, the consumer mesh | `Mesh`, `MeshRuns`, `MeshResults`, `MeshCounts`, `MeshSize`, `MeshReleases`, `MeshHistory`, `MeshWitness` | `MemberService.dfy`, `TransportAllocator.dfy`, `RouterAllocator.dfy`, `RoundRobin.dfy` |
| Coordinator transports and the workers that host them | `MediaPlane`, `PlaneReplies` | |
| Space update dispatcher | `Dispatch`, `DispatchReplies`, and `DispatchRuns`, `DispatchHistory`, `DispatchOffice` with the workers behind it | `SpaceUpdateDispatcher.dfy` |
| Subscriptions and lifecycle | `Lifecycle`, `LifecycleHistory`, and `LifecycleSteps` for requests that overlap | `SpaceService.dfy` |
| Signaling server and sessions | `Mirror`, `Sessions`, `Profiles`, `Closings`, `Strandings` | `SignalingServer.dfy` |
| Coordinator with one server | `System` | |
| Client replica and snapshot cache | `Replica` | `ClientSpace.dfy` |
| Readiness gates | `Readiness` | `Readiness.dfy` |

The results are of two kinds.  Some say what every run keeps.  Others keep a record of what was asked and answered and
say, without naming a handler, what every state and every reply then is: `WorkerReplies`, `PlaneReplies`,
`DispatchReplies`, `DispatchOffice`, `MeshHistory`, `LifecycleHistory`, `Profiles`.

A step is one synchronous run up to the next real await. A media call, a bus request to a service that answers later, and
a promise continuation are pending items that complete, well or badly, in any order.

## Hypotheses

- Worker ids are distinct, and the id generators hand out no more ids than their window holds (`Cluster`, `Mesh`,
  `MediaPlane`, and the allocator classes); `IdGenerator` says exactly when an id comes again.
- What the coordinator answers a signaling server names member ids that are new to that server, and a session that starts
  reads the mirror its member was added to (`Sessions.Possible`).  A channel closes once (`Closings`).
- `Lifecycle` and `System` are about requests that complete one at a time.  `LifecycleSteps` is about requests that
  overlap at the router request.  There an answer's continuations run with it, a subscription to a running space is one
  step, and so is the ending of a space: the source resumes both in a microtask (space-service.ts:161, 226), so the next
  message must come after it.
- Replica agreement is for one connection of a new `Space` object.
- Mesh coverage and counts are about a running space: the space keeps its router.
- Callbacks given as ack do not throw, apart from the acknowledgement of a transport, which is modelled.  The nack
  callbacks of the signaling server do throw (server.ts:345, 388, 455, 480); they touch no state before, and what is
  thrown goes to the handler or promise that nacked, which has nothing left to do.

## What the proofs brought up

- Joins that overlap: a mesh loop links a pair whether or not the other side's loop did, so a pair gets two consumer
  transports per direction exactly when each loop ran while the other member was there (`MeshCounts.OneLinkPerLoop`;
  a run: `MeshWitness.OverlappingJoinsDoubleTheMesh`).  The size k*k holds for joins that complete one at a time
  (`MeshSize.ExactMeshSize`).
- A mesh loop may consume from a producer transport that is not allocated yet, and that consumer may be acknowledged first
  (`MeshWitness.ConsumerMayPrecedeItsSource`). The dispatcher checks the consumer's status only, so it then sends a
  consume command the worker nacks with "producing transport not found"; the worker accepts it exactly when the source is
  allocated (`MediaPlane.ConsumeAcceptedExactlyWhenSourceAllocated`, `DispatchRuns.RefusedExactlyWhenEarly`).
- A consumer acknowledged after its source's record is gone: reading the source throws inside the acknowledgement and the
  worker's catch nacks, so exactly these requests are answered twice, and the transport stays unrecorded with status
  "allocated" (`MediaPlane.AnsweredTwiceExactlyWhenSourceWasGone`; a run: `MeshWitness.LateAckIsNackedToo`).
- A member's mesh loop may come after the member has left; it then allocates consumers for a departed member
  (`MeshWitness.DepartedMemberGetsAConsumer`). Records left behind stay until the router is removed, which removes them
  (`MeshReleases.LeftBehindUntilTheRouterGoes`).
- First subscriptions that overlap: the second acknowledgement strands the first router, or revives a space that was ended
  (`LifecycleSteps.OverlapLeaksARouter`, `LifecycleSteps.OverlapRevivesAnEndedSpace`). The lifecycle invariant survives
  exactly when no subscription asks for a router while one is in flight for the space
  (`LifecycleSteps.LawfulExactlyWithoutOverlap`).
- A channel that closes before its member id is set: its session goes live all the same, and its member is never asked
  back (`Closings.TakenBackExactlyWhenClosedLive`, `Closings.LeftOpenForever`; a run: `Closings.ClosedTooEarly`).
- An unsubscription is acknowledged some time after the space was found empty.  A member that entered in between keeps
  its place in the mirror while its space leaves the index, and a session whose join goes on then fails and leaves its
  member behind for good (`Strandings.IndexedExactlyWhenDropsAreEmpty`, `Strandings.FailedStartLeavesItsMember`; a run:
  `Strandings.LateDropStrandsAMember`).
- A router whose request is nacked stays registered for ever (`LifecycleSteps.NackedRouterStaysForEver`).
- The transport-parameter branch of the client marked as impossible is reachable, exactly when the named member is not
  mirrored by its server (`Replica.ParamsSurpriseExactlyWhenUnknown`).

## Model

| member | source | states |
|---|---|---|
| `WorkerRuns.AnsweredOnceAndNeverLost` | backend/.prototype/worker.ts:155-261 | In every run of one worker a request is answered at most twice, only if the worker took it, and twice exactly when it asked for a transport and its ack callback threw; with no media call outstanding, the only unanswered ones are consumes whose source, on the same router, has no producer yet |
| `WorkerRuns.EveryRunIsSound` | backend/.prototype/worker.ts:88-261 | In every run each request taken is in exactly one place (buffered, in flight, answered), and the worker's maps keep their shape |
| `WorkerSources.BufferAndProducerExclude` | backend/.prototype/worker.ts:95-119 | In every run a key of the buffer has no producer, somebody waiting, all on its router and on record as its consumers; the `producer disappeared` nack is never given; every stored consumer carries the producer id that was acknowledged for a source that feeds it and has a producer |
| `WorkerRuns.ProducedStartsTheBuffer` | backend/.prototype/worker.ts:189-207 | Producing on `k` starts `k`'s buffered consumes once each in arrival order and leaves no buffer for `k` |
| `WorkerRuns.FlushStartsAllInOrder` | backend/.prototype/worker.ts:200-206 | The flush loop, request by request, starts exactly the media consumes of the list, in its order, with no answer on the way |
| `WorkerRuns.CountAfterCommand` | backend/.prototype/worker.ts:173-261 | A command puts its own request in exactly one place and moves no other request |
| `WorkerRuns.CountAfterSettling` | backend/.prototype/worker.ts:110-129 | Settling any media promise, well or badly, changes the number of places of no request |
| `WorkerRuns.StepKeepsAll` | backend/.prototype/worker.ts:131-261 | Every message and every settling keeps soundness and conservation |
| `WorkerReplies.EveryReplyIsTheOneCalledFor` | backend/.prototype/worker.ts:88-261 | In every run a message is taken exactly when it concerns the worker, told from the answers it had given by then; every answer is the one called for by its message, by those answers and by how its promise settled; and what was refused or settled is answered, a thrown acknowledgement both ways |
| `WorkerReplies.ResumeRefusedExactlyWhenNothingConsumed` | backend/.prototype/worker.ts:247-256 | In every run a taken resume gets `consumer not found` if and only if no consume about its transport had been acknowledged when it arrived; any other is acknowledged exactly when its promise resolved and nacked exactly when it was rejected |
| `WorkerReplies.MapsAreWhatWasAcknowledged` | backend/.prototype/worker.ts:65-69 | In every run the worker has exactly the routers and transports it acknowledged, a producer or consumer on a transport exactly when a produce or consume about it was acknowledged, and the consumer it holds is one it acknowledged |
| `WorkerKinds.TransportsAreListedAsAsked` | backend/.prototype/worker.ts:155-166 | In every run a router is registered under its own id and lists a transport on the side, producers or consumers, that its request named, and nowhere else |
| `WorkerFeeds.OnRecordExactlyWhenAccepted` | backend/.prototype/worker.ts:225-229 | In every run a transport is on record under a source exactly when it is on that router and a command to consume from that source about it was accepted |
| `Cluster.SingleOwner` | backend/.prototype/bus.ts:400-408 | In every run over many workers no router or transport id lives on two workers, a fanned-out message is addressed to at most one, and a transport whose creation was acknowledged lives on exactly one |
| `Cluster.AnsweredOnceAcrossWorkers` | backend/.prototype/worker.ts:131-261 | In every run one worker alone answers a message: once, or twice exactly when it asked for a transport whose ack callback threw |
| `Cluster.AddressedOnce` | backend/.prototype/worker.ts:134-178 | At most one worker reacts to a message: by worker id, by router id, by transport id |
| `MediaPlane.AllocatedLivesOnExactlyOneWorker` | backend/.prototype/transport-allocator.ts:76-103 | In every run a coordinator transport that is not unallocated lives on exactly one worker, on the router it was allocated on; an unallocated one lives on none |
| `MediaPlane.ConsumeAcceptedExactlyWhenSourceAllocated` | backend/.prototype/worker.ts:211-246 | The worker starts or buffers a consume command that names the consumer's own source exactly when that source is allocated, and nacks it otherwise |
| `MediaPlane.StepKeepsOk` | backend/.prototype/worker.ts:143-171 | Every coordinator step, publication, command and settling keeps coordinator and workers in agreement on what is requested, allocated and hosted where |
| `MediaPlane.RefsAfterSettling` | backend/.prototype/worker.ts:263-276 | A router id is registered once, so a transport stays on the router object its request named |
| `MediaPlane.AnsweredTwiceExactlyWhenSourceWasGone` | backend/.prototype/worker.ts:164-169 | In every run all the workers together answer a message at most twice, and twice if and only if it asked for a consumer transport that was acknowledged when its source's record was gone; such a transport stays allocated and its source stays gone |
| `MediaPlane.LateExactlyWhenAckedTooLate` | backend/.prototype/transport-allocator.ts:94-101 | A step makes a transport one of those if and only if it settles that transport's own request well while its source's record is gone |
| `PlaneReplies.AllocatedExactlyWhenAWorkerAcked` | backend/.prototype/transport-allocator.ts:90-135 | In every run a coordinator transport is not unallocated if and only if some worker acknowledged a request for it; a worker reported a media failure if and only if it is unallocated and nacked; an acknowledged one is nacked too if and only if that came too late; no request for a transport gets another reply |
| `PlaneReplies.StepKeepsReplies` | backend/.prototype/worker.ts:143-171 | Every coordinator step, publication and settling keeps replies and statuses in step |
| `PlaneReplies.KindsAgreeWithTheRecords` | backend/.prototype/transport-allocator.ts:90-106 | In every run a worker that holds a transport lists it as a producer's exactly when the coordinator's record has no source, and as a consumer's exactly when it has one |
| `PlaneReplies.EachWorkerMakesARun` | backend/.prototype/bus.ts:400-408 | Inside every run of the coordinator with its workers each worker makes a run of its own, so each of its replies is the one called for |
| `PlaneReplies.EachDeskMakesARun` | backend/.prototype/space-update-dispatcher.ts:43-248 | Every run with the dispatcher is a run of the coordinator with its workers, status marks included |
| `DispatchRuns.EveryCommandHasOneTaker` | backend/.prototype/space-update-dispatcher.ts:66-241 | In every run of dispatcher, coordinator and workers, each command the dispatcher published was taken by exactly one worker |
| `DispatchRuns.EveryUpdateAnsweredAtMostOnce` | backend/.prototype/space-update-dispatcher.ts:43-248 | In every run each update is ignored, silent, nacked by the dispatcher or passed on, exactly one of them, and the dispatcher and all the workers together answer it at most once |
| `DispatchRuns.UnansweredExactlyWhenWaiting` | backend/.prototype/worker.ts:173-261 | In every run, once no media call is outstanding, an update has no answer if and only if it was ignored, silent, or a consume whose source was allocated when it was passed on and has no producer on any worker |
| `DispatchRuns.RefusedExactlyWhenEarly` | backend/.prototype/worker.ts:211-223 | The worker a command reaches refuses it on arrival if and only if it is a consume whose source is not allocated yet; then `producing transport not found` is its one answer |
| `DispatchRuns.CommandHasOneAddressee` | backend/.prototype/worker.ts:173-181 | A command about an allocated transport is addressed to exactly one worker, the one that hosts it on its router |
| `DispatchRuns.EventKeepsOk` | backend/.prototype/space-update-dispatcher.ts:43-248 | Every update, plane step and settling keeps dispatcher, coordinator and workers in order |
| `DispatchHistory.SilentExactlyWhenConnectedOnArrival` | backend/.prototype/space-update-dispatcher.ts:43-241 | In every run an update went silent if and only if it was a connect of a present member whose transport was connected on arrival; it was ignored if and only if it came from the coordinator, and passed on, about the transport found and as its own command type, if and only if the guards on arrival let it through |
| `DispatchHistory.UnansweredToldByArrival` | backend/.prototype/space-update-dispatcher.ts:43-248 | In every run, once no media call is outstanding, an update has no answer if and only if it came from the coordinator, was a connect of a transport connected on arrival, or is a consume whose source was allocated when it went out and has no producer |
| `Dispatch.DecisionsAreSound` | backend/.prototype/space-update-dispatcher.ts:43-248 | Every command names an allocated transport, a consume command the producer transport its consumer was allocated for, and the missing-producer dereference is unreachable |
| `DispatchHistory.ConnectedExactlyWhenAWorkerAcked` | backend/.prototype/space-update-dispatcher.ts:67-81 | In every run a transport is connected if and only if some worker answered a command to connect it with an acknowledgement |
| `DispatchHistory.CommandsAreAboutAllocatedTransports` | backend/.prototype/space-update-dispatcher.ts:59-64 | In every run each command ever published is about an allocated transport, and a consume command names the transport its consumer was requested for |
| `DispatchHistory.EventKeepsHistory` | backend/.prototype/space-update-dispatcher.ts:43-248 | Every event keeps the fate of each update and the connected statuses in step with what arrived and what workers answered |
| `DispatchOffice.UpdatesAreAnsweredAsTheWorkersAnswer` | backend/.prototype/space-update-dispatcher.ts:73-238 | In every run of dispatcher, coordinator and workers together, an update is answered positively if and only if a worker answered its command positively, and negatively if and only if a worker nacked its command or the update was turned away, told from how it arrived |
| `DispatchOffice.EventKeepsOffice` | backend/.prototype/space-update-dispatcher.ts:73-238 | Every event keeps the dispatcher's coordinator, commands and answers in step with what the workers answered |
| `DispatchReplies.AnswerIsTheWorkersReply` | backend/.prototype/space-update-dispatcher.ts:43-248 | In every run of the dispatcher an update is answered at most once: `ack` if and only if its command was replied to positively, `nack` if and only if negatively or when it was turned away on arrival |
| `DispatchReplies.ConnectedExactlyWhenReplied` | backend/.prototype/space-update-dispatcher.ts:66-84 | In every run a command waits exactly while its update went out and has no reply, it is about the transport found on arrival, and a transport is connected exactly when a connect about it was replied to positively |
| `DispatchReplies.EventKeepsLedger` | backend/.prototype/space-update-dispatcher.ts:43-248 | Every event keeps answers, waiting commands and connected statuses as told |
| `Dispatch.EventKeepsOk` | backend/.prototype/space-update-dispatcher.ts:43-248 | In every state that keeps the invariant, every update, worker reply and coordinator step completes without a throw and keeps it |
| `MeshResults.MeshCoverage` | backend/.prototype/member-service.ts:108-135 | In any interleaving of joins, leaves and answers, a pair of present members of a running space with nothing pending or nacked for it has `x`'s consumer of `y` recorded, allocated, registered, and consuming from `y`'s producer transport |
| `MeshResults.SettledMeshIsComplete` | backend/.prototype/member-service.ts:112-135 | Once nothing is requested or due and every nacked transport was acknowledged before, every ordered pair of present members is covered |
| `MeshCounts.OneLinkPerLoop` | backend/.prototype/member-service.ts:118-134 | In every run, whatever is nacked, leaves or overlaps: for two present members of a running space, `x` has one transport consuming from `y` for each of their two mesh loops that ran while the other was there, so two per direction if and only if both did |
| `MeshWitness.OverlappingJoinsDoubleTheMesh` | backend/.prototype/member-service.ts:113-135 | A run of two joins, both acknowledged before either mesh loop, leaves the pair two consumer transports in each direction |
| `MeshSize.ExactMeshSize` | backend/.prototype/member-service.ts:112-135 | Whatever other spaces do: when a space's joins complete one at a time, nobody leaves it and no loop is to come, its router has exactly k*k records for k members: one producer transport for each member and one consumer transport for each ordered pair |
| `MeshCounts.RunKeepsOrder` | backend/.prototype/member-service.ts:106-137 | In such a run each member's mesh loop meets exactly the members that joined before it |
| `MeshResults.MeshLoopSize` | backend/.prototype/member-service.ts:118-134 | A present member's mesh loop adds one transport per direction to each other present member, whether or not the pair has some already |
| `MeshWitness.ConsumerMayPrecedeItsSource` | backend/.prototype/member-service.ts:126-133 | A run in which a consumer is allocated and recorded while the request for its source transport is pending |
| `MeshWitness.LateAckIsNackedToo` | backend/.prototype/transport-allocator.ts:94-101 | A run in which a source leaves before its consumer's acknowledgement: the transport is allocated, not recorded, and its request nacked as well |
| `MeshWitness.DepartedMemberGetsAConsumer` | backend/.prototype/member-service.ts:113-135 | A run in which the mesh loop of a member that has left allocates a consumer transport for it |
| `MeshReleases.LeftBehindUntilTheRouterGoes` | backend/.prototype/transport-allocator.ts:137-140 | A record a departed member left on a running router stays if and only if that router is not removed; once gone it is gone for good |
| `MeshResults.RouterRemovalReleasesEverything` | backend/.prototype/router-allocator.ts:95-108 | In every run removing a router removes exactly the transport records of that router, consumers left behind by earlier departures included |
| `MeshReleases.RemovedRoutersStayEmpty` | backend/.prototype/router-allocator.ts:95-108 | In every run, after a router's removal no answer and no mesh loop brings a record of it back before somebody joins a space on it |
| `MeshReleases.OnlyAJoinBringsOneBack` | backend/.prototype/transport-allocator.ts:67-89 | A router without records has one after a step if and only if the step is a join of a space on it |
| `MeshResults.RecordsBelongToTheirRouter` | backend/.prototype/transport-allocator.ts:76-82 | In every run each record of the allocator is also in its owning router |
| `MeshResults.AckFindsItsRecord` | backend/.prototype/transport-allocator.ts:97-101 | When an acknowledged consumer's source record stands, so does its own, so no undefined is stored |
| `MeshResults.StoreAgreesWithSpaces` | backend/.prototype/member-service.ts:68-89 | In every run a member is in a space's member map if and only if it is in the store and that space owns it |
| `MeshResults.StatusMoves` | backend/.prototype/transport-allocator.ts:94-96 | A step moves a status by at most one, forward; only an acknowledgement allocates, only a connect connects |
| `MeshResults.StatusesOnlyMoveForward` | backend/.prototype/transport-allocator.ts:76-103 | Over any run no status moves back and no transport object is lost |
| `MeshResults.StepKeepsInv` | backend/.prototype/member-service.ts:91-177 | Every join, leave, answer, mesh loop and router removal keeps the store, the indices and the state of every pair in order |
| `MeshHistory.EverythingIsTold` | backend/.prototype/member-service.ts:68-177 | In every run members, pending and failed requests, statuses, due mesh loops, recorded consumers, records and routers are exactly what the joins, leaves, answers, loops and removals so far tell |
| `MeshHistory.StepKeepsLedger` | backend/.prototype/transport-allocator.ts:67-135 | Every step keeps all of that told |
| `Lifecycle.LifecycleInvariant` | backend/.prototype/space-service.ts:151-188 | In every run of completed requests: initialized and ended mean no subscriber, member or router; running means its own registered router and at least one subscriber or member; a router made for a space is registered exactly while the space runs on it |
| `Lifecycle.StatusMoves` | backend/.prototype/subscription-driven-policy.ts:17-55 | A status moves one step forward: to running exactly by a subscription whose router is allocated, to ended exactly when subscribers and members are both gone |
| `Lifecycle.EndedIsForever` | backend/.prototype/space-service.ts:151-172 | No request changes an ended space or gives it a subscriber, member or router again |
| `Lifecycle.AddingNeedsOnlyASubscription` | backend/.prototype/member-service.ts:91-108 | An add request is acknowledged if and only if its server is subscribed, and never allocates a router |
| `Lifecycle.RequestKeepsInv` | backend/.prototype/space-service.ts:206-274 | Every request that completes keeps the lifecycle invariant |
| `Lifecycle.LastServerLeaves` | backend/.prototype/space-service.ts:256-274 | The last server unsubscribing from an empty running space ends it and removes its router |
| `LifecycleHistory.EverythingIsTold` | backend/.prototype/space-service.ts:90-274 | In every run of completed requests the subscriptions are the acknowledged ones not unsubscribed since, a space's members those added and not removed, and the routers those asked for, except those of ended spaces |
| `LifecycleHistory.AnswersAreTold` | backend/.prototype/space-service.ts:206-274 | In every run a subscription, unsubscription, add and removal is acknowledged exactly on its own condition, told from the requests so far |
| `LifecycleSteps.LawfulExactlyWithoutOverlap` | backend/.prototype/router-allocator.ts:61-91 | In every run in which workers acknowledge each router they are asked for: the lifecycle invariant holds throughout and ended spaces stay ended if and only if no subscription asks for a router while another one's request for the same space is in flight |
| `LifecycleSteps.LawfulWithoutOverlap` | backend/.prototype/router-allocator.ts:61-91 | Without such an overlap the law holds throughout every run, whatever workers answer and when |
| `LifecycleSteps.LawfulExactlyWhenOnTime` | backend/.prototype/space-service.ts:151-172 | In every run the law holds throughout if and only if each acknowledgement finds its space still initialized |
| `LifecycleSteps.AckIsLawfulExactlyOnTime` | backend/.prototype/space-service.ts:158-171 | One acknowledgement keeps the law if and only if its space is still initialized: else it strands the space's router or revives an ended space |
| `LifecycleSteps.SafeToAskExactlyWhenNotAwaited` | backend/.prototype/router-allocator.ts:61-66 | Asking for a router is safe, whatever comes next without overlap, if and only if none is in flight for that space |
| `LifecycleSteps.StepKeepsInv` | backend/.prototype/space-service.ts:206-274 | Overlapping or not, every step keeps what each status promises of subscribers, members and the space's own router |
| `LifecycleSteps.AnsweredAtOnce` | backend/.prototype/space-service.ts:206-254 | A subscription whose router request is answered at once does what it does in the model of requests that complete one at a time |
| `LifecycleSteps.OverlapLeaksARouter` | backend/.prototype/router-allocator.ts:79-84 | A run in which two first subscriptions overlap and the first router stays registered without a space that uses it |
| `LifecycleSteps.OverlapRevivesAnEndedSpace` | backend/.prototype/space-service.ts:171-171 | A run in which the second acknowledgement makes an ended space run again |
| `LifecycleSteps.NackedRouterStaysForEver` | backend/.prototype/router-allocator.ts:86-90 | In every run a router whose request is nacked stays registered for ever after, and is never a space's router |
| `LifecycleSteps.RunKeepsInv` | backend/.prototype/space-service.ts:206-274 | Over any run, overlapping or not, each space keeps what its status promises of subscribers, members and router |
| `System.BothSidesAgree` | backend/.prototype/server.ts:322-485 | With one server and completed requests, in every run: mirrored iff subscribed iff running, the same member ids on both sides, at least one member |
| `System.LeaveEndsExactlyWhenLast` | backend/.prototype/server.ts:416-485 | The last leave drives unsubscribe, end and router removal in one chain; any other leave removes that member only |
| `System.JoinSucceedsExactlyWhenJoinable` | backend/.prototype/server.ts:322-393 | A join succeeds if and only if the space is running, or initialized with a worker to provide the router, and keeps both sides in agreement |
| `System.AcknowledgedJoinIsMirrored` | backend/.prototype/server.ts:353-393 | After an acknowledged join the signaling server mirrors the new member with the data and state it came with, in the space it asked for, and the coordinator's ownership grows by exactly that member |
| `System.UpdateIsMirrored` | backend/.prototype/server.ts:396-413 | An update of a mirrored member sets exactly the state fields it names; its other fields, every other member and the set of members stay |
| `Sessions.ReplicasAgree` | backend/.prototype/member-session.ts:130-140 | In every run, for every registered channel, the client's fold of the channel log holds exactly the other members as mirrored, and its own data and connection flag, wherever own mute changes fall in between |
| `Sessions.NoSurprises` | web/src/types/space.ts:358-407 | On every channel nothing precedes `spaceInit`, it comes once, and the client's join, leave and state-update branches that should not happen are never taken |
| `Profiles.ClientsReadTheirSpace` | web/src/types/space.ts:241-274 | In every run what a registered client reads is its space as the server mirrors it: uuid, data, every other member with data and state, and of itself all but the mute flag, which is what the user last set unless the opening snapshot came later |
| `Profiles.MirrorIsWhatWasTold` | backend/.prototype/server.ts:322-445 | In every run the server mirrors exactly the members that entered and were not removed, each in the space and with the data it entered with, and each field of its state as the last patch naming it set it; a space object is what it was mirrored as |
| `Profiles.ParamsAreDeliveredInOrder` | backend/.prototype/server.ts:488-512 | In every run the transport parameters on a channel are those the coordinator sent for its registered member, in order, each naming the source member or else the member itself |
| `Profiles.VerdictIsTold` | backend/.prototype/server.ts:488-530 | In every run a coordinator event is ignored exactly in the other direction, nacked exactly for a space not mirrored or an unknown type, and acknowledged otherwise |
| `Profiles.DropIsAskedExactlyWhenEmptied` | backend/.prototype/server.ts:423-472 | In every run an acknowledged removal asks for an unsubscription exactly when nobody else is mirrored in the member's space, its uuid is still mirrored, and nobody else is in the space mirrored under it |
| `Sessions.MirrorIndicesAgree` | backend/.prototype/server.ts:270-299 | In every run the global member map and the member maps of all space objects ever made, indexed or not, describe the same members, each in exactly its owning space object |
| `Strandings.IndexedExactlyWhenDropsAreEmpty` | backend/.prototype/server.ts:457-482 | In every run each mirrored member's owning space is the one indexed under its uuid, throughout, if and only if each unsubscription that is acknowledged finds its space still empty |
| `Strandings.IndexedUntilDropped` | backend/.prototype/server.ts:270-281 | A space object keeps its uuid, leaves the index exactly when it is dropped, and never enters it again |
| `Strandings.FailedStartLeavesItsMember` | backend/.prototype/member-session.ts:75-145 | The member of a session whose space is gone when its join goes on is never asked back, whatever comes after, and stays in the mirror exactly when it was there, in a space object that is not indexed |
| `Strandings.LateDropStrandsAMember` | backend/.prototype/server.ts:423-482 | A run in which a member enters between a space being found empty and its unsubscription being acknowledged, and is stranded |
| `Closings.TakenBackExactlyWhenClosedLive` | backend/.prototype/member-session.ts:57-62 | In every run the member of a closed session is asked back, pending or answered, if and only if its channel closed while the session was live; an acknowledged removal takes it out of the mirror for good |
| `Closings.LeftOpenForever` | backend/.prototype/member-session.ts:137-140 | A session that went live after its channel closed keeps its dead channel registered and its member mirrored, never asked back, whatever comes after |
| `Closings.ClosedTooEarly` | backend/.prototype/member-session.ts:57-140 | A run in which a channel closes between the member's acknowledgement and the rest of the join |
| `Closings.WatchingIsRunning` | backend/.prototype/client-channel-port.ts:45-46 | The runs watched for closes are runs of the server, restricted only in that a channel closes once |
| `Closings.StepKeepsWatch` | backend/.prototype/server.ts:416-445 | Every step keeps the record of ids given, removals asked for and their answers in order |
| `Sessions.StepKeepsInv` | backend/.prototype/server.ts:322-485 | Every connection, acknowledgement, client message, coordinator event and close keeps every live client in agreement with its mirror |
| `Mirror.MirroringKeepsIndices` | backend/.prototype/server.ts:327-342 | Mirroring a space keeps the member indices in agreement if and only if it lists no id the server mirrors already |
| `Mirror.AddingKeepsIndices` | backend/.prototype/server.ts:353-393 | Mirroring an acknowledged member keeps the indices in agreement |
| `Mirror.RemovingKeepsIndices` | backend/.prototype/server.ts:423-445 | Removing an acknowledged member keeps the indices in agreement |
| `Mirror.UpdatingKeepsIndices` | backend/.prototype/server.ts:396-413 | Updating a member's state keeps the indices in agreement |
| `Mirror.PatchedFieldByField` | backend/.prototype/server.ts:396-413 | A patch sets each field it names and no other, of one member and no other, and the result is what every registered channel of the space is sent; it fails exactly for an unknown member |
| `Replica.InitGivesTheMirror` | web/src/types/space.ts:415-444 | Folding `spaceInit` into a new client gives the listed members, own entry apart |
| `Replica.JoinKeepsMirror` | web/src/types/space.ts:358-375 | A join of a new member takes the replica of the old member map to the replica of the new one |
| `Replica.LeaveKeepsMirror` | web/src/types/space.ts:377-388 | A leave of another member takes the replica of the old member map to the replica of the new one |
| `Replica.UpdateKeepsMirror` | web/src/types/space.ts:390-407 | A state update takes the replica of the old member map to the replica of the new one; of the own entry only the connection flag |
| `Replica.ParamsSurpriseExactlyWhenUnknown` | web/src/types/space.ts:446-467 | The transport-parameter branch that should not happen is taken if and only if the named member is not mirrored |
| `Replica.OwnFlipsStayLocal` | web/src/types/space.ts:302-308 | Own mute changes between events affect the own mute flag and nothing else |
| `Replica.WarningsOnlyGrow` | web/src/types/space.ts:358-407 | Events never take back a branch that should not happen |
| `Replica.OwnMuteAndSpaceAreTold` | web/src/types/space.ts:302-308 | However events and own flips come, the own mute flag is what the user last set unless the first snapshot came later and lists the own member, and uuid, data and own id are those of that snapshot |
| `Replica.SurprisedExactlyWhenOutOfStep` | web/src/types/space.ts:358-407 | An agreeing client takes a branch that should not happen exactly for a join of somebody mirrored, a leave of somebody not mirrored or of itself, and an update of somebody not mirrored; nothing else changes then |
| `ClientSpace.SnapshotShowsTheMirror` | web/src/types/space.ts:251-264 | What is read from an agreeing client is the mirrored member map, itself apart from its own mute flag |
| `Readiness.ReadyOnceBothAreThere` | web/src/types/transport.ts:90-126 | In any order of device load, audio context and handlers: not ready, no handler has run; ready, each has run exactly once, nested ones included, in order; ready needs both, and both suffice unless `init` has yet to continue |
| `Readiness.EachRunsOnce` | web/src/types/transport.ts:113-126 | Running the handlers in order, with what they register, runs each exactly as often as it was registered |
| `Readiness.ReadyOnce` | web/src/types/transport.ts:90-107 | A ready factory stays ready and takes back no handler |
| `RoundRobin.PickedFairly` | backend/.prototype/allocation-strategy.ts:12-29 | From any counter, over m picks on n distinct ids each is chosen floor(m/n) or ceil(m/n) times, all equally often when n divides m |
| `RoundRobin.ConsecutivePicksPermute` | backend/.prototype/allocation-strategy.ts:12-29 | Any n consecutive picks on n distinct ids are a permutation of them |
| `IdGenerator.ReusedExactlyAfterAWrap` | backend/.prototype/id-gen-process.ts:21-25 | Two calls return the same id exactly when a whole number of wraps lies between them |
| `Bus.CalledUnlessCancelled` | backend/.prototype/bus.ts:400-408 | A registered callback is called if and only if no callback called before it cancels it |
| `Bus.CalledOnce` | backend/.prototype/bus.ts:388-408 | Nobody is called twice for one message |
| `Bus.CalledInOrder` | backend/.prototype/bus.ts:400-408 | The calls come in the order of registration |
| `Bus.LeftUnlessCancelled` | backend/.prototype/bus.ts:394-408 | A callback stays registered if and only if it was and nobody who was called cancels it |
| `SpaceServices.EntryIsTheSubscribers` | backend/.prototype/space-service.ts:77-119 | A space has an entry exactly when somebody is subscribed, and the entry is the set of its subscribers |
| `SfuWorkers.SfuWorker.constructor` | backend/.prototype/worker.ts:63-75 | A new worker is the initial state of the model |
| `SfuWorkers.SfuWorker.OnNewRouterRequest` | backend/.prototype/worker.ts:131-141 | Only the named worker starts creating a router |
| `SfuWorkers.SfuWorker.OnNewWebRtcTransportRequest` | backend/.prototype/worker.ts:143-171 | Only the owner of the router starts creating a transport |
| `SfuWorkers.SfuWorker.OnTransportUpdate` | backend/.prototype/worker.ts:173-181 | `W:` messages and unknown transports are skipped; anything else is handled as the model's delivery |
| `SfuWorkers.SfuWorker.OnCommand` | backend/.prototype/worker.ts:182-261 | Each command type has the model's effect on jobs, buffer, records and answers |
| `SfuWorkers.SfuWorker.OnConsume` | backend/.prototype/worker.ts:211-246 | The checks of a consume request, in order, with their nacks |
| `SfuWorkers.SfuWorker.OnCheckedConsume` | backend/.prototype/worker.ts:225-246 | A checked consume is recorded, then buffered or started |
| `SfuWorkers.SfuWorker.Buffer` | backend/.prototype/worker.ts:232-243 | The request goes to the end of its source's list |
| `SfuWorkers.SfuWorker.RecordConsumer` | backend/.prototype/worker.ts:225-229 | The consumer transport joins the set under its source, and nothing else changes |
| `SfuWorkers.SfuWorker.ConsumeAndAck` | backend/.prototype/worker.ts:88-129 | A consume starts on the source's producer, or is nacked |
| `SfuWorkers.SfuWorker.OnSettled` | backend/.prototype/worker.ts:110-276 | A settled promise has the model's effect, for each kind of media call |
| `SfuWorkers.SfuWorker.OnRouterCreated` | backend/.prototype/worker.ts:263-276 | The new router is registered empty under its assigned id and acknowledged |
| `SfuWorkers.SfuWorker.OnTransportCreated` | backend/.prototype/worker.ts:155-169 | The new transport is registered and acknowledged; when the ack callback throws, the catch nacks it as well |
| `SfuWorkers.SfuWorker.RegisterTransport` | backend/.prototype/worker.ts:155-166 | The new transport is registered with the worker and, by kind, with its router, and acknowledged |
| `SfuWorkers.SfuWorker.OnConsumerCreated` | backend/.prototype/worker.ts:99-127 | The new consumer is stored under its transport and acknowledged |
| `SfuWorkers.SfuWorker.OnProduced` | backend/.prototype/worker.ts:191-207 | The producer is stored, acknowledged, and its buffer flushed |
| `SfuWorkers.SfuWorker.Flush` | backend/.prototype/worker.ts:200-206 | The loop over the buffered requests equals the model's flush |
| `Bus.InProcessBus.Consume` | backend/.prototype/bus.ts:388-398 | Consuming appends the callback once; other queues stay |
| `Bus.InProcessBus.Cancel` | backend/.prototype/bus.ts:394-397 | Cancelling removes the callback; other queues stay |
| `Bus.InProcessBus.Publish` | backend/.prototype/bus.ts:400-408 | The loop over the live set calls exactly the callbacks the fan-out function gives, in order, and leaves registered what none of them cancelled |
| `IdGenerator.ProcessCounterIdGenerator.Next` | backend/.prototype/id-gen-process.ts:21-25 | The n-th id after a call is the n+1st before it |
| `RoundRobin.RoundRobinStrategy.Pick` | backend/.prototype/allocation-strategy.ts:22-29 | An empty list is an error and leaves the counter; else the id at counter mod length, and the counter advances |
| `TransportAllocators.TransportAllocator.Allocate` | backend/.prototype/transport-allocator.ts:67-89 | Unknown source: nothing changes. Otherwise one new unallocated record in the allocator and its router, requested; a producer also becomes the member's producer |
| `TransportAllocators.TransportAllocator.RemoveAll` | backend/.prototype/router-allocator.ts:101-104 | The loop removes exactly the listed records |
| `RouterAllocators.OthersKeepTheirOrder` | backend/.prototype/router-allocator.ts:47-49 | Filtering keeps exactly the positions that hold another worker, in ascending order |
| `RouterAllocators.OthersKeepTheirNumber` | backend/.prototype/router-allocator.ts:47-49 | Every other worker is kept as often as it was listed, the disconnected one not at all |
| `RouterAllocators.RouterAllocator.OnMediaWorkerDisconnected` | backend/.prototype/router-allocator.ts:47-49 | Every occurrence of the worker goes, the others keep their order |
| `RouterAllocators.RouterAllocator.Allocate` | backend/.prototype/router-allocator.ts:61-92 | An existing primary router is returned; no workers is an error; else one new router is registered and requested from the round-robin choice |
| `RouterAllocators.RouterAllocator.Remove` | backend/.prototype/router-allocator.ts:95-108 | An unknown router changes nothing; a known one goes with all its transport records |
| `MemberServices.MemberService.constructor` | backend/.prototype/member-service.ts:38-52 | The service starts empty |
| `MemberServices.MemberService.OnRouterAllocated` | backend/.prototype/router-allocator.ts:79-84 | The space gets its primary router |
| `MemberServices.MemberService.Add` | backend/.prototype/member-service.ts:68-80 | A member with the next id joins the store and its space |
| `MemberServices.MemberService.OnAddMember` | backend/.prototype/member-service.ts:106-137 | The member is recorded and acknowledged with its producer transport requested |
| `MemberServices.MemberService.AllocateConsumer` | backend/.prototype/member-service.ts:120-133 | A consumer allocation whose rejection changes nothing |
| `MemberServices.MemberService.ConnectAll` | backend/.prototype/member-service.ts:118-134 | The mesh loop visits every member once and has the effect of linking them one after another |
| `MemberServices.MemberService.OnProducerAllocated` | backend/.prototype/member-service.ts:113-135 | The continuation after the producer transport resolved is the model's mesh step |
| `MemberServices.MemberService.OnTransportAck` | backend/.prototype/transport-allocator.ts:89-103 | The status becomes allocated and the consumer is recorded under its source's owner; if the source is gone, the status changes and the request is nacked as well |
| `MemberServices.MemberService.Remove` | backend/.prototype/member-service.ts:82-89 | The member leaves the store and its owning space, or nothing changes |
| `MemberServices.MemberService.OnRemoveMember` | backend/.prototype/member-service.ts:150-170 | Unknown member: nack, nothing changes; else its producer, its recorded consumers and the member go |
| `MemberServices.MemberService.RemoveRouter` | backend/.prototype/router-allocator.ts:95-108 | Removing the router is the model's release step |
| `SpaceUpdateDispatchers.SpaceUpdateDispatcher.IsUsable` | backend/.prototype/space-update-dispatcher.ts:59-64 | A looked-up transport is usable exactly when present and not unallocated |
| `SpaceUpdateDispatchers.SpaceUpdateDispatcher.OnConnect` | backend/.prototype/space-update-dispatcher.ts:66-84 | Not usable: nack; not connected: one command; connected: neither |
| `SpaceUpdateDispatchers.SpaceUpdateDispatcher.OnSpaceUpdate` | backend/.prototype/space-update-dispatcher.ts:43-52 | `C:` updates are ignored, unknown spaces, types and members nacked, the rest handled, as the model's decision says |
| `SpaceUpdateDispatchers.SpaceUpdateDispatcher.Guard` | backend/.prototype/space-update-dispatcher.ts:43-56 | The guards in the source's order, each with its own outcome |
| `SpaceUpdateDispatchers.SpaceUpdateDispatcher.Handle` | backend/.prototype/space-update-dispatcher.ts:53-241 | Each of the five update types has exactly the effect of the model's decision |
| `SpaceUpdateDispatchers.SpaceUpdateDispatcher.OnWorkerReply` | backend/.prototype/space-update-dispatcher.ts:73-84 | A reply is passed on once, and an acknowledged connect sets the status |
| `SpaceUpdateDispatchers.SpaceUpdateDispatcher.PassOn` | backend/.prototype/space-update-dispatcher.ts:73-84 | One answer per reply, and the `connected` status exactly for an acknowledged connect |
| `SpaceServices.SpaceService.constructor` | backend/.prototype/space-service.ts:45-55 | The service starts empty with both maps in agreement |
| `SpaceServices.SpaceService.HasSubscribers` | backend/.prototype/space-service.ts:77-79 | True exactly when some server is subscribed |
| `SpaceServices.SpaceService.IsSubscribed` | backend/.prototype/space-service.ts:82-87 | True exactly when the server is subscribed |
| `SpaceServices.SpaceService.SubscriberCount` | backend/.prototype/space-service.ts:179-179 | The count given to the policy is the true number of subscribers |
| `SpaceServices.SpaceService.Subscribe` | backend/.prototype/space-service.ts:90-100 | The relation gains exactly the pair, and the two maps stay mutual inverses without empty entries |
| `SpaceServices.SpaceService.Unsubscribe` | backend/.prototype/space-service.ts:103-119 | The relation loses exactly the pair, and the two maps stay mutual inverses without empty entries |
| `SpaceServices.SpaceService.ForgetSpace` | backend/.prototype/space-service.ts:104-110 | The server's entry loses the space, and goes when it is empty |
| `SpaceServices.SpaceService.ForgetServer` | backend/.prototype/space-service.ts:112-118 | The space's entry loses the server, and goes when it is empty |
| `SpaceServices.SpaceService.AllocateRouter` | backend/.prototype/router-allocator.ts:61-92 | The existing router is used, or a new one stored when the worker acknowledges, or the call rejects |
| `SpaceServices.SpaceService.ApplyTransition` | backend/.prototype/space-service.ts:151-172 | The legal transitions with their side effects; others change nothing; a rejection leaves the status |
| `SpaceServices.SpaceService.OnSubscribe` | backend/.prototype/space-service.ts:206-254 | The answer and the new state of a subscription, for every status and allocation outcome |
| `SpaceServices.SpaceService.EndWhenDone` | backend/.prototype/space-service.ts:179-182 | The policy's verdict on the true counts is applied |
| `SpaceServices.SpaceService.OnUnsubscribe` | backend/.prototype/space-service.ts:256-274 | The answer and the new state of an unsubscription |
| `SpaceServices.SpaceService.NotifyMemberLeft` | backend/.prototype/space-service.ts:175-188 | An unknown space changes nothing; else the policy decides |
| `SignalingServers.SignalingServer.constructor` | backend/.prototype/server.ts:218-234 | The server starts with nothing mirrored |
| `SignalingServers.SignalingServer.Broadcast` | backend/.prototype/server.ts:406-410 | The loop emits the event once on the channel of each listed member that has one |
| `SignalingServers.SignalingServer.AddMember` | backend/.prototype/server.ts:283-291 | The member enters the global map and its space |
| `SignalingServers.SignalingServer.OnSpaceMirrored` | backend/.prototype/server.ts:327-342 | The first acknowledgement mirrors the space with its members; a duplicate changes nothing |
| `SignalingServers.SignalingServer.MirrorAll` | backend/.prototype/server.ts:332-334 | The loop over the listed members enrols all of them |
| `SignalingServers.SignalingServer.OnMemberAdded` | backend/.prototype/server.ts:362-377 | The member is mirrored and announced to the other channels of its space; a known member or unknown space changes nothing |
| `SignalingServers.SignalingServer.UpdateMember` | backend/.prototype/server.ts:396-413 | Each field the patch names takes its value, the others and the data stay, and the merged state is sent to every channel of the space; an unknown member is an error |
| `SignalingServers.SignalingServer.RemoveMember` | backend/.prototype/server.ts:293-299 | The member leaves the global map and the members of its owning space; no other member or space changes |
| `SignalingServers.SignalingServer.OnMemberRemoved` | backend/.prototype/server.ts:423-445 | The member is removed and announced to the others; the space to unsubscribe is named exactly when it is empty |
| `SignalingServers.SignalingServer.GetClientSideMembers` | backend/.prototype/server.ts:169-180 | The projection lists each member of the space once, with its data and state |
| `SignalingServers.SignalingServer.OnSpaceUpdate` | backend/.prototype/server.ts:488-530 | The verdict and the emissions for every kind of coordinator event |
| `SignalingServers.MemberSession.OnMemberPrepared` | backend/.prototype/member-session.ts:81-145 | The snapshot is emitted before the channel is registered; a vanished space fails the connection |
| `SignalingServers.MemberSession.SendInit` | backend/.prototype/member-session.ts:130-134 | The snapshot of the session's own space goes out on its own channel and no other |
| `SignalingServers.MemberSession.OnClose` | backend/.prototype/member-session.ts:57-62 | Before the member id is set nothing happens; after, the channel is unregistered and removal requested for a mirrored member |
| `ClientSpace.Space.constructor` | web/src/types/space.ts:72-94 | A new space agrees with the model's new client and has no valid cache |
| `ClientSpace.Space.GetSnapshot` | web/src/types/space.ts:241-274 | Null exactly before `spaceInit`; else a snapshot that shows the fields as they are, every consumer member with its data and state, the cached object when valid, a new one otherwise |
| `ClientSpace.Space.CollectConsumers` | web/src/types/space.ts:260-264 | The loop collects every consumer's data and state |
| `ClientSpace.Space.NotifySnapshotUpdate` | web/src/types/space.ts:235-239 | Every subscriber is called once, after the cache is invalidated, so each reads the fields as they are now |
| `ClientSpace.Space.HandleMemberJoin` | web/src/types/space.ts:358-375 | A join has the model's effect; every subscriber then reads the new state once, and none is called when the branch only warns |
| `ClientSpace.Space.HandleMemberLeave` | web/src/types/space.ts:377-388 | A leave has the model's effect; every subscriber then reads the new state once, and none is called when the branch only warns |
| `ClientSpace.Space.HandleMemberStateUpdate` | web/src/types/space.ts:390-407 | A state update has the model's effect on own, other or unknown member; every subscriber then reads the new state once, and none is called for an unknown member |
| `ClientSpace.Space.UpdateProducerMemberState` | web/src/types/space.ts:302-308 | The own mute flag is the one given, at once, the connection flag and the data stay, one update is sent, every subscriber reads the new flag once |
| `ClientSpace.Space.HandleTransportParams` | web/src/types/space.ts:446-467 | Parameters for an unknown member are counted and nobody is told; otherwise every subscriber is called once; members stay as they are |
| `ClientSpace.Space.HandleSpaceInit` | web/src/types/space.ts:415-444 | The first one enlists every listed member in order and every subscriber reads the result once; a later one is ignored and nobody is told |
| `ClientSpace.Space.Enter` | web/src/types/space.ts:415-440 | A first snapshot sets id, uuid, data and flag and enlists every listed member in order, before anybody is told |
| `ClientSpace.Space.EnlistMember` | web/src/types/space.ts:422-434 | The own entry fills the producer, any other one a consumer |
| `ClientSpace.Space.OnSocketDisconnected` | web/src/types/space.ts:217-224 | Only the flag falls; members and cache stay in agreement |
| `ClientSpace.Space.Cleanup` | web/src/types/space.ts:146-155 | The flag falls and the cache is dropped |
| `ClientSpace.Space.HandleSpaceClose` | web/src/types/space.ts:409-413 | The flag falls, and every subscriber is called once and reads no snapshot |
| `ClientSpace.Space.ReadTwice` | web/src/types/space.ts:241-274 | Two reads with no update between return the same object |
| `Readiness.Gate.Call` | web/src/types/transport.ts:121-125 | Running one handler runs it and, depth first, what it registers |
| `Readiness.Gate.OnceReady` | web/src/types/transport.ts:113-119 | Closed, the handler waits; open, it runs at once; each handler given is accounted for |
| `Readiness.Gate.Open` | web/src/types/transport.ts:121-126 | Draining runs every waiting handler once, in order, and empties the array; opening again does nothing |
| `Readiness.TransportFactory.constructor` | web/src/types/transport.ts:85-88 | A new factory is not ready and has no handlers |
| `Readiness.TransportFactory.ContinueInit` | web/src/types/transport.ts:92-95 | `init` opens the gate exactly when not open and a context is there |
| `Readiness.TransportFactory.SetAudioContext` | web/src/types/transport.ts:98-107 | A suspended context is an error and changes nothing; else it is stored and opens the gate exactly when the device is loaded |
| `Readiness.TransportFactory.AddHandler` | web/src/types/transport.ts:113-119 | The handler joins the given ones, and runs at once exactly when ready |

## Left out

- RTP, DTLS and ICE payloads and capabilities: opaque; only presence and identity matter.
- The mediasoup and Socket.IO adapters, the HTTP server, configuration, the React application: foreign calls, I/O and user interface.
- Timers and library callbacks of the browser transports, and the tracks behind producers and consumers.
- Records as heap objects in the coordinator's classes: a transport, router or member object is the entry under its id in `Records`, and a mirrored member is the entry in its space object's map; sharing is by id, so two objects with one id are not representable there.
- Ids that come again after the generators' window: excluded by hypothesis everywhere but in `IdGenerator`.
- The round-robin counter is an unbounded number; the source's counter loses precision beyond 2^53.
- Order of the members inside a snapshot and of JavaScript map iteration: the model iterates in any order.
- User event handlers on the client other than snapshot subscribers; the source calls them before the snapshot is invalidated.
- The own mute flag on the client against the server's copy: a change made between the server's `spaceInit` and its arrival is overwritten on the client and kept on the server, so no agreement is stated for it; each side's flag is told from its own inputs (`Replica.OwnMuteAndSpaceAreTold`, `Profiles.MirrorIsWhatWasTold`).
- Transport parameters that come before the channel is registered: the source drops them, so `Profiles.ParamsAreDeliveredInOrder` is about those that come after.
- The client's `init` (listeners, status reset, connecting) and `onSocketFailed`: socket wiring around the modelled handlers.
- Signaling servers and coordinator composed step by step: what `Sessions.Possible` asks of the coordinator's answers is a hypothesis there, and `System` composes completed requests only.
- Reconnection of an existing client `Space`: old members are kept, so replica agreement is for one connection.
- Forwarding between signaling servers, retries after a nack, worker death, closing of media objects: not implemented in the source.
- The coordinator's own space events (transport parameters after an allocation, `C:producerConnectedEvent` after a produce, each while the space has subscribers): best-effort publications whose answers are not used; their reception is modelled.
- Texts of errors: a `Dispatch` answer is positive or negative, a worker's negative one has its reason as `Error`.
- Worker-originated transport updates (`onTransportUpdate` of the dispatcher): none are defined.
- Consumers that register further consumers while a message is being published: the services register at start.
- Member data and state on the coordinator's side: stored and copied, never changed there.
