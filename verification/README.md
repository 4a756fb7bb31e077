# Verified models of the LARM control plane and tooling

LARM admits, starts, preempts and releases local AI runtimes. Its hard parts are protocols whose only yield points are
`await`s, and a few complete algorithms in the tooling. This project models them in Dafny and proves what they keep.

Check it with `dafny verify dfyconfig.toml`.

## How to read the models

- A protocol is a state machine. One step is one stretch of code between two awaits of one thread of control, or one call
  from outside, and a run is any interleaving of steps with any inputs. What a model cannot see (clocks, observations,
  holds, whether a startup succeeds, whether a preemption is granted) is an input of the step, so a statement about every
  run is one about every such choice.
- Code that updates an object in place is a class: the promise queues, the artifact store, the reservation ledger and
  the journal, the allocation and connection registries, the switch holds, the stream harness, the import search, the union-find
  forest, the WAV observer. Their methods are proved against specification functions, and the results about runs are
  proved about those functions.
- Fields that exist only for the proofs are ghost fields, or are named as history where they are declared.

| files | what they model |
|---|---|
| PromiseQueues, ArtifactLocks, ArtifactQueues | the per-key promise queues, the nested artifact locks of the artifact manager, and that the queues carry the locks |
| ArtifactActivation | activation of several artifacts with rollback |
| ArtifactJournal, ArtifactReservations, ReservationResults, ArtifactMutation, ArtifactProgress, ArtifactResults; ArtifactWitness | reservations, the operation journal, its capacity and its history, updated in place; the tasks that use them, as steps, and what every run of those keeps; the same for the tasks together with their locks; and one run that changes an artifact of a runtime not reserved |
| AllocationControl | requests, admission, waiting, promotion, startup, release and expiry of allocations, as steps |
| AllocationResults, by AllocationAgreement, AllocationCapacity, AllocationWakeUps and AllocationAudio; AllocationLostWakeUp | what every run of those steps keeps, and one run that loses a wake-up |
| AllocationRegistry | the same records updated in place, and the switch holds |
| AgentConnections, ConnectionResults, by ForegroundExclusion and ConnectionSessions; ConnectionWitness; ConnectionRegistry | provider requests, preemption, drain and creation under the session lock, what every run keeps, one run that accepts a finished request, and the records updated in place |
| Base64Url, Strings, ConnectionToken, ConnectionCredentials | bearer strings, and what renewal and reuse do to them |
| SpeechSegments, StreamHarness, SegmentPilot | inspection of segmentation answers, the streaming harness, the prototype's segment loop |
| WavObservation | the WAV header observer |
| UnionFind, Components, RowGroups, GroupSplit, RulingGrid | union-find, dataset groups, the greedy split, merged table cells |
| ModuleGraph | import cycles and path normalization |
| EditDistance | the character error count |

## Where the code does not do what one would expect

Each of these is stated in Dafny with the exact condition under which it happens, and the first three with a run.

- **Audio wake-ups can be lost.** While an audio promotion is in progress `enqueueWaitingPromotions` enqueues no second one
  (`apps/daemon/src/controller.ts:690`). A release that comes after that promotion has passed a waiter is not noticed:
  `AllocationLostWakeUp.AudioWakeUpLost` is a run at whose end the waiter would be admitted and nothing is left to look at it.
  `AllocationResults.AudioWakeUpTakenExactlyWhen` says waiter by waiter whom a wake-up reaches, and
  `AllocationAudio.LooksAtWhatItListed` that the promotion in progress looks at exactly the waiters it has still listed.
  `AllocationResults.NoLostWakeUp` holds for every audio waiter that the last wake-up reached, and for no other. On the control
  chain no wake-up is ever lost.
- **`beginProviderRequest` may answer `accepted` for a request that was finished while it was preempting.**
  `ConnectionWitness.AcceptedAfterFinish` is a run in which this happens and a background request then becomes active beside it.
  `ConnectionResults.EnteredExactlyUntilFinished` is the exact condition: nobody has finished a request of that name since it was
  entered. The gateway, which finishes only what was accepted, never meets this (`ConnectionResults.EnteredWhenAccepted`).
- **A deployment may change an artifact of a runtime that does not count as mutating.** It reserves the runtimes that own an
  artifact its runtime declares (`apps/daemon/src/artifact-manager.ts:578-580`), but locks and activates the artifacts of the active
  release (`:604`, `:759`), which may have other owners. `ArtifactResults.DeploymentReservesDeclared` is the exact condition, and
  `ArtifactWitness.OwnerNotReserved` a run. For activations and rollbacks every owner of a locked artifact counts as mutating
  (`ArtifactResults.MutatingWhileLocked`).
- **An event sink that throws after a complete activation leaves the new versions active although an error is reported**
  (`ArtifactActivation.AllOrNothing`, the case `SinkReached`).
- **The segmentation prototype does not bound the number of its segments.** An answer made of its output is accepted exactly if
  it has at most 64 segments (`SegmentPilot.PredictionsAreAccepted`); with more it is a `schema_mismatch` and fails the stream. A
  text that changes its language at every code point has as many as code points are committed (`SegmentPilot.AlternatingText`).
- **A renewal of the allocation by its own route may take back the lease of a connection**, and with it the acceptance of strings
  that reach further (`ConnectionCredentials.ReusePreserves`).

## Preconditions that the schemas discharge

The artifact manager relies on two properties of the lists it is given. The program's own schemas ensure both, so that only a
direct call of the class could break them.

- **No artifact id is empty.** The recursion that takes the artifact locks stops at the first falsy id, so a list with an empty id
  would be locked not at all (`ArtifactLocks.LockedUnlessEmptyId`). Ids match a pattern that is not empty
  (`packages/core/src/artifacts.ts:6`), and every list is mapped through `requireArtifact` before its locks are taken; an explicit
  rollback does so under the locks, but before it changes anything. For such lists exactly the listed artifacts are locked and no
  two tasks work on one artifact (`ArtifactLocks.LocksWhatIsListed`, `ArtifactLocks.OneWorkerPerArtifact`).
- **No list names an artifact twice.** A second activation of one artifact would record the new version as the previous one, so
  that rolling back restores nothing. The lists of releases and of runtimes are unique (`packages/core/src/releases.ts:10-13`,
  `packages/core/src/schema.ts:49-53`), and this is just what all or nothing needs
  (`ArtifactActivation.AtomicExactlyWhenDistinct`).

## Model

| member | source | states |
|---|---|---|
| PromiseQueues.PromiseQueues.Serialize | apps/daemon/src/artifact-manager.ts:966-976 | a caller joins the end of its key's line and no other line |
| PromiseQueues.PromiseQueues.MayStart | apps/daemon/src/agent-connection-controller.ts:1622-1637 | work may start exactly when its ticket is at the head of the key's line |
| PromiseQueues.PromiseQueues.Settle | apps/daemon/src/artifact-manager.ts:969-974 | when the head settles, returned or thrown, its line moves up by one and no other line moves |
| ArtifactLocks.LockedUnlessEmptyId | apps/daemon/src/artifact-manager.ts:810-826 | called directly with any list: every listed artifact is locked, unless an id is the empty string, and then none is |
| ArtifactLocks.LocksWhatIsListed | apps/daemon/src/artifact-manager.ts:810-826 | with proper ids a task's plan has the artifact keys of exactly the artifacts it was given |
| ArtifactLocks.PlansAreOrdered | apps/daemon/src/artifact-manager.ts:324-333 | every task takes a runtime, release or single artifact key first and further artifact keys in increasing order |
| ArtifactLocks.MutualExclusion | apps/daemon/src/artifact-manager.ts:810-826 | in every reachable state a key is held by at most one task, the head of its line, and everyone else in the line waits |
| ArtifactLocks.OneWorkerPerArtifact | apps/daemon/src/artifact-manager.ts:810-826 | in every reachable state two tasks that have all their locks were given no common artifact |
| ArtifactLocks.FirstInFirstOut | apps/daemon/src/artifact-manager.ts:966-976 | no step lets a task overtake another in a line |
| ArtifactLocks.DeadlockFreedom | apps/daemon/src/artifact-manager.ts:810-826 | while any task is unfinished some task can take a step that is not a failure, in every reachable state |
| ArtifactLocks.EveryRunCompletes | apps/daemon/src/artifact-manager.ts:246-250 | runs are bounded, whatever fails in them, and one that cannot go on has every task finished and all lines empty |
| ArtifactQueues.LockLines.Take | apps/daemon/src/artifact-manager.ts:966-976 | a call of `serialize` on the queues does to their lines what the protocol's step does, ticket for task |
| ArtifactQueues.LockLines.Granted | apps/daemon/src/artifact-manager.ts:966-968 | the promise a task waits for has settled exactly when the protocol grants it the key |
| ArtifactQueues.LockLines.Leave | apps/daemon/src/artifact-manager.ts:969-974 | when the work under a key settles, the lines move as the protocol says |
| ArtifactActivation.UndoEachRestores | apps/daemon/src/artifact-manager.ts:705-736 | rolling back each activated item puts back exactly those whose own rollback works |
| ArtifactActivation.UndoUntilFailureRestores | apps/daemon/src/artifact-manager.ts:896-914 | the rollback that stops at its first failure restores everything it got to |
| ArtifactActivation.AllOrNothing | apps/daemon/src/artifact-manager.ts:653-703 | for distinct artifacts and any failure or abort point: success activates all, any error but a failed rollback leaves the active map as it was, except when the sink throws at the end |
| ArtifactActivation.NeverInBetween | apps/daemon/src/artifact-manager.ts:653-736 | even after a failed rollback every artifact is at its old or its new version |
| ArtifactActivation.RepeatBreaksAtomicity | packages/backends/src/artifact-store-activation.ts:39-106 | called directly with a list that names an artifact twice, a start that fails leaves a new version active under an ordinary error |
| ArtifactActivation.AtomicExactlyWhenDistinct | apps/daemon/src/artifact-manager.ts:653-736 | the transaction is all or nothing for every environment if and only if no artifact is named twice |
| ArtifactActivation.ArtifactStore.ActivateAll | apps/daemon/src/artifact-manager.ts:705-736 | the loop in place does what the specification function says of the store |
| ArtifactActivation.ArtifactStore.Deploy | apps/daemon/src/artifact-manager.ts:653-703 | the method in place meets AllOrNothing |
| ArtifactJournal.HeldExactlyWhenCovered | apps/daemon/src/artifact-manager.ts:786-808 | the count of a runtime is positive exactly when an unreleased reservation covers it |
| ArtifactJournal.Ledger.Reserve | apps/daemon/src/artifact-manager.ts:786-792 | one more lease, and every count is what the unreleased leases add up to |
| ArtifactJournal.Ledger.Release | apps/daemon/src/artifact-manager.ts:794-807 | the lease is released, counts follow, and releasing again changes nothing |
| ArtifactJournal.Ledger.IsRuntimeMutating | apps/daemon/src/artifact-manager.ts:161-163 | true exactly when an unreleased reservation covers the runtime |
| ArtifactJournal.Journal.RejectAtCapacity | apps/daemon/src/artifact-manager.ts:1063-1078 | refused exactly when the limit of other open operations is reached; admitted open operations never exceed the limit |
| ReservationResults.ReleasedExactlyOnce | apps/daemon/src/artifact-manager.ts:369-590 | over every run of staging, activation, rollback and deployment tasks the closure of each reservation is called exactly once by the time its task is over, and not before, on every path; of the caller's and the queued `finally` only one calls it, the queued one exactly after a hand-off |
| ArtifactResults.MutatingWhileLocked | apps/daemon/src/artifact-manager.ts:369-560 | in every reachable state of tasks and locks together, while an activation or a rollback holds an artifact's lock every runtime that owns the artifact counts as mutating |
| ArtifactResults.DeploymentReservesDeclared | apps/daemon/src/artifact-manager.ts:562-615 | while a deployment holds a lock it has reserved a runtime exactly if that owns an artifact its own runtime declares |
| ArtifactWitness.OwnerNotReserved | apps/daemon/src/artifact-manager.ts:578-651 | a run in which a deployment works on an artifact under its lock while another owner of it does not count as mutating |
| ArtifactResults.NeverStuck | apps/daemon/src/artifact-manager.ts:562-590 | locks and reservations together do not block: in every reachable state in which some task is not over with its keys given back, a step that takes some task on is enabled |
| ArtifactResults.EveryRunCompletes | apps/daemon/src/artifact-manager.ts:246-250 | the steps of tasks in a run with both are bounded, whatever fails in them, and a run in which no task can go on has every task over, every line empty, nothing reserved, no operation open and the coordinator free |
| ReservationResults.MutatingExactlyWhileReserved | apps/daemon/src/artifact-manager.ts:161-163 | a runtime counts as mutating exactly while some unfinished task has reserved it |
| ReservationResults.ActiveExactlyWhile | apps/daemon/src/artifact-manager.ts:165-169 | there are active operations exactly while a task has an operation in progress or, not being over, holds a reservation |
| ReservationResults.NothingLeft | apps/daemon/src/artifact-manager.ts:562-590 | when every task is over no reservation and no open operation is left and the coordinator is free |
| ArtifactReservations.ReservedWithoutOpenOperation | apps/daemon/src/artifact-manager.ts:165-169 | two runs with a runtime reserved and no operation open: after an operation has closed, and before a deployment has one |
| ReservationResults.CapacityKept | apps/daemon/src/artifact-manager.ts:1063-1078 | in every reachable state the operations past the capacity check are within the limit, and each unfinished task past it has one of them |
| ReservationResults.OneMutation | apps/daemon/src/mutation-coordinator.ts:30-58 | with a coordinator at most one granted task is unfinished, and the coordinator is busy with its kind exactly while there is one |
| ReservationResults.TaskMovesOn | apps/daemon/src/artifact-manager.ts:978-1061 | an unfinished task has a step, and each of its steps, failing or not, brings it nearer to its end |
| ArtifactJournal.Journal.PruneHistory | apps/daemon/src/artifact-manager.ts:1106-1119 | only closed operations go, oldest first, no more than the limit asks for |
| AllocationAgreement.RunInv | apps/daemon/src/allocation-startup-lifecycle.ts:45-128 | each allocation has at most one startup at a time, and no startup belongs to a waiting or ready one |
| AllocationResults.AllocationAndOperationAgree | apps/daemon/src/allocation-lifecycle-commit.ts:4-55 | in every reachable state a ready allocation's operation has succeeded, a failed, released or expired one has no open operation, and no two share one |
| AllocationResults.SettledForGood | apps/daemon/src/allocation-api-lifecycle.ts:125-163 | over any run released and expired are never left, a closed operation never changes, and ids are not reused |
| AllocationCapacity.MemoryOfParts | packages/core/src/admission.ts:54-251 | the memory of a set of runtimes is that of its parts |
| AllocationCapacity.FewerStayFeasible | packages/core/src/admission.ts:54-251 | feasibility is closed under removal |
| AllocationCapacity.AdmissionKeepsFeasible | apps/daemon/src/allocation-admission-planner.ts:60-78 | admitting what admission accepts keeps the admitted set feasible |
| AllocationResults.AdmittedSetAlwaysFeasible | apps/daemon/src/allocation-request-admission.ts:123-138 | in every run no runtime has more admitted allocations than it declares, and what is in use fits every node's memory |
| AllocationResults.AudioWakeUpTakenExactlyWhen | apps/daemon/src/controller.ts:688-695 | after a wake-up something will look at an audio waiter exactly if the timer is armed, no audio promotion was in progress, it has not listed its waiters, or its batch still has this one or a retry; the others are those recorded as missed |
| AllocationResults.MissedExactlyWhenNotLookedAt | apps/daemon/src/controller.ts:688-695 | after a wake-up, with no timer or retry set, the waiters recorded as missed are exactly those the audio promotion does not look at to its end |
| AllocationAudio.LooksAtWhatItListed | apps/daemon/src/allocation-waiting-promotion.ts:58-93 | from any moment of an audio promotion to its end, whatever interleaves, it looks at exactly the waiters its batch still lists, and a retry arms the timer |
| AllocationWakeUps.StepInv | apps/daemon/src/allocation-waiting-promotion.ts:58-93 | every step keeps every unexpired waiter that the last wake-up did not miss covered by a timer, a promotion, a batch, a cleanup or a conflict |
| AllocationResults.NoLostWakeUp | apps/daemon/src/allocation-waiting-promotion.ts:118-146 | with no promotion queued or running and no cleanup in progress, an unexpired waiter has a retry timer armed or conflicts with an admitted allocation, unless it is an audio waiter that the last wake-up missed, and then no timer is armed |
| AllocationResults.AdmittedEndEnqueues | apps/daemon/src/allocation-startup-lifecycle.ts:116-125 | a step that ends the admission of an allocation enqueues a promotion and reaches every audio waiter or records it as missed, or leaves a startup that will enqueue |
| AllocationLostWakeUp.AudioWakeUpLost | apps/daemon/src/controller.ts:690 | a run after which an audio waiter would be admitted and nothing will look at it |
| AllocationRegistry.Control.Prioritize | apps/daemon/src/allocation-waiting-promotion.ts:96-105 | exactly the waiters of one kind, by priority, age and id |
| AllocationRegistry.Control.EnqueueWaitingPromotions | apps/daemon/src/controller.ts:688-695 | the chain and the audio slot become what Enqueue says |
| AllocationRegistry.Control.ScheduleWaitingPromotion | apps/daemon/src/allocation-timers.ts:21-34 | the retry timer is armed exactly when one was, or something waits and nothing drains |
| AllocationRegistry.Control.Release | apps/daemon/src/allocation-api-lifecycle.ts:125-163 | allocation, operation and promotions become what ReleaseOne says |
| AllocationRegistry.Control.Preempt | apps/daemon/src/allocation-api-lifecycle.ts:165-197 | granted exactly for a lower priority or an allocation that is over, and then a release |
| AllocationRegistry.Control.PreemptLowerPriorityConflicts | apps/daemon/src/allocation-preemption.ts:74-93 | exactly the admitted conflicting allocations of lower priority are released |
| AllocationRegistry.Control.ExpireDue | apps/daemon/src/allocation-timers.ts:91-102 | exactly the active allocations that are due become expired, exactly their open operations time out, and a promotion is enqueued if there was one |
| AllocationRegistry.Control.FinishStartup | apps/daemon/src/allocation-startup-lifecycle.ts:79-128 | the end of a startup does what StartupOver says, whatever happened to the allocation meanwhile |
| AllocationRegistry.SwitchHolds.HoldForegroundProviders | apps/daemon/src/allocation-preemption.ts:34-55 | every swap group of the allocation is held at least that long, no hold ends earlier than before, other groups are as they were |
| AllocationRegistry.SwitchHolds.HoldUntil | apps/daemon/src/allocation-preemption.ts:57-72 | the latest end among the holds in the way, none exactly when no hold is in the way; exactly the holds that are over are forgotten |
| ConnectionResults.EnteredWhenAccepted | apps/daemon/src/gateway-request-lifecycle.ts:14-66 | if requests are finished only after they were accepted, a request in progress always has its own entry |
| ConnectionResults.EnteredExactlyUntilFinished | apps/daemon/src/agent-connection-controller.ts:953-1001 | after a call has entered its request the entry is still its own if and only if no step since has finished a request of that name |
| ConnectionWitness.AcceptedAfterFinish | apps/daemon/src/agent-connection-controller.ts:970-988 | a run in which an exclusive request is accepted after it was finished, and a background request then becomes active |
| ConnectionResults.ForegroundExcludesBackground | apps/daemon/src/agent-connection-controller.ts:953-1001 | from acceptance of an exclusive request until it is finished no background-when-idle connection has an active request |
| ConnectionResults.CreationExcludesBackground | apps/daemon/src/agent-connection-controller.ts:380-405 | the same while a foreground-exclusive connection is created or reused, from its preemption on |
| ConnectionResults.CreationsCountedExactly | apps/daemon/src/agent-connection-controller.ts:437-546 | the counter of foreground creations equals the creations in progress |
| ForegroundExclusion.HoldBlocks | apps/daemon/src/agent-connection-controller.ts:1045-1055 | any foreground work in progress blocks new background requests |
| ConnectionResults.OneLiveConnection | apps/daemon/src/agent-connection-controller.ts:360-366 | in every reachable state a session has at most one connection that has not ended |
| ConnectionResults.OneInside | apps/daemon/src/agent-connection-controller.ts:1622-1637 | two creations of one session are never past its lock together |
| ConnectionResults.EndedForGood | apps/daemon/src/agent-connection-controller.ts:1239-1283 | over any run a connection that has ended never lives again |
| ConnectionRegistry.Registry.BeginProviderRequest | apps/daemon/src/agent-connection-controller.ts:953-970 | which of the four answers is given, and the new records |
| ConnectionRegistry.Registry.BackgroundBlocked | apps/daemon/src/agent-connection-controller.ts:1045-1055 | blocked exactly by a foreground creation, an exclusive request or a connection not yet idle |
| ConnectionRegistry.Registry.ListVictims | apps/daemon/src/agent-connection-controller.ts:1061-1067 | exactly the background connections that live or have active requests |
| ConnectionRegistry.Registry.PruneHistory | apps/daemon/src/agent-connection-controller.ts:1505-1526 | ended connections without active requests are forgotten, oldest first, and just as many as are over the limit |
| Base64Url.DecodeEncode | apps/daemon/src/connection-token.ts:57-59 | decoding gives back what was encoded |
| Base64Url.EncodeDecode | apps/daemon/src/connection-token.ts:86-97 | a string is the encoding of what it decodes to exactly when no letter is left over and the unused bits are zero |
| Base64Url.SignatureLetters | apps/daemon/src/connection-token.ts:86-88 | 32 bytes give 43 letters, two bits of the last unused and zero |
| ConnectionToken.SignedIsRead | apps/daemon/src/connection-token.ts:69-119 | a signed payload is read back exactly while it is valid, with the right error before and after |
| ConnectionToken.OnlySignedIsRead | apps/daemon/src/connection-token.ts:77-119 | what is not refused as invalid is the one string signing produces for some payload |
| ConnectionToken.AcceptedExactlyWhenSigned | apps/daemon/src/connection-token.ts:69-119 | a string is accepted with a payload if and only if it is the signature of that payload within its time window |
| ConnectionToken.SignInjective | apps/daemon/src/connection-token.ts:69-75 | different payloads have different strings |
| ConnectionToken.ExpiredForGood | apps/daemon/src/connection-token.ts:112-118 | a string that has expired stays expired |
| ConnectionCredentials.RenewRevokes | apps/daemon/src/agent-connection-controller.ts:891-899 | over any run no string issued before a renewal or an idle release is accepted after it |
| ConnectionCredentials.ReuseNeverShortens | apps/daemon/src/agent-connection-controller.ts:386-389 | a new demand never shortens the lease, whatever time to live it asks for |
| ConnectionCredentials.ReusePreserves | apps/daemon/src/agent-connection-controller.ts:384-389 | without a renewal of the connection an accepted string is accepted again exactly until it expires and while the lease reaches as far, if the connection is ready with the binding it had; reuse never takes the lease back |
| ConnectionCredentials.IssuedIsAccepted | apps/daemon/src/agent-connection-controller.ts:934-951 | a string is accepted as soon as it is issued |
| SpeechSegments.AcceptedTiles | packages/core/src/speech-segmentation.ts:95-164 | an accepted answer's segments tile the newly committed range of the current text, and completion commits all of it |
| StreamHarness.Harness.Release | benchmarks/speech-segmentation/stream-harness.ts:35-44 | text is taken exactly when the stream is open and the limit allows it, and otherwise nothing changes |
| StreamHarness.Harness.Dispatch | benchmarks/speech-segmentation/stream-harness.ts:55-66 | a flight is sent exactly when none is out, there is something new to judge, room for a segment and enough time has passed, and it carries the current text |
| StreamHarness.Harness.Adopt | benchmarks/speech-segmentation/stream-harness.ts:68-103 | an adopted answer consumes exactly the text its segments tile and queues them; otherwise the text is as it was |
| StreamHarness.Harness.AudioReady | benchmarks/speech-segmentation/stream-harness.ts:105-117 | the audio of the segment is at hand afterwards unless the stream failed, which it does exactly for awaited audio of a bad or too long duration or when it is overdue |
| StreamHarness.Harness.AudioFailed | benchmarks/speech-segmentation/stream-harness.ts:119-122 | the stream fails exactly if the segment is queued in the current generation |
| StreamHarness.Harness.Ended | benchmarks/speech-segmentation/stream-harness.ts:125-132 | the end of the playing segment starts its pause |
| StreamHarness.Harness.Tick | benchmarks/speech-segmentation/stream-harness.ts:134-144 | an overdue stream fails; otherwise the head is played exactly when nothing plays, the pause is over and it is ready |
| StreamHarness.Harness.SpokenIsPrefix | benchmarks/speech-segmentation/stream-harness.ts:68-144 | after any calls the text spoken is the beginning of the text released, within what was committed |
| StreamHarness.Harness.DrainedSpokeEverything | benchmarks/speech-segmentation/stream-harness.ts:162 | a drained stream has spoken all that was released |
| SegmentPilot.Predict | benchmarks/speech-segmentation/prototype.py:194-215 | the segments tile the committed text as maximal runs of one language between cuts, and commitment stops at the first stretch that is not certain |
| SegmentPilot.PredictionsAreAccepted | packages/core/src/speech-segmentation.ts:95-164 | the answer made of a prediction, for any window of the stream whose snapshot still stands, is accepted if and only if it has at most 64 segments |
| SegmentPilot.AlternatingText | benchmarks/speech-segmentation/prototype.py:204-212 | a text that changes its language at every code point has as many segments as code points are committed, so nothing keeps their number within 64 |
| WavObservation.FoundForGood | apps/daemon/src/audio-observation.ts:34-46 | once the data chunk is found, more bytes change nothing |
| WavObservation.Observer.Push | apps/daemon/src/audio-observation.ts:10-25 | what is known is what one look at the whole stream would say, with less than 64 KiB kept |
| WavObservation.Observer.DurationSeconds | apps/daemon/src/audio-observation.ts:27-31 | the duration is a function of all bytes received |
| WavObservation.Observe | apps/daemon/src/audio-observation.ts:10-46 | however a stream is cut, the last answer and the duration are those of one single push |
| UnionFind.Forest.Root | benchmarks/avatar-attitude/dataset.py:105-110 | path halving ends at the root and changes no root |
| UnionFind.Forest.Join | benchmarks/avatar-attitude/dataset.py:111-112 | the two classes become one and no other class changes |
| UnionFind.ClassesAreComponents | benchmarks/avatar-attitude/dataset.py:103-125 | classes made by joining related positions only, with all related positions joined, are the connected components |
| RowGroups.GroupRows | benchmarks/avatar-attitude/dataset.py:103-141 | the groups are exactly the connected components of same conversation, same template or near target, every row in one, in order; the pairs are exactly the near ones |
| RowGroups.PinnedGroups | benchmarks/avatar-attitude/dataset.py:126-141 | a group is pinned exactly when one of its rows matches a reference |
| RowGroups.GroupsFor | benchmarks/user-intent/train.py:34-58 | two rows get one label exactly when a chain of equal or near targets joins them |
| GroupSplit.CostIsChange | benchmarks/avatar-attitude/dataset.py:167-173 | the incremental cost is exactly the change of the global objective |
| GroupSplit.ChoiceIsBest | benchmarks/avatar-attitude/dataset.py:167-176 | a group goes where the objective becomes least |
| GroupSplit.AttemptKeepsEveryRow | benchmarks/avatar-attitude/dataset.py:153-176 | for any random order and tie-breaks every row is in exactly one split, once |
| GroupSplit.AttemptKeepsGroupsWhole | benchmarks/avatar-attitude/dataset.py:153-176 | every group is in one split, and pinned groups are in eval |
| GroupSplit.SplitGroups | benchmarks/avatar-attitude/dataset.py:144-189 | success is leakage-free with every label in every split and the least objective; each failure happens exactly when its condition holds |
| RulingGrid.SizesAgreeExactlyWhenFull | benchmarks/vision/chain_worker.py:84-93 | rows times columns equals the number of cells exactly when every row of the group meets every column |
| RulingGrid.NoLineSkipped | benchmarks/vision/chain_worker.py:74-83 | the rows of a connected group follow one another, and so do its columns |
| RulingGrid.ReadGrid | benchmarks/vision/chain_worker.py:65-97 | `rectangular` if and only if every connected set of cells is a full contiguous rectangle |
| ModuleGraph.OrderedHasNoCycle | scripts/check-module-boundaries.ts:75-91 | modules that import only modules that ended before them form no closed path |
| ModuleGraph.Search.Visit | scripts/check-module-boundaries.ts:78-90 | the stack is the path of the active modules, every failure is a cycle, and without failure the modules done are in order |
| ModuleGraph.FindCycles | scripts/check-module-boundaries.ts:75-91 | a failure is reported if and only if the graph has a closed path, and every reported sequence is a simple cycle |
| ModuleGraph.Normalize | scripts/check-module-boundaries.ts:39-47 | the loop computes the walk along the parts |
| ModuleGraph.NormalizeTwice | scripts/check-module-boundaries.ts:39-47 | normalizing twice is normalizing once |
| ModuleGraph.ImportsResolveAlike | scripts/check-module-boundaries.ts:39-61 | an import resolves the same from a directory and from its normalized path |
| EditDistance.Cer | benchmarks/vision/evaluate.py:25-34 | the rolling rows compute the recursive distance; the rate times the reference length is the edit count, and there is none for an empty reference |
| EditDistance.EditsAreLeast | benchmarks/vision/evaluate.py:25-34 | some script of single-character edits is as long as the distance, and none is shorter |
| EditDistance.DistanceBounds | benchmarks/vision/evaluate.py:25-34 | the distance lies between the difference of the lengths and the longer length |
| EditDistance.Symmetric | benchmarks/vision/evaluate.py:25-34 | the distance is symmetric |
| EditDistance.Triangle | benchmarks/vision/evaluate.py:25-34 | the distance obeys the triangle inequality |
| EditDistance.ZeroExactlyWhenEqual | benchmarks/vision/evaluate.py:25-34 | the distance is zero exactly for equal texts |

## Left out

- HTTP routing, authentication, gateway proxying, body parsing and schemas of other routes: wiring over libraries.
- Event sinks, metrics and event records: they do not throw, except where `AllOrNothing` says what happens if one does.
- The store's own activation and rollback on disk: each happens completely or not at all.
- The explicit rollback of a runtime's artifacts: the code does not make it atomic, only its locks and its reservation are modelled.
- Allocation steps are state-machine steps on values; the methods of AllocationRegistry cover release, preemption, expiry, ordering, timers and the end of a startup in place, not the coroutine frames that tie them together.
- Allocation ids, artifact ids and times are numbers in the order in which the code sorts them.
- Admission: other checks of the planner (active limits, stale observations, missing runtimes) are one Boolean input that rejects early; service reservations and observed memory are inputs.
- AllocationRegistry.Control.Release: does not model the provider holds, abort signals, idle provider instances and timers that a release also touches; they enter the allocation steps as inputs or not at all.
- ArtifactJournal.Journal.PruneHistory: says what one call does when nothing else runs while it waits for files to be deleted; ArtifactReservations lets tasks forget closed operations one by one in between, in any order.
- Ids of operations are random; that none is used twice is asked of each new one.
- ArtifactReservations lets any queued task go on; in which order they do is in ArtifactLocks, and ArtifactMutation has both.
- Switch holds enter the allocation steps as an input; their own bookkeeping is SwitchHolds.
- Usage protection enters as a Boolean input of a startup.
- Pruning of allocations and operations may forget any closed ones; the limits of that history are not modelled.
- Idle deadlines of connections: whether a foreground connection counts as not yet idle is an input of each check.
- Child connections for audio providers.
- ConnectionRegistry.Registry.PruneHistory: does not keep ended connections that have a living audio child, because child connections are not modelled.
- Idempotency replay of connection requests.
- Which refusal message or reason text is given, beyond the codes named in the models.
- JSON text and the keyed hash: parameters of the codec, asked only that a written payload reads back and that a hash has 32 bytes.
- Reading overrides of speech requests: the harness sends none. Text is taken by code points, so a chunk that ends inside a surrogate pair is not modelled.
- Times and durations that are not finite numbers, except the duration handed to `AudioReady`.
- The heads, probabilities and thresholds of the segmentation prototype: their outcome per code point is an input.
- GroupSplit.SplitGroups: costs and rates are exact numbers, so floating-point rounding, which could decide a near tie, is not modelled.
- The shuffle and the sort by length of the split: an attempt takes any order they can give. The hash that names a group: groups are positions.
- Which rulings exist between table cells, and the clustering of lines into rows and columns.
- Parsing of TypeScript imports and the two layer rules of the module check: the import graph is an input.
- `nms` and the metrics of the vision evaluation: easy members beside the edit distance.
