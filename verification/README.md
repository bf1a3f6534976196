# Nexus Vector exactly-once payments: a Dafny model

Nexus Vector executes business Missions made of payment effects through an external provider, and promises
that "the agent can retry, the money cannot duplicate". Nothing but four independent SQLite stores and a fixed
order of writes stands behind that promise: there is no shared transaction, any number of processes run at
once, and each of them can die between any two writes. This project models the protocol and proves what it
guarantees.

**Two layers.** `Protocol.dfy` is a step system: a run is the sequence of atomic actions that any number of
processes have performed (successful store writes, the reads later writes rely on, calls and answers across
the provider boundary, chain observations), the stores are a function of the run, and a run is legal when each
action was enabled where it stands. A crash is a process that acts no more, so every prefix of a legal run is
what a restart finds. `ProtocolInvariants`, `ProtocolSafety`, `PostSafety`, `RunnerSafety`, `LateCalls` and
`CrashRecovery` prove properties of every legal run; `ExampleRuns` and `Exhibits` build the runs that show where a
promise ends.

The imperative layer has a class per store (`MissionStore`, `AttemptStore`, `AuthorizationLedger`) and the
services that drive them, method by method with the source's loops. They share a `Deployment.System`: before
each store call a process yields, other processes may do any legal thing, and the call may fail before it
writes; after it the action is committed to the run, which is only possible if it was enabled. So every service
method below is proved to be, step by step, part of a legal run. `quiet` is the case that nobody else acts and
no database call fails; contracts state what holds under contention and, for `quiet`, exactly what happens. A
process identifier names one service call, so a fresh one has not acted yet. Apart from the services, other
processes may make any Mission transition the state machine permits, and may put effects in doubt, fail or block
them; they only never move effects of a Mission that is not yet admitted.

**Files.** `Outcomes` (results and codes), `Ordering`, `MissionIdentity`, `Missions`, `Attempts`,
`AmountPrinting`, `Authorizations`, `Evidence`, `Payments`, `ChainFields` are the data model and its pure operations. `AuthorizedPosts`,
`Simulation`, `Dispatch` are the claim, the two POSTs and the dispatcher with its ports. `CasSteps`, `Admission`,
`CasLoops`, `Projection`, `Reconciliation` are the compare-and-swap loops. `SequentialRunner` is the ordered
Anna, Mark, Leo runner for any sequence of distinct effects. `ContinuationPlanner`, `PlannerAgreement`,
`ExecutionDoctor` are planning and diagnosis. `ResponseScan` and `TransferSelection` are the two separable
algorithms. `dafny verify dfyconfig.toml` checks everything.

**Where the money goes.** A body is read on its own (`Payments.Asks`), a log is told from the way a node writes it
(`TransferSelection.Records`, with the numerals of `ChainFields`), and the two meet in the effect: the transfers that
fulfil a broadcast's body are the ones that confirm its effect (`RunnerSafety.BroadcastPaysItsEffect`), and every
confirmed step was paid as posted (`RunnerSafety.ConfirmedAsPosted`).

**Digests.** SHA-256 over canonical JSON under a domain prefix appears as a datatype value that holds the hashed
material, so two digests are equal exactly when their material is.

**Where the code says less than its documentation.**

- README invariant 9, "a confirmed effect is skipped permanently", depends on the order of reads: the
  dispatcher reads the Mission before it takes the attempt. `LateCalls.LateCallIsPossible` gives a run in which
  the port is called for an effect that is already CHAIN_CONFIRMED; `LateCalls.LateCallExactly`
  says when: a process can still call if and only if its read came first. At most one call per effect holds
  regardless.
- The reconciler's design says that a crash before the attempt is marked is always made good by observing again
  (execution_reconciliation.py:173-177). But a Mission under review cannot be reconciled any more, and there are
  two ways to get there before the attempt is marked. If another effect is FAILED_FINAL or BLOCKED, the projection
  itself puts the Mission up for review, and dying right after that loses the attempt:
  `CrashRecovery.EveryCrashPointIsSalvageable` says that this is the exact condition, `CrashRecovery.CrashPoint` that
  it is the only point, and `Exhibits.ReviewComesBeforeTheMark` gives a run. And a reconciliation of a sibling that
  meets a mismatching transfer puts the Mission up for review without any failed effect:
  `CrashRecovery.MismatchStrandsSiblings` says which attempts it loses, and
  `Exhibits.SiblingMismatchComesBeforeTheMark` gives a run of reconcilers alone. A lost attempt stays lost,
  whatever put its Mission up for review (`CrashRecovery.WrittenOffForGood`, `Reconciliation.Reconcile`).
- Two reconcilers with the same evidence can collide: the slower one ends with EFFECT_TRANSITION_NOT_ALLOWED
  (`Exhibits.RacingReconcilersCollide`) exactly when the last row it read refuses its target
  (`CasLoops.RefusalIsExact`). And on a RECONCILING Mission these loops can be starved whatever they are after
  (`Exhibits.LoopsCanStarve`), which takes at least twelve swaps by others (`CasLoops.ExhaustionTakesTwelve`);
  attempt loops cannot (`CasLoops.DriveAttempt`).
- The runner's pass for a simulation that already has a receipt names it eligible, but hands back any final receipt:
  it is eligible if and only if its ledger row is (`SequentialRunner.ExecuteSimulation`). With the state that
  `Exhibits.RejectionBecomesDurable` reaches the pass is a rejection; nothing is sent on it
  (`SequentialRunner.RejectionIsHandedBack`).

## Model

| member | source | states |
|---|---|---|
| MissionIdentity.Normalize | src/nexus_vector/domain/mission_identity.py:119-169 | the loop with its growing list and set of seen references, then the sort, computes the normal form or the first error |
| MissionIdentity.NormalizedExactly | src/nexus_vector/domain/mission_identity.py:103-169 | a document is accepted if and only if it is well formed, and then becomes its canonical document |
| MissionIdentity.CanonicalIsFixed | src/nexus_vector/domain/mission_identity.py:103-169 | normalising twice is normalising once |
| MissionIdentity.FingerprintIdentifiesContent | src/nexus_vector/domain/mission_identity.py:211-253 | two accepted documents have the same content fingerprint if and only if they differ at most in effect order and address case; the key ignores the payload |
| MissionIdentity.ReorderingKeepsAcceptance | src/nexus_vector/domain/mission_identity.py:125-146 | permuting the effects never changes whether a document is accepted |
| MissionIdentity.ClassificationIsByContent | src/nexus_vector/domain/mission_identity.py:256-272 | same, conflicting and different Missions, each if and only if, in terms of the documents |
| Ordering.SortForgetsOrder | src/nexus_vector/domain/mission_identity.py:146 | the canonical order of effects with distinct references does not depend on the order they came in |
| Ordering.BeforeIsLexicographic | src/nexus_vector/domain/mission_identity.py:146 | effect references are ordered by code point: a prefix first, otherwise the first difference decides |
| ChainFields.AddressIsItsValue | src/nexus_vector/domain/mission_identity.py:91-94 | two addresses agree in lower case if and only if they are the same 20-byte number, so letter case never makes or hides a difference |
| MissionIdentity.LoweringKeepsContent | src/nexus_vector/domain/mission_models.py:101-104 | lower-casing the addresses of an accepted request, as its constructors do, changes neither acceptance nor content and happens once |
| Missions.InitialRecordIsWellFormed | src/nexus_vector/domain/mission_models.py:474-510 | the initial aggregate of an accepted request, built from its lower-cased form, satisfies every record invariant, RECEIVED with all effects PLANNED |
| Missions.AddressesAreLowered | src/nexus_vector/domain/mission_models.py:101-104 | in whatever letter case a request came, every effect of a stored Mission names token and recipient in lower case, as chain evidence does |
| Missions.MissionMoveKeepsRecord | src/nexus_vector/domain/mission_transitions.py:157-183 | a Mission transition keeps the record invariants, identity and economics and moves time forward; COMPLETED only with every effect confirmed |
| Missions.EffectMoveKeepsRecord | src/nexus_vector/domain/mission_transitions.py:210-255 | an effect transition keeps the same, and no effect leaves a final state |
| Missions.SingleTransitionKeepsRecord | src/nexus_vector/domain/mission_transitions.py:157-255 | so one transition of either kind keeps every record invariant and the justification of COMPLETED |
| Missions.TotalIsImmutable | src/nexus_vector/domain/mission_models.py:402-445 | the amounts of a well-formed aggregate always add up to the immutable request |
| Missions.MissionStatesAreEnteredFrom | src/nexus_vector/domain/mission_transitions.py:17-92 | the Mission table read the other way round: for each state exactly the states it is entered from |
| Missions.EffectStatesAreEnteredFrom | src/nexus_vector/domain/mission_transitions.py:95-122 | the same for the effect table |
| Attempts.TransitionsClimb | src/nexus_vector/domain/execution_attempts.py:33-68 | every permitted attempt transition climbs a rank, and exactly the three final states permit none |
| Attempts.AttemptStatesAreEnteredFrom | src/nexus_vector/domain/execution_attempts.py:33-68 | the attempt table read the other way round: for each state exactly the states it is entered from |
| AmountPrinting.PrintingIsExact | src/nexus_vector/integrations/keeperhub_direct_execution.py:65-80 | for all amounts from 1 and decimals 0 to 36 the printed decimal is canonical and reads back, scaled, as the amount; otherwise it is refused |
| AmountPrinting.PrintingIsInjective | src/nexus_vector/integrations/keeperhub_direct_execution.py:65-80 | at one token scale different amounts print differently |
| Payments.BodyPinsTransfer | src/nexus_vector/integrations/keeperhub_direct_execution.py:137-151 | a body, read on its own, asks for its intent's chain, token, recipient, amount and gas limit, and at one token scale for no other intent; equal bodies mean the same transfer |
| Payments.BodyAsksForEffect | src/nexus_vector/integrations/keeperhub_direct_execution.py:137-151 | body and evidence meet: when the intent carries an effect, a chain transfer from the expected sender does what the body asks for if and only if it is the economic match of the effect |
| Authorizations.AnswersAreNotConfused | src/nexus_vector/integrations/keeperhub_direct_execution.py:230-281 | an answer makes a transfer eligible if and only if it is a 200 with success, no revert and status simulated, and no such answer acknowledges a broadcast or rejects a simulation; a final broadcast rejection also rejects a simulation |
| Authorizations.VerdictsAreExact | src/nexus_vector/integrations/keeperhub_direct_execution.py:230-281 | eligible, rejected, accepted under a reference, refused and unknown, each if and only if, in terms of status code, flags, status text and execution id |
| MissionStore.CreateDecidesByContent | src/nexus_vector/persistence/sqlite_mission_store.py:387-395 | create returns the stored aggregate if and only if the documents agree in content and reports a conflict for every other document of that key |
| MissionStore.Store.Create | src/nexus_vector/persistence/sqlite_mission_store.py:376-420 | insert one initial aggregate or return its duplicate, atomically; a database fault changes nothing |
| MissionStore.Store.TransitionMission | src/nexus_vector/persistence/sqlite_mission_store.py:457-474 | the Mission state machine under revision compare-and-swap: whole new table and result |
| MissionStore.Store.TransitionEffect | src/nexus_vector/persistence/sqlite_mission_store.py:476-495 | the effect state machine under revision compare-and-swap |
| MissionStore.Store.Rewrite | src/nexus_vector/persistence/sqlite_mission_store.py:506-559 | a swap writes only over the expected revision and raises it by one |
| AttemptStore.Store.Create | src/nexus_vector/persistence/sqlite_execution_attempt_store.py:264-306 | one attempt per effect, the stored one returned only for an equal plan |
| AttemptStore.Store.Transition | src/nexus_vector/persistence/sqlite_execution_attempt_store.py:313-354 | the attempt state machine under revision compare-and-swap |
| AttemptStore.CandidatesAreUnfinished | src/nexus_vector/persistence/sqlite_execution_attempt_store.py:26-33 | recovery candidates are exactly the attempts that still have a transition left |
| AuthorizationLedger.Ledger.Claim | src/nexus_vector/persistence/sqlite_keeperhub_authorization_ledger.py:358-404 | a claim succeeds only if neither its approval nor its phase and attempt were ever claimed |
| AuthorizationLedger.Ledger.Transition | src/nexus_vector/persistence/sqlite_keeperhub_authorization_ledger.py:406-449 | a claimed authorization is finalised once, to a final state of its own phase |
| AuthorizationLedger.ReferenceStore.Create | src/nexus_vector/persistence/sqlite_provider_execution_reference_store.py:245-280 | append-only: one reference per attempt, one attempt per provider reference |
| AuthorizationLedger.ClaimingIsExact | src/nexus_vector/persistence/sqlite_keeperhub_authorization_ledger.py:367-404 | a claim goes through if and only if its approval is new and the attempt was never claimed for this phase; the two phases never block each other |
| AuthorizationLedger.FinalizingIsExact | src/nexus_vector/persistence/sqlite_keeperhub_authorization_ledger.py:406-449 | finalising succeeds if and only if the row is still claimed, the target is final for its phase and time does not run back; it never succeeds twice |
| AuthorizationLedger.ReferringIsExact | src/nexus_vector/persistence/sqlite_provider_execution_reference_store.py:245-280 | a reference is recorded if and only if it is the attempt's own or neither the attempt nor the provider's text has been used |
| ProtocolInvariants.RunEvolves | src/nexus_vector/persistence/sqlite_mission_store.py:497-559 | along any run no store loses, rewrites or rolls back a row: revisions and times only grow, final effects, attempts and authorizations never change, attempt rank bounds its revision |
| ProtocolInvariants.AttemptIsTakenOnce | src/nexus_vector/persistence/sqlite_execution_attempt_store.py:323-352 | the PREPARED to IN_FLIGHT transition of an attempt is won once in a whole run |
| ProtocolInvariants.PortAnswersOnce | src/nexus_vector/application/execution_dispatch.py:118-136 | an attempt gets at most one answer from the port in a whole run |
| ProtocolInvariants.MissionRowsStaySound | src/nexus_vector/persistence/sqlite_mission_store.py:497-559 | every stored aggregate is well formed and COMPLETED only when justified, in every reachable state |
| ProtocolSafety.PortIsCalledAtMostOnce | src/nexus_vector/application/execution_dispatch.py:99-136 | in every interleaving of any processes, with crashes anywhere and differing plans and request keys, the port is called at most once per effect |
| ProtocolSafety.CallFollowsDurableIntent | src/nexus_vector/application/execution_dispatch.py:106-119 | whenever the port is called the durable attempt is already past PREPARED |
| ProtocolSafety.CalledAttemptsStayRecoverable | src/nexus_vector/persistence/sqlite_execution_attempt_store.py:356-384 | an attempt whose port was called is a recovery candidate until it is final: confirmed on chain, finally rejected by the provider, or contradicted by an observed transfer that does not match its effect |
| ProtocolSafety.BlockedAttemptsWereContradicted | src/nexus_vector/application/execution_reconciliation.py:145-152 | every BLOCKED attempt was observed with a verified transfer that does not match its effect |
| ProtocolSafety.ConfirmedEffectsWereObserved | src/nexus_vector/application/execution_reconciliation.py:140-182 | every CHAIN_CONFIRMED effect was observed before with matching chain, token, sender, recipient and amount and enough confirmations |
| ProtocolSafety.VerifiedImpliesConfirmed | src/nexus_vector/application/execution_reconciliation.py:173-189 | across two stores without a shared transaction, a VERIFIED attempt has its effect CHAIN_CONFIRMED in every reachable state |
| ProtocolSafety.ConfirmationPersists | src/nexus_vector/domain/mission_transitions.py:117-119 | a CHAIN_CONFIRMED effect stays so, with the same economics, ever after |
| ProtocolSafety.OutcomesAreHonest | src/nexus_vector/application/provider_reference_port.py:75-110 | PROVIDER_ACKNOWLEDGED has its durable provider reference, FAILED_FINAL has the port's only answer behind it and, behind that, a broadcast answered with 401, 403 or 422; no two attempts share a provider reference |
| ProtocolSafety.RevisionCountsMoves | src/nexus_vector/persistence/sqlite_execution_attempt_store.py:337-349 | an attempt's revision counts its transitions exactly |
| ProtocolSafety.AttemptMovesAtMostFourTimes | src/nexus_vector/domain/execution_attempts.py:33-68 | an attempt is transitioned at most four times in a whole run, so its revision never exceeds five |
| ProtocolSafety.RevisionsAreSingleTransitions | src/nexus_vector/persistence/sqlite_mission_store.py:506-559 | no lost update: one revision further is exactly one permitted transition, and identity never changes |
| ProtocolSafety.StoredMissionsAreSound | src/nexus_vector/domain/mission_models.py:416-422 | COMPLETED implies every effect confirmed, effects are never dated after their Mission, and a timestamp clamped to the Mission is never too early |
| PostSafety.ClaimIsUnique | src/nexus_vector/persistence/sqlite_keeperhub_authorization_ledger.py:367-404 | one attempt is authorised once per phase in a whole run |
| PostSafety.PostHappensAtMostOnce | src/nexus_vector/integrations/keeperhub_controlled_execution.py:417-438 | over all runs each attempt gets at most one simulation POST and one broadcast POST |
| PostSafety.BroadcastFollowsSimulation | src/nexus_vector/integrations/keeperhub_controlled_execution.py:505-587 | every broadcast POST comes after a simulation POST of the same attempt and fingerprint, with the same intent and the same body apart from the simulate flag, and after its answer, a 200 that reports success, no revert and status simulated |
| PostSafety.PostAsksForItsPlan | src/nexus_vector/integrations/keeperhub_controlled_execution.py:104-121 | every POST of every run, simulation or broadcast, carries the intent its stored plan covers, and its body, read on its own, asks for it |
| PostSafety.ReferenceWasAnswered | src/nexus_vector/integrations/keeperhub_direct_execution.py:256-281 | every durable provider reference is the execution id of a 202 answer to a broadcast POST of its attempt |
| RunnerSafety.TakenInSequence | tools/anna_mark_video_mission.py:644-658 | in an ordered run an attempt is taken only for a step whose predecessors are all confirmed |
| RunnerSafety.ConfirmedEffectsFormPrefix | tools/anna_mark_video_mission.py:637-658 | in every ordered run, for any sequence of distinct effects, the confirmed ones form a prefix |
| RunnerSafety.BroadcastsGoInOrder | tools/anna_mark_video_mission.py:959-1052 | a broadcast for a step is sent only when every earlier step is confirmed |
| RunnerSafety.BroadcastsStayWithinMission | tools/anna_mark_video_mission.py:959-1052 | the amounts of all broadcasts of an ordered run never add up to more than the Mission total |
| RunnerSafety.BroadcastPaysItsEffect | tools/anna_mark_video_mission.py:516-560 | every broadcast POST of an ordered run is for a step of the sequence, and the chain transfers that fulfil its body are exactly the economic matches of that step's effect in the stored Mission |
| RunnerSafety.ConfirmedAsPosted | src/nexus_vector/application/execution_reconciliation.py:140-182 | confirmed means paid as posted: for every confirmed step of an ordered run there is a broadcast POST and, later, an observation of a chain transfer that does what this POST asked for |
| LateCalls.CallersReadBeforeConfirmation | src/nexus_vector/application/execution_dispatch.py:81-97 | a process that calls the port for an effect read the Mission before the effect was confirmed; a later read never leads to a call |
| LateCalls.ReadAfterConfirmationIsImpossible | src/nexus_vector/application/execution_dispatch.py:84-97 | once an effect is confirmed nobody sees it as dispatchable |
| LateCalls.LateCallExactly | src/nexus_vector/application/execution_dispatch.py:81-119 | after an effect is CHAIN_CONFIRMED with its attempt not started, a process can still go on to call the port for it if and only if it has already read the Mission as dispatchable |
| LateCalls.LateCallIsPossible | src/nexus_vector/application/execution_dispatch.py:81-119 | a concrete legal run, of inputs the constructors accept, in which the port is called after CHAIN_CONFIRMED, because the read came first |
| Deployment.System.Yield | src/nexus_vector/persistence/sqlite_mission_store.py:266-286 | between two store calls other processes do anything legal, and the next call may fail before it writes |
| Deployment.System.Commit | src/nexus_vector/persistence/sqlite_mission_store.py:266-286 | a store call that succeeded is the next action of the run, and only if it was enabled |
| AuthorizedPosts.ClaimOnce | src/nexus_vector/integrations/keeperhub_controlled_execution.py:417-433 | the durable claim before a POST: on failure this process does nothing |
| AuthorizedPosts.PostOnce | src/nexus_vector/integrations/keeperhub_controlled_execution.py:435-440 | the one POST a claim pays for, and its answer |
| AuthorizedPosts.FinalizeBestEffort | src/nexus_vector/integrations/keeperhub_controlled_execution.py:137-151 | finalise a claim or leave it claimed; with nobody else acting, exactly what the ledger decides |
| Simulation.LoadDurableReceipt | src/nexus_vector/integrations/keeperhub_controlled_execution.py:315-357 | only a final simulation row is a receipt |
| Simulation.ConcludeSimulation | src/nexus_vector/integrations/keeperhub_controlled_execution.py:441-478 | a conclusive answer becomes a durable receipt of the claimed terms, anything else an unknown outcome |
| Simulation.Simulate | src/nexus_vector/integrations/keeperhub_controlled_execution.py:386-478 | nothing is sent unless the authorisation is in force, its window included; a receipt is durable, its body asks for the intent, and it is eligible if and only if the answer to this process's only POST says that the transfer would go through; alone, one results if and only if the plan is still PREPARED, the authorisation in force, the claim free and the answer conclusive, and the ledger row ends in the state the answer stands for |
| Dispatch.OpenBroadcastPort | src/nexus_vector/integrations/keeperhub_controlled_execution.py:484-545 | a port exists only for the durable, eligible receipt that fits intent and approval; alone, if and only if |
| Dispatch.BackedExactly | src/nexus_vector/integrations/keeperhub_controlled_execution.py:505-545 | a port is backed if and only if the ledger has the eligible row of this very receipt, for the simulated body of the intent, and the second approval is on the same terms and given after the simulation |
| Dispatch.ExecuteBroadcast | src/nexus_vector/integrations/keeperhub_controlled_execution.py:547-632 | nothing is claimed or sent unless the attempt is in flight, is the simulated one, fits the intent and went in flight inside the approval window; a verdict is what the answer says, spelled out; alone, then and with a free claim, the body that asks for the intent is sent once and its row ends in the state the answer stands for |
| Dispatch.StoreReference | src/nexus_vector/application/provider_reference_port.py:98-110 | the provider's reference is durable before ACCEPTED is returned |
| Dispatch.ExecuteWithReference | src/nexus_vector/application/provider_reference_port.py:75-110 | ACCEPTED implies a stored reference for this plan, REJECTED_FINAL the provider's word; alone, exactly the composed outcome |
| Dispatch.SeeMission | src/nexus_vector/application/execution_dispatch.py:81-97 | the Mission and effect checks of a dispatch |
| Dispatch.PrepareOnce | src/nexus_vector/application/execution_dispatch.py:99-104 | create the attempt or find the one journalled for the same plan |
| Dispatch.TakeOnce | src/nexus_vector/application/execution_dispatch.py:106-116 | the durable IN_FLIGHT transition under the revision read before |
| Dispatch.Settle | src/nexus_vector/application/execution_dispatch.py:118-153 | what the port's outcome makes of the attempt; whatever cannot be recorded is left unknown, never failed |
| Dispatch.Dispatch | src/nexus_vector/application/execution_dispatch.py:71-153 | under contention the port is entered exactly for a stored outcome or EXECUTION_OUTCOME_UNKNOWN and outcomes are honest; alone, it is reached if and only if DispatchReaches and the stored state is the port's outcome |
| CasSteps.TryMoveMission | src/nexus_vector/persistence/sqlite_mission_store.py:457-474 | one swap from a snapshot: stale exactly when the row has moved on, otherwise the transition itself |
| CasSteps.TryMoveEffect | src/nexus_vector/persistence/sqlite_mission_store.py:476-495 | the same for an effect |
| CasSteps.TryMoveAttempt | src/nexus_vector/persistence/sqlite_execution_attempt_store.py:313-354 | the same for an attempt |
| Admission.AdmissionStep | src/nexus_vector/application/mission_admission.py:65-91 | a turn of the loop, won or lost, brings the Mission strictly closer to admission |
| Admission.Admit | src/nexus_vector/application/mission_admission.py:54-102 | at most two swaps under any contention, the exhausted branch never reached, failures only a database fault, a content conflict or a Mission somebody refused, success an admitted row of the caller's own content |
| Admission.AdmissionIsDecided | src/nexus_vector/application/mission_admission.py:35-47 | admitted is every state but the two before admission and the two of a refusal |
| Admission.AdmitReady | tools/anna_mark_video_mission.py:580-605 | admission followed by two single swaps; alone, a new Mission ends READY_FOR_EXECUTION |
| CasLoops.DriveAttempt | src/nexus_vector/application/execution_reconciliation.py:274-298 | under any contention the loop of twelve ends in the target state, with a database fault or a forbidden transition, never exhausted |
| CasLoops.DriveMission | src/nexus_vector/application/execution_reconciliation.py:400-424 | the Mission loop under any contention: unless the database fails, its result is the one the rows it read determine; alone, one turn |
| CasLoops.ExhaustionTakesTwelve | src/nexus_vector/application/execution_reconciliation.py:406-424 | a Mission or effect loop is exhausted if and only if it read twelve newer rows, so only after at least twelve swaps by others |
| CasLoops.DriveEffect | src/nexus_vector/application/execution_reconciliation.py:426-457 | the effect loop likewise; it is refused only when the row it started from, or one it was overtaken by, refuses the target |
| CasLoops.TurnFailsExactly | src/nexus_vector/domain/mission_transitions.py:210-232 | a turn on a sound row fails if and only if the effect is neither in the target state nor in one that leads there, and then with EFFECT_TRANSITION_NOT_ALLOWED |
| CasLoops.RefusalIsExact | src/nexus_vector/application/execution_reconciliation.py:432-457 | an effect loop ends with EFFECT_TRANSITION_NOT_ALLOWED if and only if at most eleven swaps were stale and the last row read refuses |
| Projection.EnsureReconciling | src/nexus_vector/application/execution_reconciliation.py:359-382 | RECONCILING or COMPLETED, from exactly the reconcilable states |
| Projection.ReconcilableExactly | src/nexus_vector/application/execution_reconciliation.py:359-377 | a Mission is given up exactly where the transition table has no way to RECONCILING, COMPLETED apart |
| Projection.MarkManualReview | src/nexus_vector/application/execution_reconciliation.py:384-398 | MANUAL_REVIEW_REQUIRED unless COMPLETED, from exactly the reconcilable states |
| Projection.AdvanceEffect | src/nexus_vector/application/execution_reconciliation.py:307-334 | the outer loop of twelve is never used up; alone, the effect ends CHAIN_CONFIRMED unless it was in a contradicting final state |
| Projection.SettlingIsComplete | src/nexus_vector/application/execution_reconciliation.py:336-357 | UNCLASSIFIED_EFFECT_STATE cannot happen |
| Projection.SettleMission | src/nexus_vector/application/execution_reconciliation.py:336-357 | alone, the stored Mission is COMPLETED if and only if all effects are CHAIN_CONFIRMED, under review if and only if one has failed or is blocked, READY_FOR_EXECUTION if and only if all are PLANNED or CHAIN_CONFIRMED and one PLANNED, RECONCILING if and only if none has failed and one is under way |
| Projection.SettlingIsExact | src/nexus_vector/application/execution_reconciliation.py:336-357 | the branches of settling bring every Mission to exactly the state its effects call for |
| Projection.ProjectConfirmedEffect | src/nexus_vector/application/execution_reconciliation.py:300-357 | the effect is CHAIN_CONFIRMED on return; alone, every other effect is untouched, the Mission stands where its effects call for, and success is exactly reconcilable and not contradicted |
| Projection.AdvanceOnce | src/nexus_vector/application/execution_reconciliation.py:314-332 | one step of the climb brings the effect at least one state on; it is refused only if the row was overtaken by one that refuses the step; alone, it is one write |
| Exhibits.RacingReconcilersCollide | src/nexus_vector/application/execution_reconciliation.py:432-452 | a legal run in which two reconcilers with the same exact evidence race and the slower one ends with EFFECT_TRANSITION_NOT_ALLOWED |
| Exhibits.LoopsCanStarve | src/nexus_vector/application/execution_reconciliation.py:400-457 | for every legal run, reconciling Mission and target not yet reached there is a legal continuation by others in which all twelve swaps of the loop are stale |
| Reconciliation.Locate | src/nexus_vector/application/execution_reconciliation.py:103-109 | the reads of a reconciliation; alone, successful exactly when attempt, Mission and effect belong together |
| Reconciliation.MarkUnknown | src/nexus_vector/application/execution_reconciliation.py:219-236 | only an attempt in flight or acknowledged becomes unknown |
| Reconciliation.BlockAttempt | src/nexus_vector/application/execution_reconciliation.py:256-272 | a contradicted attempt is blocked unless VERIFIED or FAILED_FINAL |
| Reconciliation.MarkVerified | src/nexus_vector/application/execution_reconciliation.py:238-254 | VERIFIED, only after the effect is CHAIN_CONFIRMED |
| Reconciliation.Weigh | src/nexus_vector/application/execution_reconciliation.py:129-160 | inconclusive, mismatching and exact evidence, each if and only if |
| Reconciliation.Decide | src/nexus_vector/application/execution_reconciliation.py:129-189 | each outcome means what it says in the stores; alone, the result is Undisturbed of the weighed evidence |
| Reconciliation.Reconcile | src/nexus_vector/application/execution_reconciliation.py:87-189 | nothing is ever resent, five codes are never reported, and under any contention VERIFIED is reported only for an attempt found finished or on exact evidence delivered to this call, never for a Mission under review; alone, a finished attempt is left alone unobserved, and exact evidence ends VERIFIED if and only if recoverable, by exactly the writes of RecoveryOf, with the Mission left COMPLETED, under review, READY_FOR_EXECUTION or RECONCILING as its effects call for |
| CrashRecovery.CrashPoint | src/nexus_vector/application/execution_reconciliation.py:173-189 | in every run and after each number of writes of an undisturbed recovery, exact evidence can still finish the attempt, except after the last write but one if another effect was FAILED_FINAL or BLOCKED from the start |
| CrashRecovery.EveryCrashPointIsSalvageable | src/nexus_vector/application/execution_reconciliation.py:336-357 | all crash points of a recovery can be recovered from if and only if no other effect of the Mission is FAILED_FINAL or BLOCKED when it begins |
| CrashRecovery.SettlesReconcilably | src/nexus_vector/application/execution_reconciliation.py:336-357 | the Mission settles under review if and only if another effect is FAILED_FINAL or BLOCKED |
| CrashRecovery.MismatchStrandsSiblings | src/nexus_vector/application/execution_reconciliation.py:145-152 | after an undisturbed reconciliation of one attempt on a mismatching transfer a sibling can still be recovered if and only if it was finished or the Mission is COMPLETED |
| CrashRecovery.WrittenOffForGood | src/nexus_vector/domain/mission_transitions.py:89-92 | a Mission under review, in conflict or blocked stays so in every continuation, and none of its attempts can be recovered but the finished ones |
| CrashRecovery.MismatchThenRecover | src/nexus_vector/application/execution_reconciliation.py:145-152 | reconciling one attempt on a mismatching transfer makes the next reconciliation of its unfinished sibling fail with MISSION_NOT_RECONCILABLE, exact evidence or not |
| Exhibits.ReviewComesBeforeTheMark | src/nexus_vector/application/execution_reconciliation.py:343-344 | a legal run in which a blocked sibling effect and a crash leave an attempt with its effect confirmed that exact evidence cannot finish |
| Exhibits.SiblingMismatchComesBeforeTheMark | src/nexus_vector/application/execution_reconciliation.py:145-152 | a legal run of reconcilers alone, with no effect FAILED_FINAL or BLOCKED, that ends the same way through a sibling's mismatch |
| Reconciliation.RecoverThenRepeat | src/nexus_vector/application/execution_reconciliation.py:111-119 | one undisturbed run with exact evidence finishes a recoverable attempt; a second asks nobody and writes nothing |
| SequentialRunner.GateOpensExactly | tools/anna_mark_video_mission.py:637-658 | the gate opens if and only if the Mission is ready, the effect PLANNED and every predecessor confirmed; its own predecessor check never fires |
| SequentialRunner.GatePermits | tools/anna_mark_video_mission.py:644-658 | a gate passed on an old snapshot still permits the dispatch |
| SequentialRunner.AdvanceAfterAck | tools/anna_mark_video_mission.py:908-956 | success means VERIFYING with the effect SUBMITTED; alone, exactly when the Mission is not dated later |
| SequentialRunner.ExecuteSimulation | tools/anna_mark_video_mission.py:789-905 | nothing is sent on a skip or over a durable receipt, and a receipt handed back is eligible if and only if its ledger row is; alone, each report if and only if its condition: a repeated pass exactly when the gate is open, the approval matches and a final receipt is durable |
| SequentialRunner.RejectionIsHandedBack | tools/anna_mark_video_mission.py:827-849 | with a durable rejection, simulating again passes with that rejection, and the broadcast approved on it fails with SIMULATION_NOT_ELIGIBLE before anything is sent |
| Exhibits.RejectionBecomesDurable | tools/anna_mark_video_mission.py:870-890 | a legal ordered run in which a 403 makes a rejection durable while the gate stays open |
| SequentialRunner.Ready | tools/anna_mark_video_mission.py:970-1042 | everything a broadcast reads and checks; alone, it goes on if and only if Startable |
| SequentialRunner.ExecuteBroadcast | tools/anna_mark_video_mission.py:959-1117 | the port is never entered on a skip, a reconcile-first stop or any other stop but an unknown outcome; alone, it is entered if and only if Startable and reached, the broadcast is acknowledged if and only if moreover the plan is for the intent, approval and phase are unused and the provider takes the transfer up under a new reference, and an acknowledgement advances the Mission |
| SequentialRunner.DeliveredExactly | tools/anna_mark_video_mission.py:1022-1053 | a startable broadcast that reaches the port is accepted if and only if it is deliverable and delivered; its approval window is never in the way |
| SequentialRunner.ChallengePinsTransfer | tools/anna_mark_video_mission.py:381-392 | an approval of a broadcast is for one effect of one sheet and the one simulated body |
| SequentialRunner.VerifyEffect | tools/anna_mark_video_mission.py:1314-1378 | a VERIFIED outcome leaves this step and every earlier one confirmed and, unless found finished, rests on evidence with two confirmations; alone and with exact evidence the outcome is VERIFIED, the gate of the next step is open if and only if that step is PLANNED and nothing else of the Mission is under way, failed or blocked, always when all steps ahead are PLANNED, and the Mission is COMPLETED if and only if this was the last |
| ContinuationPlanner.ClassificationIsExact | src/nexus_vector/application/continuation_planner.py:210-348 | nothing is unclassified, and SKIP_VERIFIED, EXECUTE_MISSING and MANUAL_REVIEW each hold if and only if their condition does, with reconciliation as the rest |
| ContinuationPlanner.ReasonsAreExact | src/nexus_vector/application/continuation_planner.py:210-348 | the reason each decision gives, each if and only if |
| ContinuationPlanner.StatesArePartitioned | src/nexus_vector/application/continuation_planner.py:80-106 | given up are the final Mission states but COMPLETED; not executable are the others but READY_FOR_EXECUTION and RECONCILING |
| ContinuationPlanner.Plan | src/nexus_vector/application/continuation_planner.py:132-208 | the loop with its two seen sets computes the plan, and the mismatch, incompleteness and duplicate-identifier failures never occur |
| ContinuationPlanner.ContinuationConservesMoney | src/nexus_vector/application/continuation_planner.py:163-178 | each effect gets one decision for its own amount and the four partitions sum to the immutable request total |
| ContinuationPlanner.PlanForgetsOrder | src/nexus_vector/application/continuation_planner.py:149-161 | permuting the effects gives the same plan |
| ContinuationPlanner.PlanningFailsOnlyOnForeignAttempt | src/nexus_vector/application/continuation_planner.py:217-226 | over sound stores planning fails if and only if an effect's attempt was journalled under another Mission key |
| PlannerAgreement.PlannerAndDispatcherAgree | src/nexus_vector/application/continuation_planner.py:300-309 | on any reachable stores dispatch reaches the port if and only if the planner says EXECUTE_MISSING, the Mission is ready and a stored attempt has this plan and an earlier date |
| PlannerAgreement.DecisionsPredictDispatch | src/nexus_vector/application/execution_dispatch.py:81-116 | each decision of a plan tells what dispatching its effect would do |
| ExecutionDoctor.DiagnosisIsExact | src/nexus_vector/application/execution_doctor.py:144-260 | all five diagnoses of an effect, skip, execute, wait, reconcile and review, hold if and only if the decision and the observation say so |
| ExecutionDoctor.CodesAreExact | src/nexus_vector/application/execution_doctor.py:144-260 | the cause each diagnosis names, each if and only if |
| ExecutionDoctor.VerdictsAreExact | src/nexus_vector/application/execution_doctor.py:262-279 | all five verdicts, each if and only if, in terms of all decisions and observations: MANUAL_REVIEW when one is refuted, else WAIT_FOR_CONFIRMATIONS when one is confirmed below policy, else RECONCILE when one is left open, COMPLETE when all are finished, EXECUTE_MISSING when the rest is untouched |
| ExecutionDoctor.RefusalsAreExact | src/nexus_vector/application/execution_doctor.py:97-132 | a diagnosis is refused exactly for the four bad inputs, and no report is unclassified |
| ExecutionDoctor.CompleteMeansDone | src/nexus_vector/application/execution_doctor.py:277-278 | planner and Doctor together: COMPLETE implies every effect CHAIN_CONFIRMED under a VERIFIED attempt and everything skipped |
| ExecutionDoctor.ExecuteMissingIsSafe | src/nexus_vector/application/execution_doctor.py:220-258 | planner and Doctor together: EXECUTE_MISSING implies nothing unresolved or under review, something executable, and no external trace of any executable effect |
| ResponseScan.PushValues | src/nexus_vector/integrations/keeperhub_simulation_runtime.py:87-97 | the entries of one mapping, checked and pushed in order |
| ResponseScan.Expand | src/nexus_vector/integrations/keeperhub_simulation_runtime.py:81-99 | one turn of the stack loop keeps what the stack means and shrinks it by one node |
| ResponseScan.Scan | src/nexus_vector/integrations/keeperhub_simulation_runtime.py:75-99 | accepts if and only if the tree has at most 10,000 nodes and no entry at any depth has a key that is no text, names an execution or reports a broadcast status; every refusal names the fault of an entry that is really there |
| ResponseScan.UncleanRaisesSomething | src/nexus_vector/integrations/keeperhub_simulation_runtime.py:87-96 | a tree that is not clean raises one of the three objections somewhere |
| ResponseScan.CleanlinessIsExact | src/nexus_vector/integrations/keeperhub_simulation_runtime.py:87-99 | a tree is clean if and only if no entry at any depth has a fault, and raises a code if and only if one has the fault of that code |
| TransferSelection.ObserveReceiptLogs | src/nexus_vector/integrations/base_sepolia_rpc_verification.py:237-269 | the loop with its two lists computes the observation of the logs; what a log states is fixed by ParsingIsExact, what is selected by SelectionIsExact; a refused log of the expected token raises |
| ChainFields.QuantityIsExact | src/nexus_vector/integrations/base_sepolia_rpc_verification.py:62-71 | a quantity reads as a number if and only if it spells the shortest numeral of that number, in letters of either case |
| ChainFields.AmountIsExact | src/nexus_vector/integrations/base_sepolia_rpc_verification.py:80-89 | a data word reads as an amount if and only if it spells the 64-digit numeral of that positive number |
| ChainFields.LoweredHexIsExact | src/nexus_vector/integrations/base_sepolia_rpc_verification.py:50-59 | an address or hash reads as a lower-case text if and only if it spells it |
| ChainFields.TopicAddressIsExact | src/nexus_vector/integrations/base_sepolia_rpc_verification.py:74-77 | a topic reads as an address if and only if its last 20 bytes spell it |
| TransferSelection.ParsingIsExact | src/nexus_vector/integrations/base_sepolia_rpc_verification.py:271-331 | a log parses to a transfer if and only if it records this transfer, sender before recipient, of this transaction and block; it is refused if and only if it is a transfer log of the expected token that records none |
| TransferSelection.WrittenLogParses | src/nexus_vector/integrations/base_sepolia_rpc_verification.py:271-327 | round trip: the log a node writes for any transfer below 2^256 base units parses to exactly this transfer |
| TransferSelection.ParsedTransfersAreRecorded | src/nexus_vector/integrations/base_sepolia_rpc_verification.py:237-251 | a log list can be read if and only if no log is broken, and the transfers found are exactly those some log records |
| TransferSelection.SelectionIsExact | src/nexus_vector/integrations/base_sepolia_rpc_verification.py:333-362 | the chosen transfer is the intended one if and only if exactly one parsed transfer is |
| TransferSelection.SelectionNeedsOneCandidate | src/nexus_vector/integrations/base_sepolia_rpc_verification.py:333-354 | a transfer is chosen exactly when one candidate is left: one exact, one of the token, or one at all; it is of the expected token if any is, and nothing is found exactly when there is no transfer |
| TransferSelection.ObservationForgetsLogOrder | src/nexus_vector/integrations/base_sepolia_rpc_verification.py:237-255 | the observation does not depend on the order of the logs |
| TransferSelection.ObservedTransferIsMined | src/nexus_vector/integrations/base_sepolia_rpc_verification.py:195-231 | an observation is made exactly of an absent or a readable receipt, and a verified transfer is stated by it: the expected transaction, successful, on chain 84532, with confirmations counting the receipt's own block |
| TransferSelection.ExactEvidenceIsUnique | src/nexus_vector/integrations/base_sepolia_rpc_verification.py:195-269 | the chain's answers are exact evidence for the reconciler if and only if exactly one of the receipt's transfers is the intended one and it is deep enough, a mismatch if and only if none is and a single candidate is left |
| TransferSelection.ReconcileOnChain | src/nexus_vector/application/execution_reconciliation.py:121-189 | verifier and reconciler together: never VERIFIED from a receipt that does not record the intended payment exactly once; alone, an unfinished attempt ends VERIFIED if and only if it is recoverable and the payment was recorded once and deep enough, and the Mission is left where its effects call for |
| TransferSelection.EvidenceIsWhatWasPaid | src/nexus_vector/integrations/base_sepolia_rpc_verification.py:195-331 | the verifier's unique and deep transfer is, field by field, the intended payment recorded by one log and no other of a successful receipt of the expected transaction on chain 84532 |
| TransferSelection.OrdinaryPaymentIsEvidence | src/nexus_vector/integrations/base_sepolia_rpc_verification.py:195-331 | end to end: the answers a node writes about an ordinary payment are exact evidence if and only if the block is deep enough |
| TransferSelection.ParsedTransfersFitReceipt | src/nexus_vector/integrations/base_sepolia_rpc_verification.py:311-327 | a parsed transfer is well formed and carries this transaction, block and depth |

## Left out

- SQLite mechanics: connections, WAL retries, PRAGMAs, schema checks, row decoding and CORRUPT_RECORD. Each read or write is one atomic step on a map, with a possible DATABASE_ERROR before it commits.
- MissionStore.Store.Rewrite: does not model the two tables and the row-by-row effect updates, which one transaction makes atomic; the aggregate is one map value.
- Dispatch.PrepareOnce: takes a plan whose namespace and request key have 1 to 256 characters, as do `Dispatch.Dispatch` and `Simulation.Simulate`, because no other plan object can be built.
- AttemptStore.Store.ListRecoveryCandidates: gives a set; the order by identifier text is not modelled, because identifiers are symbolic digests.
- Bytes of SHA-256 and canonical JSON, Unicode NFC and case folding: digests are symbolic, `ResponseScan` takes the text rules as parameters, and strings are compared as they are.
- Validation of shapes and lengths that Dafny's types already rule out (wrong Python types, missing fields, identifier patterns, UTC offsets) and the codes that go with it. Timestamps are integers.
- TransferSelection.ObserveReceiptLogs: all refusals of a log or of the RPC answers are one exception; their individual codes are not modelled, since the reconciler treats them alike.
- ContinuationPlanner.Plan: does not model EFFECT_MISSION_KEY_MISMATCH, because an effect's identifier carries its Mission key here; attempts are looked up in one fixed table, not in one that changes during the loop.
- Dispatch.Dispatch: is modelled with the port its caller in the runner gives it, the reference-persisting port around the approved broadcast port, whose durable receipt is therefore a precondition; other execution ports, and the direct port that simulates and broadcasts in one call, are not modelled.
- Guards on the shape of a simulation body in the simulation-only transport: single-branch checks on fixed key sets.
- SequentialRunner.ExecuteBroadcast: the action sheet, wallet context, files, masking and previews: are not modelled, a validated sheet that ties the plan to the effect and the intent to the effect's chain, token, scale, recipient and amount is a precondition. Approval texts are symbolic digests or parameters. Capturing the provider transaction binding appears only as whether a binding exists.
- Reconciliation.Reconcile: in an ordered deployment requires the attempt's provider reference, which the runner reads first; the evidence fingerprint of the result is not modelled.
- Admission.Admit: takes an acceptable request, because no other request object can be built.
- HTTP and JSON-RPC transports, OAuth and MCP probes, credentials and command lines: provider and chain answers are parameters.
- The surface gate and its binding store, the rehearsal, one-shot and canary tools: easier copies of the once-only claims proved here.
- frontend/, operator_console/ and the local console, repository hygiene and public-evidence checks: fixed-constant validation.
- list_restart_candidates and get_by_provider_reference: single queries nothing modelled here depends on.
