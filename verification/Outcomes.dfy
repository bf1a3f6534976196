/** Results of store and service calls.  A source exception becomes Failure(code), with one constructor of
    Code for each error code the model distinguishes. */
module Outcomes {

  datatype Option<+T> = None | Some(value: T)

  datatype Result<+T> = Success(value: T) | Failure(code: Code)

  datatype Code =
    // any store
    | DatabaseError | StaleRevision | TimestampBeforeCurrent
    // Mission identity and model
    | EmptyEffects | EmptyString | DuplicateEffectRef | InvalidAddress
    | InvalidAmountBaseUnits | InvalidChainId | InvalidDecimals
    // Mission store, transitions and admission
    | InvalidInitialAggregate | MissionConflictError | MissionNotFound
    | MissionTransitionNotAllowed | MissionCompletionRequiresConfirmedEffects
    | UnknownEffectRef | EffectTransitionNotAllowed
    | AdmissionCasExhausted | AdmissionNotPersisted
    // attempts and dispatch
    | InvalidInitialAttempt | ExecutionAttemptConflict | AttemptNotFound | AttemptTransitionNotAllowed
    | MissionNotReadyForExecution | EffectNotFound | EffectNotDispatchable
    | ReconciliationRequired | ExecutionOutcomeUnknown
    // authorization ledger, simulation and broadcast
    | AuthorizationAlreadyConsumed | AuthorizationNotFound | AuthorizationAlreadyFinalized
    | AuthorizationTransitionNotAllowed | ClaimStateRequired
    | ProviderNamespaceMismatch | RequestFingerprintMismatch
    | SimulationAuthorizationMismatch | SimulationAuthorizationExpired
    | SimulationOutcomeUnknown | SimulationReceiptNotFound | SimulationReceiptNotFinal
    | SimulationReceiptPersistenceFailed | SimulationNotEligible | ApprovalReferenceReuse
    | BroadcastAuthorizationMismatch | BroadcastApprovedBeforeSimulation
    | SimulationBodyFingerprintMismatch | SimulationReceiptMismatch
    // provider references
    | ProviderReferenceConflict | ProviderReferenceNotFound
    // reconciliation
    | InvalidExpectedSender | VerificationOutcomeUnknown | AttemptTerminalContradiction | AttemptCasExhausted
    | EffectTerminalContradiction | EffectCasExhausted | MissionCasExhausted
    | MissionNotReconcilable | UnclassifiedEffectState
    // ordered runner
    | InvalidEffectRef | OutOfSequenceEffect | PredecessorNotChainConfirmed | SimulationApprovalMismatch
    | BroadcastApprovalMismatch | BroadcastRuntimeFlagRequired
    | AttemptTerminalNotVerifiable | ProviderTransactionBindingNotFound
    // planner and doctor
    | InvalidEffects | InvalidEffectAmount | DuplicateEffectId
    | AttemptEffectMismatch | AttemptMissionMismatch
    | ContinuationTotalMismatch | EffectClassificationIncomplete
    | UnclassifiedMissionState
    | InvalidMinimumConfirmations | ObservationSetMismatch | InvalidObservation | EmptyDiagnoses
    | UnclassifiedReportAction
    // response scan
    | SimulationResponseTooComplex | InvalidSimulationResponseKey
    | SimulationExecutionEvidencePresent | SimulationBroadcastStatusPresent
}
