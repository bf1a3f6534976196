/** Read-only diagnosis: a continuation plan compared with sanitised external observations. */
module ExecutionDoctor {
  import opened Outcomes
  import opened MissionIdentity
  import opened Missions
  import opened ContinuationPlanner
  import AttemptStore

  datatype ProviderState = ProviderNotQueried | ProviderNotFound | ProviderAccepted | ProviderRejectedFinal | ProviderUnknown
  datatype ChainState = ChainNotQueried | ChainNotFound | Confirmed | Mismatch | ChainUnknown

  datatype EffectObservation = EffectObservation(
    effectId: EffectId, provider: ProviderState, chain: ChainState, confirmations: nat)

  datatype DoctorAction = SkipVerifiedEffect | ExecuteMissingEffect | Reconcile | WaitForConfirmations | Review | Complete

  datatype DiagnosisCode =
    | ChainEconomicMismatch | LocalStateRequiresManualReview | LocalVerifiedChainNotFound | LocalVerifiedProviderRejected
    | VerifiedEffectConfirmationsBelowPolicy | LocalVerifiedNeverResend | ChainConfirmationsBelowPolicy
    | ChainConfirmedLocalProjectionPending | ProviderFinalLocalActiveContradiction
    | ExecutionOutcomeNotDurablyResolved | UnexpectedChainConfirmationBelowPolicy | ChainEffectExistsLocalMissing
    | ProviderEffectMayExistLocalMissing | ChainStateUnknown | ProviderRejectionWithoutDurableAttempt
    | NoDurableOrExternalExecutionEvidence

  datatype Diagnosis = Diagnosis(effectRef: string, effectId: EffectId, action: DoctorAction, code: DiagnosisCode)

  datatype Report = Report(
    missionKey: MissionKey, nextAction: DoctorAction, diagnoses: seq<Diagnosis>,
    total: int, skipped: int, executable: int, unresolved: int, manualReview: int)

  type Observations = map<EffectId, EffectObservation>

  // ---- one effect ----

  function DiagnoseEffect(d: Decision, o: EffectObservation, minimum: int): Diagnosis {
    var (action, code) :=
      if o.chain == Mismatch then (Review, ChainEconomicMismatch)
      else
        match d.action
        case ManualReview => (Review, LocalStateRequiresManualReview)
        case SkipVerified =>
          if o.chain == ChainNotFound then (Review, LocalVerifiedChainNotFound)
          else if o.provider == ProviderRejectedFinal then (Review, LocalVerifiedProviderRejected)
          else if o.chain == Confirmed && o.confirmations < minimum then
            (WaitForConfirmations, VerifiedEffectConfirmationsBelowPolicy)
          else (SkipVerifiedEffect, LocalVerifiedNeverResend)
        case ReconcileRequired =>
          if o.chain == Confirmed then
            if o.confirmations < minimum then (WaitForConfirmations, ChainConfirmationsBelowPolicy)
            else (Reconcile, ChainConfirmedLocalProjectionPending)
          else if o.provider == ProviderRejectedFinal then (Review, ProviderFinalLocalActiveContradiction)
          else (Reconcile, ExecutionOutcomeNotDurablyResolved)
        case ExecuteMissing =>
          if o.chain == Confirmed then
            if o.confirmations < minimum then (WaitForConfirmations, UnexpectedChainConfirmationBelowPolicy)
            else (Reconcile, ChainEffectExistsLocalMissing)
          else if o.provider in {ProviderAccepted, ProviderUnknown} then (Reconcile, ProviderEffectMayExistLocalMissing)
          else if o.chain == ChainUnknown then (Reconcile, ChainStateUnknown)
          else if o.provider == ProviderRejectedFinal then (Review, ProviderRejectionWithoutDurableAttempt)
          else (ExecuteMissingEffect, NoDurableOrExternalExecutionEvidence);
    Diagnosis(d.effectRef, d.effectId, action, code)
  }

  /** The outside world knows nothing of the effect. */
  predicate NoEvidence(o: EffectObservation) {
    o.provider in {ProviderNotQueried, ProviderNotFound} && o.chain in {ChainNotQueried, ChainNotFound}
  }

  /** The outside world does not contradict that the effect is done. */
  predicate Consistent(o: EffectObservation, minimum: int) {
    && o.provider != ProviderRejectedFinal && o.chain !in {Mismatch, ChainNotFound}
    && (o.chain == Confirmed ==> minimum <= o.confirmations)
  }

  /** The decision is under review, or the observation contradicts it: other economics on the chain, a finished effect
      that the chain does not know or the provider rejected, an unfinished one that the provider rejected while the
      chain neither confirms it nor, for one never attempted, leaves it open. */
  predicate Refuted(d: Decision, o: EffectObservation) {
    || d.action == ManualReview || o.chain == Mismatch
    || (d.action == SkipVerified && (o.chain == ChainNotFound || o.provider == ProviderRejectedFinal))
    || (d.action == ReconcileRequired && o.provider == ProviderRejectedFinal && o.chain != Confirmed)
    || (d.action == ExecuteMissing && o.provider == ProviderRejectedFinal && o.chain != Confirmed && o.chain != ChainUnknown)
  }

  /** The chain confirms the effect, not yet deeply enough. */
  predicate TooShallow(o: EffectObservation, minimum: int) {
    o.chain == Confirmed && o.confirmations < minimum
  }

  /** The outcome is not durably known, or something outside is known of an effect never attempted. */
  predicate LeftOpen(d: Decision, o: EffectObservation) {
    d.action == ReconcileRequired || (d.action == ExecuteMissing && !NoEvidence(o))
  }

  lemma DiagnosisIsExact(d: Decision, o: EffectObservation, minimum: int)
    ensures var action := DiagnoseEffect(d, o, minimum).action;
      && action != Complete
      && (action == SkipVerifiedEffect <==> d.action == SkipVerified && Consistent(o, minimum))
      && (action == ExecuteMissingEffect <==> d.action == ExecuteMissing && NoEvidence(o))
      && (action == WaitForConfirmations <==> TooShallow(o, minimum) && !Refuted(d, o))
      && (action == Review <==> Refuted(d, o))
      && (action == Reconcile <==> LeftOpen(d, o) && !Refuted(d, o) && !TooShallow(o, minimum))
  {
  }

  /** The cause each diagnosis names. */
  lemma CodesAreExact(d: Decision, o: EffectObservation, minimum: int)
    ensures var (code, matching) := (DiagnoseEffect(d, o, minimum).code, o.chain != Mismatch);
      var (finished, unresolved, missing) :=
        (d.action == SkipVerified && matching, d.action == ReconcileRequired && matching, d.action == ExecuteMissing && matching);
      var (shallow, deep) := (TooShallow(o, minimum), o.chain == Confirmed && minimum <= o.confirmations);
      var (rejected, possible) :=
        (o.provider == ProviderRejectedFinal, o.provider == ProviderAccepted || o.provider == ProviderUnknown);
      && (code == ChainEconomicMismatch <==> o.chain == Mismatch)
      && (code == LocalStateRequiresManualReview <==> d.action == ManualReview && matching)
      && (code == LocalVerifiedChainNotFound <==> finished && o.chain == ChainNotFound)
      && (code == LocalVerifiedProviderRejected <==> finished && o.chain != ChainNotFound && rejected)
      && (code == VerifiedEffectConfirmationsBelowPolicy <==> finished && shallow && !rejected)
      && (code == LocalVerifiedNeverResend <==> finished && Consistent(o, minimum))
      && (code == ChainConfirmationsBelowPolicy <==> unresolved && shallow)
      && (code == ChainConfirmedLocalProjectionPending <==> unresolved && deep)
      && (code == ProviderFinalLocalActiveContradiction <==> unresolved && o.chain != Confirmed && rejected)
      && (code == ExecutionOutcomeNotDurablyResolved <==> unresolved && o.chain != Confirmed && !rejected)
      && (code == UnexpectedChainConfirmationBelowPolicy <==> missing && shallow)
      && (code == ChainEffectExistsLocalMissing <==> missing && deep)
      && (code == ProviderEffectMayExistLocalMissing <==> missing && o.chain != Confirmed && possible)
      && (code == ChainStateUnknown <==> missing && o.chain == ChainUnknown && !possible)
      && (code == ProviderRejectionWithoutDurableAttempt <==>
            missing && o.chain in {ChainNotQueried, ChainNotFound} && rejected)
      && (code == NoDurableOrExternalExecutionEvidence <==> missing && NoEvidence(o))
    ensures DiagnoseEffect(d, o, minimum).effectRef == d.effectRef && DiagnoseEffect(d, o, minimum).effectId == d.effectId
  {
  }

  // ---- the report ----

  function Diagnoses(decisions: seq<Decision>, observations: Observations, minimum: int): seq<Diagnosis>
    requires forall d :: d in decisions ==> d.effectId in observations
  {
    seq(|decisions|, i requires 0 <= i < |decisions| =>
      DiagnoseEffect(decisions[i], observations[decisions[i].effectId], minimum))
  }

  predicate Suggests(diagnoses: seq<Diagnosis>, action: DoctorAction) {
    exists i :: 0 <= i < |diagnoses| && diagnoses[i].action == action
  }

  function OverallAction(diagnoses: seq<Diagnosis>): Result<DoctorAction> {
    if diagnoses == [] then Failure(EmptyDiagnoses)
    else if Suggests(diagnoses, Review) then Success(Review)
    else if Suggests(diagnoses, WaitForConfirmations) then Success(WaitForConfirmations)
    else if Suggests(diagnoses, Reconcile) then Success(Reconcile)
    else if Suggests(diagnoses, ExecuteMissingEffect) then Success(ExecuteMissingEffect)
    else if forall i :: 0 <= i < |diagnoses| ==> diagnoses[i].action == SkipVerifiedEffect then Success(Complete)
    else Failure(UnclassifiedReportAction)
  }

  function DecisionIds(decisions: seq<Decision>): set<EffectId> {
    set d | d in decisions :: d.effectId
  }

  function Diagnose(plan: ContinuationPlan, observations: Observations, minimum: int): Result<Report> {
    if minimum < 1 then Failure(InvalidMinimumConfirmations)
    else if observations.Keys != DecisionIds(plan.decisions) then Failure(ObservationSetMismatch)
    else if exists id :: id in observations && observations[id].effectId != id then Failure(InvalidObservation)
    else
      assert forall d :: d in plan.decisions ==> d.effectId in DecisionIds(plan.decisions);
      var diagnoses := Diagnoses(plan.decisions, observations, minimum);
      match OverallAction(diagnoses)
      case Failure(code) => Failure(code)
      case Success(next) =>
        Success(Report(plan.missionKey, next, diagnoses,
          plan.total, plan.skipped, plan.executable, plan.unresolved, plan.manualReview))
  }

  // ---- sums of a plan ----

  lemma {:induction false} OnlyOneAction(decisions: seq<Decision>, action: ContinuationAction)
    requires forall i :: 0 <= i < |decisions| ==> decisions[i].action == action
    ensures AmountFor(decisions, action) == Total(decisions)
  {
    if decisions != [] {
      OnlyOneAction(decisions[1..], action);
    }
  }

  lemma {:induction false} NoSuchAction(decisions: seq<Decision>, action: ContinuationAction)
    requires forall i :: 0 <= i < |decisions| ==> decisions[i].action != action
    ensures AmountFor(decisions, action) == 0
  {
    if decisions != [] {
      NoSuchAction(decisions[1..], action);
    }
  }

  // ---- main results, planner and Doctor together ----

  /** No decision is refuted and none waits: all are finished with nothing against it. */
  predicate AllFinished(decisions: seq<Decision>, observations: Observations, minimum: int) {
    forall i :: 0 <= i < |decisions| ==>
      && decisions[i].action == SkipVerified && decisions[i].effectId in observations
      && Consistent(observations[decisions[i].effectId], minimum)
  }

  /** Every decision is finished or may be executed, the latter without any trace outside. */
  predicate FinishedOrUntouched(decisions: seq<Decision>, observations: Observations, minimum: int) {
    forall i :: 0 <= i < |decisions| ==>
      && decisions[i].effectId in observations
      && var o := observations[decisions[i].effectId];
      || (decisions[i].action == SkipVerified && Consistent(o, minimum))
      || (decisions[i].action == ExecuteMissing && NoEvidence(o))
  }

  predicate SomeRefuted(decisions: seq<Decision>, observations: Observations) {
    exists i :: 0 <= i < |decisions| && decisions[i].effectId in observations
      && Refuted(decisions[i], observations[decisions[i].effectId])
  }

  predicate SomeTooShallow(decisions: seq<Decision>, observations: Observations, minimum: int) {
    exists i :: 0 <= i < |decisions| && decisions[i].effectId in observations
      && TooShallow(observations[decisions[i].effectId], minimum)
  }

  predicate SomeLeftOpen(decisions: seq<Decision>, observations: Observations) {
    exists i :: 0 <= i < |decisions| && decisions[i].effectId in observations
      && LeftOpen(decisions[i], observations[decisions[i].effectId])
  }

  /** What each of the five verdicts of a report means for the plan it was made from. */
  lemma VerdictsAreExact(plan: ContinuationPlan, observations: Observations, minimum: int)
    requires Diagnose(plan, observations, minimum).Success?
    ensures var next := Diagnose(plan, observations, minimum).value.nextAction;
      && plan.decisions != []
      && (next == Complete <==> AllFinished(plan.decisions, observations, minimum))
      && (next == ExecuteMissingEffect <==>
            FinishedOrUntouched(plan.decisions, observations, minimum)
            && !AllFinished(plan.decisions, observations, minimum))
      && (next == Review <==> SomeRefuted(plan.decisions, observations))
      && (next == WaitForConfirmations <==>
            SomeTooShallow(plan.decisions, observations, minimum) && !SomeRefuted(plan.decisions, observations))
      && (next == Reconcile <==>
            SomeLeftOpen(plan.decisions, observations) && !SomeTooShallow(plan.decisions, observations, minimum)
            && !SomeRefuted(plan.decisions, observations))
  {
    forall d | d in plan.decisions ensures d.effectId in observations {
      assert d.effectId in DecisionIds(plan.decisions);
    }
    DiagnosesOfPlan(plan.decisions, observations, minimum);
    CautionsAreExact(plan.decisions, observations, minimum);
    GoAheadsAreExact(plan.decisions, observations, minimum);
    hide Diagnoses, SomeRefuted, SomeTooShallow, SomeLeftOpen, AllFinished, FinishedOrUntouched, Suggests;
  }

  /** The diagnosis of each decision in terms of the decision and its observation. */
  predicate DiagnosedAs(decisions: seq<Decision>, observations: Observations, minimum: int, i: nat)
    requires i < |decisions| && forall d :: d in decisions ==> d.effectId in observations
  {
    var (d, action) := (decisions[i], Diagnoses(decisions, observations, minimum)[i].action);
    var o := observations[d.effectId];
    && action != Complete
    && (action == SkipVerifiedEffect <==> d.action == SkipVerified && Consistent(o, minimum))
    && (action == ExecuteMissingEffect <==> d.action == ExecuteMissing && NoEvidence(o))
    && (action == Review <==> Refuted(d, o))
    && (action == WaitForConfirmations <==> TooShallow(o, minimum) && !Refuted(d, o))
    && (action == Reconcile <==> LeftOpen(d, o) && !Refuted(d, o) && !TooShallow(o, minimum))
  }

  lemma DiagnosesOfPlan(decisions: seq<Decision>, observations: Observations, minimum: int)
    requires forall d :: d in decisions ==> d.effectId in observations
    ensures forall i :: 0 <= i < |decisions| ==> DiagnosedAs(decisions, observations, minimum, i)
  {
    hide DiagnoseEffect, Consistent, NoEvidence, Refuted, TooShallow, LeftOpen;
    forall i | 0 <= i < |decisions| ensures DiagnosedAs(decisions, observations, minimum, i) {
      assert decisions[i] in decisions;
      DiagnosisIsExact(decisions[i], observations[decisions[i].effectId], minimum);
    }
  }

  lemma CautionsAreExact(decisions: seq<Decision>, observations: Observations, minimum: int)
    requires forall d :: d in decisions ==> d.effectId in observations
    requires forall i :: 0 <= i < |decisions| ==> DiagnosedAs(decisions, observations, minimum, i)
    ensures var diagnoses := Diagnoses(decisions, observations, minimum);
      && (Suggests(diagnoses, Review) <==> SomeRefuted(decisions, observations))
      && (!SomeRefuted(decisions, observations) ==>
            (Suggests(diagnoses, WaitForConfirmations) <==> SomeTooShallow(decisions, observations, minimum)))
      && (!SomeRefuted(decisions, observations) && !SomeTooShallow(decisions, observations, minimum) ==>
            (Suggests(diagnoses, Reconcile) <==> SomeLeftOpen(decisions, observations)))
  {
    hide DiagnoseEffect, Consistent, NoEvidence, Refuted, TooShallow, LeftOpen;
    var diagnoses := Diagnoses(decisions, observations, minimum);
    forall i | 0 <= i < |decisions|
      ensures decisions[i].effectId in observations && DiagnosedAs(decisions, observations, minimum, i)
    {
      assert decisions[i] in decisions;
    }
    hide Diagnoses;
    if SomeRefuted(decisions, observations) {
      var i :| 0 <= i < |decisions| && decisions[i].effectId in observations
        && Refuted(decisions[i], observations[decisions[i].effectId]);
      assert diagnoses[i].action == Review;
    } else if SomeTooShallow(decisions, observations, minimum) {
      var i :| 0 <= i < |decisions| && decisions[i].effectId in observations
        && TooShallow(observations[decisions[i].effectId], minimum);
      assert diagnoses[i].action == WaitForConfirmations;
    } else if SomeLeftOpen(decisions, observations) {
      var i :| 0 <= i < |decisions| && decisions[i].effectId in observations
        && LeftOpen(decisions[i], observations[decisions[i].effectId]);
      assert diagnoses[i].action == Reconcile;
    }
  }

  lemma GoAheadsAreExact(decisions: seq<Decision>, observations: Observations, minimum: int)
    requires forall d :: d in decisions ==> d.effectId in observations
    requires forall i :: 0 <= i < |decisions| ==> DiagnosedAs(decisions, observations, minimum, i)
    ensures var diagnoses := Diagnoses(decisions, observations, minimum);
      var next := OverallAction(diagnoses);
      && (next == Success(Complete) <==> decisions != [] && AllFinished(decisions, observations, minimum))
      && (next == Success(ExecuteMissingEffect) <==>
            FinishedOrUntouched(decisions, observations, minimum) && !AllFinished(decisions, observations, minimum))
  {
    hide DiagnoseEffect, Consistent, NoEvidence, Refuted, TooShallow, LeftOpen;
    forall i | 0 <= i < |decisions|
      ensures decisions[i].effectId in observations && DiagnosedAs(decisions, observations, minimum, i)
    {
      assert decisions[i] in decisions;
    }
  }

  /** A diagnosis is refused for a policy below one, observations that do not name exactly the planned effects,
      one filed under another effect's identifier, or an empty plan; no report is ever unclassified. */
  lemma RefusalsAreExact(plan: ContinuationPlan, observations: Observations, minimum: int)
    ensures Diagnose(plan, observations, minimum).Success? <==>
      && minimum >= 1 && observations.Keys == DecisionIds(plan.decisions) && plan.decisions != []
      && forall id :: id in observations ==> observations[id].effectId == id
    ensures Diagnose(plan, observations, minimum) != Failure(UnclassifiedReportAction)
  {
    if minimum >= 1 && observations.Keys == DecisionIds(plan.decisions) {
      forall d | d in plan.decisions ensures d.effectId in observations {
        assert d.effectId in DecisionIds(plan.decisions);
      }
      var diagnoses := Diagnoses(plan.decisions, observations, minimum);
      forall i | 0 <= i < |diagnoses| ensures diagnoses[i].action != Complete {
        assert plan.decisions[i] in plan.decisions;
        DiagnosisIsExact(plan.decisions[i], observations[plan.decisions[i].effectId], minimum);
      }
      hide DiagnoseEffect;
    }
  }

  /** COMPLETE: every effect is CHAIN_CONFIRMED under a VERIFIED attempt, and all the money is skipped. */
  lemma CompleteMeansDone(m: MissionRecord, attempts: AttemptStore.AttemptRows, observations: Observations, minimum: int)
    requires WellFormed(m) && PlanFor(m, attempts).Success?
    requires Diagnose(PlanFor(m, attempts).value, observations, minimum).Success?
    requires Diagnose(PlanFor(m, attempts).value, observations, minimum).value.nextAction == Complete
    ensures var report := Diagnose(PlanFor(m, attempts).value, observations, minimum).value;
      report.skipped == report.total == RequestTotal(m.request.effects)
    ensures forall e :: e in m.effects ==>
      e.state == ChainConfirmed && AttemptVerified(Lookup(attempts, EffectId(m.key, e.effectRef)))
  {
    var plan := PlanFor(m, attempts).value;
    VerdictsAreExact(plan, observations, minimum);
    OnlyOneAction(plan.decisions, SkipVerified);
    ContinuationConservesMoney(m, attempts);
    ReportCopiesSums(plan, observations, minimum);
    PlanSums(m, attempts);
    hide Diagnose, PlanFor, WellFormed, Consistent, Classify;
    forall e | e in m.effects
      ensures e.state == ChainConfirmed && AttemptVerified(Lookup(attempts, EffectId(m.key, e.effectRef)))
    {
      var d :| d in plan.decisions && DecisionFor(m, attempts, e, d);
      ClassificationIsExact(m.key, m.state, e, Lookup(attempts, EffectId(m.key, e.effectRef)));
    }
  }

  lemma ReportCopiesSums(plan: ContinuationPlan, observations: Observations, minimum: int)
    requires Diagnose(plan, observations, minimum).Success?
    ensures var report := Diagnose(plan, observations, minimum).value;
      && report.total == plan.total && report.skipped == plan.skipped && report.executable == plan.executable
      && report.unresolved == plan.unresolved && report.manualReview == plan.manualReview
  {
  }

  lemma PlanSums(m: MissionRecord, attempts: AttemptStore.AttemptRows)
    requires PlanFor(m, attempts).Success?
    ensures var plan := PlanFor(m, attempts).value;
      && plan.total == Total(plan.decisions) && plan.skipped == AmountFor(plan.decisions, SkipVerified)
      && plan.executable == AmountFor(plan.decisions, ExecuteMissing)
      && plan.unresolved == AmountFor(plan.decisions, ReconcileRequired)
      && plan.manualReview == AmountFor(plan.decisions, ManualReview)
  {
  }

  /** EXECUTE_MISSING: nothing is unresolved or up for review, the rest of the total is executable, at least one
      effect is, and no executable effect has any accepted, confirmed or unknown evidence outside. */
  lemma ExecuteMissingIsSafe(m: MissionRecord, attempts: AttemptStore.AttemptRows, observations: Observations, minimum: int)
    requires WellFormed(m) && PlanFor(m, attempts).Success?
    requires Diagnose(PlanFor(m, attempts).value, observations, minimum).Success?
    requires Diagnose(PlanFor(m, attempts).value, observations, minimum).value.nextAction == ExecuteMissingEffect
    ensures var report := Diagnose(PlanFor(m, attempts).value, observations, minimum).value;
      && report.unresolved == 0 && report.manualReview == 0
      && report.skipped + report.executable == report.total == RequestTotal(m.request.effects)
    ensures var decisions := PlanFor(m, attempts).value.decisions;
      && (exists d :: d in decisions && d.action == ExecuteMissing)
      && (forall d :: d in decisions && d.action == ExecuteMissing ==>
            d.effectId in observations && NoEvidence(observations[d.effectId]))
  {
    var plan := PlanFor(m, attempts).value;
    VerdictsAreExact(plan, observations, minimum);
    ContinuationConservesMoney(m, attempts);
    ReportCopiesSums(plan, observations, minimum);
    PlanSums(m, attempts);
    hide Diagnose, PlanFor, WellFormed, Consistent, NoEvidence;
    NoSuchAction(plan.decisions, ReconcileRequired);
    NoSuchAction(plan.decisions, ManualReview);
    var i :| 0 <= i < |plan.decisions| && plan.decisions[i].action == ExecuteMissing;
    assert plan.decisions[i] in plan.decisions;
  }
}
