/** Planning of a partially executed Mission: every effect is classified exactly once. */
module ContinuationPlanner {
  import opened Outcomes
  import opened MissionIdentity
  import opened Missions
  import opened Attempts
  import AttemptStore
  import Ordering

  datatype ContinuationAction = SkipVerified | ExecuteMissing | ReconcileRequired | ManualReview

  datatype Reason =
    | MissionRequiresManualReview | CompletedMissionEffectContradiction | EffectAlreadyVerified
    | EffectTerminalFailure | MissionNotReadyForContinuation | ConfirmedEffectAttemptContradiction
    | ConfirmedEffectAttemptNotVerified | PlannedEffectNotDispatched | PlannedEffectHasAmbiguousAttempt
    | PlannedEffectAttemptContradiction | ActiveEffectTerminalAttemptContradiction | EffectExecutionNotFinal

  datatype Decision = Decision(
    effectRef: string, effectId: EffectId, amount: int, action: ContinuationAction, reason: Reason)

  datatype ContinuationPlan = ContinuationPlan(
    missionKey: MissionKey, missionState: MissionState, decisions: seq<Decision>,
    total: int, skipped: int, executable: int, unresolved: int, manualReview: int)

  // ---- one effect ----

  function Decide(key: MissionKey, e: EffectRecord, action: ContinuationAction, reason: Reason): Decision {
    Decision(e.effectRef, EffectId(key, e.effectRef), e.amount, action, reason)
  }

  predicate NeedsReview(state: MissionState) {
    state in {MissionState.MissionConflict, MissionState.Blocked, ManualReviewRequired}
  }

  predicate NotExecutable(state: MissionState) {
    state in {Received, Validated, Persisted, Executing, Verifying, MissionState.ExecutionUnknown, VerificationFailed}
  }

  predicate FailedOrBlocked(state: EffectState) {
    state in {EffectState.FailedFinal, EffectState.Blocked}
  }

  predicate AttemptFailedOrBlocked(attempt: Option<Attempt>) {
    attempt.Some? && attempt.value.state in {AttemptState.FailedFinal, AttemptState.Blocked}
  }

  predicate AttemptVerified(attempt: Option<Attempt>) {
    attempt.Some? && attempt.value.state == Verified
  }

  function Classify(key: MissionKey, state: MissionState, e: EffectRecord, attempt: Option<Attempt>): Result<Decision> {
    if attempt.Some? && attempt.value.plan.effectId != EffectId(key, e.effectRef) then Failure(AttemptEffectMismatch)
    else if attempt.Some? && attempt.value.plan.missionKey != key then Failure(AttemptMissionMismatch)
    else if NeedsReview(state) then Success(Decide(key, e, ManualReview, MissionRequiresManualReview))
    else if state == Completed && e.state != ChainConfirmed then
      Success(Decide(key, e, ManualReview, CompletedMissionEffectContradiction))
    else if NotExecutable(state) then
      if e.state == ChainConfirmed && AttemptVerified(attempt) then
        Success(Decide(key, e, SkipVerified, EffectAlreadyVerified))
      else if FailedOrBlocked(e.state) then Success(Decide(key, e, ManualReview, EffectTerminalFailure))
      else Success(Decide(key, e, ReconcileRequired, MissionNotReadyForContinuation))
    else if state !in {ReadyForExecution, Reconciling, Completed} then Failure(UnclassifiedMissionState)
    else if e.state == ChainConfirmed then
      if AttemptVerified(attempt) then Success(Decide(key, e, SkipVerified, EffectAlreadyVerified))
      else if AttemptFailedOrBlocked(attempt) then
        Success(Decide(key, e, ManualReview, ConfirmedEffectAttemptContradiction))
      else Success(Decide(key, e, ReconcileRequired, ConfirmedEffectAttemptNotVerified))
    else if e.state == Planned then
      if attempt.None? || attempt.value.state == Prepared then
        Success(Decide(key, e, ExecuteMissing, PlannedEffectNotDispatched))
      else if attempt.value.state in {InFlight, ProviderAcknowledged, AttemptState.ExecutionUnknown} then
        Success(Decide(key, e, ReconcileRequired, PlannedEffectHasAmbiguousAttempt))
      else Success(Decide(key, e, ManualReview, PlannedEffectAttemptContradiction))
    else if e.state in {Reserved, Submitted, EffectState.ExecutionUnknown} then
      if AttemptFailedOrBlocked(attempt) then
        Success(Decide(key, e, ManualReview, ActiveEffectTerminalAttemptContradiction))
      else Success(Decide(key, e, ReconcileRequired, EffectExecutionNotFinal))
    else if FailedOrBlocked(e.state) then Success(Decide(key, e, ManualReview, EffectTerminalFailure))
    else Failure(UnclassifiedEffectState)
  }

  /** The attempt's final state does not fit an effect that is not final itself. */
  predicate Contradicts(e: EffectRecord, attempt: Option<Attempt>) {
    AttemptFailedOrBlocked(attempt) || (e.state == Planned && AttemptVerified(attempt))
  }

  /** Nothing is ever unclassified, and each action has its exact condition: the three below, and to reconcile
      in every other case. */
  lemma ClassificationIsExact(key: MissionKey, state: MissionState, e: EffectRecord, attempt: Option<Attempt>)
    ensures var fits := attempt.Some? ==>
        attempt.value.plan.effectId == EffectId(key, e.effectRef) && attempt.value.plan.missionKey == key;
      var r := Classify(key, state, e, attempt);
      && (r.Success? <==> fits)
      && (r.Failure? ==> r.code in {AttemptEffectMismatch, AttemptMissionMismatch})
      && (r == Failure(AttemptEffectMismatch) <==>
            attempt.Some? && attempt.value.plan.effectId != EffectId(key, e.effectRef))
      && (r.Success? ==>
            && r.value.effectRef == e.effectRef && r.value.effectId == EffectId(key, e.effectRef)
            && r.value.amount == e.amount
            && (r.value.action == SkipVerified <==>
                  !NeedsReview(state) && e.state == ChainConfirmed && AttemptVerified(attempt))
            && (r.value.action == ExecuteMissing <==>
                  && state in {ReadyForExecution, Reconciling} && e.state == Planned
                  && (attempt.None? || attempt.value.state == Prepared))
            && (r.value.action == ManualReview <==>
                  || NeedsReview(state) || (state == Completed && e.state != ChainConfirmed)
                  || FailedOrBlocked(e.state) || (!NotExecutable(state) && Contradicts(e, attempt))))
  {
  }

  /** The three kinds of Mission state a plan distinguishes, by the transition table: given up are the final states but
      COMPLETED, and executable are COMPLETED, READY_FOR_EXECUTION and RECONCILING. */
  lemma StatesArePartitioned(state: MissionState)
    ensures NeedsReview(state) <==> FinalMission(state) && state != Completed
    ensures NotExecutable(state) <==> !FinalMission(state) && state != ReadyForExecution && state != Reconciling
  {
    FinalMissionStates(state);
  }

  /** The reason each decision gives. */
  lemma ReasonsAreExact(key: MissionKey, state: MissionState, e: EffectRecord, attempt: Option<Attempt>)
    ensures var r := Classify(key, state, e, attempt);
      r.Success? ==>
        var reason := r.value.reason;
        var (confirmed, planned, failed) := (e.state == ChainConfirmed, e.state == Planned, FailedOrBlocked(e.state));
        var open := state == ReadyForExecution || state == Reconciling || (state == Completed && confirmed);
        && (reason == MissionRequiresManualReview <==> NeedsReview(state))
        && (reason == CompletedMissionEffectContradiction <==> state == Completed && !confirmed)
        && (reason == EffectAlreadyVerified <==> (open || NotExecutable(state)) && confirmed && AttemptVerified(attempt))
        && (reason == EffectTerminalFailure <==> (open || NotExecutable(state)) && failed)
        && (reason == MissionNotReadyForContinuation <==>
              NotExecutable(state) && !failed && !(confirmed && AttemptVerified(attempt)))
        && (reason == ConfirmedEffectAttemptContradiction <==> open && confirmed && AttemptFailedOrBlocked(attempt))
        && (reason == ConfirmedEffectAttemptNotVerified <==>
              open && confirmed && !AttemptFailedOrBlocked(attempt) && !AttemptVerified(attempt))
        && (reason == PlannedEffectNotDispatched <==>
              open && planned && (attempt.None? || attempt.value.state == Prepared))
        && (reason == PlannedEffectAttemptContradiction <==>
              open && planned && (AttemptFailedOrBlocked(attempt) || AttemptVerified(attempt)))
        && (reason == PlannedEffectHasAmbiguousAttempt <==>
              open && planned && attempt.Some? && attempt.value.state != Prepared
              && !AttemptFailedOrBlocked(attempt) && !AttemptVerified(attempt))
        && (reason == ActiveEffectTerminalAttemptContradiction <==>
              open && !confirmed && !planned && !failed && AttemptFailedOrBlocked(attempt))
        && (reason == EffectExecutionNotFinal <==>
              open && !confirmed && !planned && !failed && !AttemptFailedOrBlocked(attempt))
  {
  }

  // ---- all effects ----

  const RecordRef := (e: EffectRecord) => e.effectRef

  function Lookup(attempts: AttemptStore.AttemptRows, id: EffectId): Option<Attempt> {
    if AttemptId(id) in attempts then Some(attempts[AttemptId(id)].record) else None
  }

  /** The loop over effects: the first effect that is invalid or cannot be classified decides the error. */
  function Decided(
    key: MissionKey, state: MissionState, effects: seq<EffectRecord>, attempts: AttemptStore.AttemptRows, seen: set<string>)
    : Result<seq<Decision>>
  {
    if effects == [] then Success([])
    else
      var e := effects[0];
      if e.effectRef == "" then Failure(InvalidEffectRef)
      else if e.amount < 1 then Failure(InvalidEffectAmount)
      else if e.effectRef in seen then Failure(DuplicateEffectRef)
      else
        match Classify(key, state, e, Lookup(attempts, EffectId(key, e.effectRef)))
        case Failure(code) => Failure(code)
        case Success(decision) =>
          match Decided(key, state, effects[1..], attempts, seen + {e.effectRef})
          case Failure(code) => Failure(code)
          case Success(rest) => Success([decision] + rest)
  }

  function Total(decisions: seq<Decision>): int {
    if decisions == [] then 0 else decisions[0].amount + Total(decisions[1..])
  }

  function AmountFor(decisions: seq<Decision>, action: ContinuationAction): int {
    if decisions == [] then 0
    else (if decisions[0].action == action then decisions[0].amount else 0) + AmountFor(decisions[1..], action)
  }

  function BuildPlan(key: MissionKey, state: MissionState, decisions: seq<Decision>): ContinuationPlan {
    ContinuationPlan(key, state, decisions, Total(decisions),
      AmountFor(decisions, SkipVerified), AmountFor(decisions, ExecuteMissing),
      AmountFor(decisions, ReconcileRequired), AmountFor(decisions, ManualReview))
  }

  function PlanFor(m: MissionRecord, attempts: AttemptStore.AttemptRows): Result<ContinuationPlan> {
    if m.effects == [] then Failure(InvalidEffects)
    else
      match Decided(m.key, m.state, Ordering.Sort(RecordRef, m.effects), attempts, {})
      case Failure(code) => Failure(code)
      case Success(decisions) => Success(BuildPlan(m.key, m.state, decisions))
  }

  /** The four partitions always add up to the total. */
  lemma {:induction false} PartitionsAddUp(decisions: seq<Decision>)
    ensures AmountFor(decisions, SkipVerified) + AmountFor(decisions, ExecuteMissing)
      + AmountFor(decisions, ReconcileRequired) + AmountFor(decisions, ManualReview) == Total(decisions)
  {
    if decisions != [] {
      PartitionsAddUp(decisions[1..]);
    }
  }

  lemma {:induction false} OneDecisionPerEffect(
    key: MissionKey, state: MissionState, effects: seq<EffectRecord>, attempts: AttemptStore.AttemptRows, seen: set<string>)
    requires Decided(key, state, effects, attempts, seen).Success?
    ensures var decisions := Decided(key, state, effects, attempts, seen).value;
      && |decisions| == |effects|
      && (forall i :: 0 <= i < |effects| ==>
            Classify(key, state, effects[i], Lookup(attempts, EffectId(key, effects[i].effectRef))) == Success(decisions[i]))
      && Total(decisions) == RecordTotal(effects)
  {
    if effects != [] {
      OneDecisionPerEffect(key, state, effects[1..], attempts, seen + {effects[0].effectRef});
      ClassificationIsExact(key, state, effects[0], Lookup(attempts, EffectId(key, effects[0].effectRef)));
      var decisions := Decided(key, state, effects, attempts, seen).value;
      var rest := Decided(key, state, effects[1..], attempts, seen + {effects[0].effectRef}).value;
      assert decisions[1..] == rest;
      forall i | 0 <= i < |effects|
        ensures Classify(key, state, effects[i], Lookup(attempts, EffectId(key, effects[i].effectRef))) == Success(decisions[i])
      {
        if i > 0 { assert effects[i] == effects[1..][i - 1] && decisions[i] == rest[i - 1]; }
      }
    }
  }

  // ---- the loop ----

  function Prepended(done: seq<Decision>, rest: Result<seq<Decision>>): Result<seq<Decision>> {
    match rest
    case Failure(code) => Failure(code)
    case Success(value) => Success(done + value)
  }

  /** The source's loop: sort, validate against two sets of what was seen, look the attempt up, append, and at
      the end check the sums.  Those last checks, and the one for a repeated identifier, never fire. */
  method Plan(m: MissionRecord, attempts: AttemptStore.AttemptRows) returns (r: Result<ContinuationPlan>)
    ensures r == PlanFor(m, attempts)
    ensures r.Failure? ==>
      r.code in {InvalidEffects, InvalidEffectRef, InvalidEffectAmount, DuplicateEffectRef,
                 AttemptEffectMismatch, AttemptMissionMismatch}
  {
    if m.effects == [] { return Failure(InvalidEffects); }
    var effects := Ordering.Sort(RecordRef, m.effects);
    var seenRefs: set<string>, seenIds: set<EffectId> := {}, {};
    var decisions: seq<Decision> := [];
    ghost var whole := Decided(m.key, m.state, effects, attempts, {});
    Ordering.SortIsSorted(RecordRef, m.effects);
    assert effects[0..] == effects && (whole.Success? ==> [] + whole.value == whole.value);
    assert whole == Prepended(decisions, Decided(m.key, m.state, effects[0..], attempts, seenRefs));
    hide Decided, Classify, Ordering.Sort, Prepended;
    var i := 0;
    while i < |effects|
      invariant 0 <= i <= |effects| && |decisions| == i
      invariant forall ref :: EffectId(m.key, ref) in seenIds ==> ref in seenRefs
      invariant whole == Prepended(decisions, Decided(m.key, m.state, effects[i..], attempts, seenRefs))
    {
      var e := effects[i];
      DecidedUnrolls(m.key, m.state, effects, i, attempts, seenRefs, decisions);
      if e.effectRef == "" { return Failure(InvalidEffectRef); }
      if e.amount < 1 { return Failure(InvalidEffectAmount); }
      if e.effectRef in seenRefs { return Failure(DuplicateEffectRef); }
      var id := EffectId(m.key, e.effectRef);
      if id in seenIds { return Failure(DuplicateEffectId); }
      ClassificationIsExact(m.key, m.state, e, Lookup(attempts, id));
      var decision := Classify(m.key, m.state, e, Lookup(attempts, id));
      if decision.Failure? { return Failure(decision.code); }
      seenRefs, seenIds := seenRefs + {e.effectRef}, seenIds + {id};
      decisions := decisions + [decision.value];
      i := i + 1;
    }
    NothingLeft(m.key, m.state, effects[i..], attempts, seenRefs, decisions);
    var plan := BuildPlan(m.key, m.state, decisions);
    PartitionsAddUp(decisions);
    if plan.skipped + plan.executable + plan.unresolved + plan.manualReview != plan.total {
      return Failure(ContinuationTotalMismatch);
    }
    if |plan.decisions| != |m.effects| { return Failure(EffectClassificationIncomplete); }
    r := Success(plan);
  }

  /** The code a single effect stops the loop with, if any. */
  function Objection(
    key: MissionKey, state: MissionState, e: EffectRecord, attempts: AttemptStore.AttemptRows, seen: set<string>)
    : Option<Code>
  {
    if e.effectRef == "" then Some(InvalidEffectRef)
    else if e.amount < 1 then Some(InvalidEffectAmount)
    else if e.effectRef in seen then Some(DuplicateEffectRef)
    else
      match Classify(key, state, e, Lookup(attempts, EffectId(key, e.effectRef)))
      case Failure(code) => Some(code)
      case Success(_) => None
  }

  lemma DecidedUnrolls(
    key: MissionKey, state: MissionState, effects: seq<EffectRecord>, i: nat, attempts: AttemptStore.AttemptRows,
    seen: set<string>, done: seq<Decision>)
    requires i < |effects|
    ensures var whole := Prepended(done, Decided(key, state, effects[i..], attempts, seen));
      match Objection(key, state, effects[i], attempts, seen)
      case Some(code) => whole == Failure(code)
      case None =>
        var decision := Classify(key, state, effects[i], Lookup(attempts, EffectId(key, effects[i].effectRef))).value;
        whole == Prepended(done + [decision],
          Decided(key, state, effects[i + 1..], attempts, seen + {effects[i].effectRef}))
  {
    hide Classify;
    assert effects[i..][1..] == effects[i + 1..];
    var r := Classify(key, state, effects[i], Lookup(attempts, EffectId(key, effects[i].effectRef)));
    var tail := Decided(key, state, effects[i + 1..], attempts, seen + {effects[i].effectRef});
    if r.Success? && tail.Success? {
      assert done + ([r.value] + tail.value) == (done + [r.value]) + tail.value;
    }
  }

  lemma NothingLeft(
    key: MissionKey, state: MissionState, rest: seq<EffectRecord>, attempts: AttemptStore.AttemptRows,
    seen: set<string>, done: seq<Decision>)
    requires rest == []
    ensures Prepended(done, Decided(key, state, rest, attempts, seen)) == Success(done)
  {
    assert done + [] == done;
  }

  // ---- main results ----

  lemma {:induction false} InsertingAdds(e: EffectRecord, effects: seq<EffectRecord>)
    ensures RecordTotal(Ordering.Insert(RecordRef, e, effects)) == e.amount + RecordTotal(effects)
  {
    if effects != [] && !Ordering.Before(e.effectRef, effects[0].effectRef) {
      InsertingAdds(e, effects[1..]);
    }
  }

  lemma {:induction false} SortingKeepsTotal(effects: seq<EffectRecord>)
    ensures RecordTotal(Ordering.Sort(RecordRef, effects)) == RecordTotal(effects)
  {
    if effects != [] {
      SortingKeepsTotal(effects[1..]);
      InsertingAdds(effects[0], Ordering.Sort(RecordRef, effects[1..]));
    }
  }

  /** Each effect gets exactly one decision, for its own amount, and the four partitions add up to the
      immutable total of the request. */
  lemma ContinuationConservesMoney(m: MissionRecord, attempts: AttemptStore.AttemptRows)
    requires WellFormed(m) && PlanFor(m, attempts).Success?
    ensures var plan := PlanFor(m, attempts).value;
      && plan.skipped + plan.executable + plan.unresolved + plan.manualReview == plan.total
      && plan.total == RequestTotal(m.request.effects)
      && |plan.decisions| == |m.effects|
      && (forall e :: e in m.effects ==> exists d :: d in plan.decisions && DecisionFor(m, attempts, e, d))
  {
    var effects := Ordering.Sort(RecordRef, m.effects);
    var plan := PlanFor(m, attempts).value;
    PartitionsAddUp(plan.decisions);
    OneDecisionPerEffect(m.key, m.state, effects, attempts, {});
    Ordering.SortIsSorted(RecordRef, m.effects);
    SortingKeepsTotal(m.effects);
    TotalIsImmutable(m);
    forall e | e in m.effects ensures exists d :: d in plan.decisions && DecisionFor(m, attempts, e, d) {
      assert e in multiset(effects);
      var i :| 0 <= i < |effects| && effects[i] == e;
      ClassificationIsExact(m.key, m.state, e, Lookup(attempts, EffectId(m.key, e.effectRef)));
      assert DecisionFor(m, attempts, e, plan.decisions[i]);
    }
  }

  predicate DecisionFor(m: MissionRecord, attempts: AttemptStore.AttemptRows, e: EffectRecord, d: Decision) {
    && d.effectRef == e.effectRef && d.effectId == EffectId(m.key, e.effectRef) && d.amount == e.amount
    && Classify(m.key, m.state, e, Lookup(attempts, d.effectId)) == Success(d)
  }

  /** The plan does not depend on the order of the effects. */
  lemma PlanForgetsOrder(m: MissionRecord, m': MissionRecord, attempts: AttemptStore.AttemptRows)
    requires DistinctRefs(m.effects) && m' == m.(effects := m'.effects) && multiset(m'.effects) == multiset(m.effects)
    ensures PlanFor(m', attempts) == PlanFor(m, attempts)
  {
    assert |multiset(m'.effects)| == |multiset(m.effects)|;
    forall i, j | 0 <= i < j < |m.effects| ensures RecordRef(m.effects[i]) != RecordRef(m.effects[j]) {
    }
    Ordering.SortForgetsOrder(RecordRef, m.effects, m'.effects);
  }

  predicate Foreign(m: MissionRecord, attempts: AttemptStore.AttemptRows, e: EffectRecord) {
    var attempt := Lookup(attempts, EffectId(m.key, e.effectRef));
    attempt.Some? && attempt.value.plan.missionKey != m.key
  }

  lemma {:induction false} DecidedExactly(
    m: MissionRecord, effects: seq<EffectRecord>, attempts: AttemptStore.AttemptRows, seen: set<string>)
    requires forall id :: id in attempts ==> attempts[id].record.Id() == id
    requires forall i :: 0 <= i < |effects| ==>
      effects[i].effectRef != "" && effects[i].amount >= 1 && effects[i].effectRef !in seen
    requires DistinctRefs(effects)
    ensures Decided(m.key, m.state, effects, attempts, seen).Success? <==>
      forall i :: 0 <= i < |effects| ==> !Foreign(m, attempts, effects[i])
    ensures Decided(m.key, m.state, effects, attempts, seen).Failure? ==>
      Decided(m.key, m.state, effects, attempts, seen).code == AttemptMissionMismatch
  {
    if effects != [] {
      var e, rest := effects[0], effects[1..];
      ClassificationIsExact(m.key, m.state, e, Lookup(attempts, EffectId(m.key, e.effectRef)));
      forall i | 0 <= i < |rest|
        ensures rest[i].effectRef != "" && rest[i].amount >= 1 && rest[i].effectRef !in seen + {e.effectRef}
      {
        assert effects[0].effectRef != effects[i + 1].effectRef;
      }
      DecidedExactly(m, rest, attempts, seen + {e.effectRef});
      if forall i :: 0 <= i < |effects| ==> !Foreign(m, attempts, effects[i]) {
        assert !Foreign(m, attempts, effects[0]);
        forall i | 0 <= i < |rest| ensures !Foreign(m, attempts, rest[i]) {
          assert !Foreign(m, attempts, effects[i + 1]);
        }
      }
      if Decided(m.key, m.state, effects, attempts, seen).Success? {
        forall i | 0 <= i < |effects| ensures !Foreign(m, attempts, effects[i]) {
          if i > 0 { assert !Foreign(m, attempts, rest[i - 1]); }
        }
      }
    }
  }

  lemma EffectsAreAcceptable(m: MissionRecord)
    requires WellFormed(m)
    ensures m.effects != []
    ensures forall e :: e in m.effects ==> e.effectRef != "" && e.amount >= 1
  {
    forall e | e in m.effects ensures e.effectRef != "" && e.amount >= 1 {
      var r :| r in m.request.effects && Realizes(m, e, r);
      var i :| 0 <= i < |m.request.effects| && m.request.effects[i] == r;
      assert AcceptableEffect(m.request.effects[i]);
    }
  }

  /** A well-formed Mission over a sound attempt journal is planned unless the attempt of one of its effects was
      journalled under another Mission key; that is the only failure. */
  lemma PlanningFailsOnlyOnForeignAttempt(m: MissionRecord, attempts: AttemptStore.AttemptRows)
    requires WellFormed(m) && forall id :: id in attempts ==> attempts[id].record.Id() == id
    ensures PlanFor(m, attempts).Success? <==> forall e :: e in m.effects ==> !Foreign(m, attempts, e)
    ensures PlanFor(m, attempts).Failure? ==> PlanFor(m, attempts) == Failure(AttemptMissionMismatch)
  {
    var effects := Ordering.Sort(RecordRef, m.effects);
    EffectsAreAcceptable(m);
    Ordering.SortIsSorted(RecordRef, m.effects);
    forall i, j | 0 <= i < j < |m.effects| ensures RecordRef(m.effects[i]) != RecordRef(m.effects[j]) {
    }
    Ordering.DistinctKeysOfPermutation(RecordRef, m.effects, effects);
    forall i | 0 <= i < |effects| ensures effects[i] in m.effects {
      assert effects[i] in multiset(effects);
    }
    forall i, j | 0 <= i < j < |effects| ensures effects[i].effectRef != effects[j].effectRef {
      assert RecordRef(effects[i]) != RecordRef(effects[j]);
    }
    DecidedExactly(m, effects, attempts, {});
    forall e | e in m.effects ensures exists i :: 0 <= i < |effects| && effects[i] == e {
      assert e in multiset(effects);
    }
  }
}
