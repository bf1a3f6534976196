/** Dispatch of one effect: durable IN_FLIGHT first, then the port, then the outcome. */
module Dispatch {
  import opened Outcomes
  import opened Missions
  import opened Attempts
  import opened Authorizations
  import opened Payments
  import opened Protocol
  import opened ProtocolInvariants
  import opened Deployment
  import opened AuthorizedPosts
  import AttemptStore
  import ProtocolSafety

  // ---- the approved broadcast port ----

  datatype BroadcastAuthorization = BroadcastAuthorization(
    sheet: string, approval: string, attemptId: AttemptId, fingerprint: RequestFingerprint,
    body: BodyFingerprint, approvedAt: int, expiresAt: int)

  datatype BroadcastPort = BroadcastPort(intent: Intent, receipt: Receipt, authorization: BroadcastAuthorization)

  function CheckBroadcastPort(p: BroadcastPort): Result<()>
    requires ValidIntent(p.intent)
  {
    var (r, a) := (p.receipt, p.authorization);
    if r.verdict != Eligible then Failure(SimulationNotEligible)
    else if a.approval == r.approval then Failure(ApprovalReferenceReuse)
    else if a.sheet != r.sheet || a.attemptId != r.attemptId || a.fingerprint != r.fingerprint || a.body != r.body
    then Failure(BroadcastAuthorizationMismatch)
    else if a.approvedAt < r.simulatedAt then Failure(BroadcastApprovedBeforeSimulation)
    else if BodyFingerprint(SimulationBody(p.intent)) != r.body then Failure(SimulationBodyFingerprintMismatch)
    else Success(())
  }

  /** The port's receipt is the durable one and fits its intent and authorization. */
  predicate Backed(s: Stores, p: BroadcastPort) {
    && ValidIntent(p.intent) && CheckBroadcastPort(p).Success?
    && LoadReceipt(s.ledger, p.receipt.approval) == Success(p.receipt)
  }

  /** What stands behind a port: the ledger's eligible row of this very receipt, whose body is the simulated transfer
      of the intent, and a second approval on the same terms, given after the simulation. */
  lemma BackedExactly(s: Stores, p: BroadcastPort)
    requires ValidIntent(p.intent)
    ensures Backed(s, p) <==>
      var (r, a) := (p.receipt, p.authorization);
      && r.approval in s.ledger && s.ledger[r.approval].approval == r.approval && a.approval != r.approval
      && s.ledger[r.approval].phase == Phase.Simulation && s.ledger[r.approval].state == EligibleForBroadcastApproval
      && r.verdict == Eligible && r.simulatedAt == s.ledger[r.approval].updated && r.simulatedAt <= a.approvedAt
      && a.sheet == r.sheet == s.ledger[r.approval].sheet
      && a.attemptId == r.attemptId == s.ledger[r.approval].attemptId
      && a.fingerprint == r.fingerprint == s.ledger[r.approval].fingerprint
      && a.body == r.body == s.ledger[r.approval].body == BodyFingerprint(SimulationBody(p.intent))
  {
    hide SimulationBody, ValidIntent;
  }

  lemma BackingPersists(s: Stores, s': Stores, p: BroadcastPort)
    requires Backed(s, p) && StoresEvolve(s, s')
    ensures Backed(s', p)
  {
    assert AuthorizationEvolves(s.ledger[p.receipt.approval], s'.ledger[p.receipt.approval]);
  }

  lemma BackedReceiptIsEligible(s: Stores, p: BroadcastPort, row: Authorization)
    requires Backed(s, p) && row.approval == p.authorization.approval
    requires row.attemptId == p.receipt.attemptId && row.fingerprint == p.receipt.fingerprint
    ensures EligibleReceipt(s, row, p.intent)
  {
    var a := p.receipt.approval;
    assert a in s.ledger && s.ledger[a].state == EligibleForBroadcastApproval;
  }

  method OpenBroadcastPort(sys: System, pid: Pid, intent: Intent, receipt: Receipt, authorization: BroadcastAuthorization)
    returns (r: Result<BroadcastPort>)
    requires sys.Valid() && ValidIntent(intent)
    modifies sys, sys.missions, sys.attempts, sys.ledger, sys.references
    ensures sys.Valid() && ContinuedByOthers(pid, old(sys.log), sys.log)
    ensures StoresEvolve(old(sys.Now()), sys.Now()) && (sys.quiet ==> sys.log == old(sys.log))
    ensures r.Success? ==> r.value == BroadcastPort(intent, receipt, authorization) && Backed(sys.Now(), r.value)
    ensures receipt.verdict != Eligible ==> r == Failure(SimulationNotEligible)
    ensures sys.quiet ==>
      (r.Success? <==> Backed(old(sys.Now()), BroadcastPort(intent, receipt, authorization)))
  {
    var port := BroadcastPort(intent, receipt, authorization);
    var checked := CheckBroadcastPort(port);
    var fault := sys.Yield(pid);
    if checked.Failure? { return Failure(checked.code); }
    var row := sys.ledger.Get(receipt.approval, fault);
    if row.Failure? { return Failure(row.code); }
    if row.value.None? { return Failure(SimulationReceiptNotFound); }
    var durable := ReceiptFrom(row.value.value);
    if durable.Failure? { return Failure(durable.code); }
    if durable.value != receipt { return Failure(SimulationReceiptMismatch); }
    r := Success(port);
  }

  function BroadcastRow(p: BroadcastPort, attempt: Attempt): Authorization
    requires ValidIntent(p.intent)
  {
    Authorization(p.authorization.approval, Broadcast, p.authorization.sheet, attempt.Id(),
      attempt.plan.fingerprint, BodyFingerprint(BroadcastBody(p.intent)), Claimed,
      attempt.updated, attempt.updated)
  }

  lemma RowCarriesTerms(p: BroadcastPort, attempt: Attempt)
    requires ValidIntent(p.intent)
    ensures var row := BroadcastRow(p, attempt);
      && row.approval == p.authorization.approval && row.sheet == p.authorization.sheet
      && row.attemptId == attempt.Id() && row.claimed == attempt.updated
  {
    hide BroadcastBody;
  }

  predicate PortAccepts(p: BroadcastPort, attempt: Attempt) {
    && attempt.state == InFlight && CheckPlanIntent(attempt.plan, p.intent).Success?
    && attempt.Id() == p.receipt.attemptId && attempt.plan.fingerprint == p.receipt.fingerprint
    && p.authorization.approvedAt <= attempt.updated <= p.authorization.expiresAt
  }

  /** The attempt is in flight, it is the one that was simulated, its plan is for the port's intent, and it went in
      flight inside the approval window. */
  predicate InForce(p: BroadcastPort, attempt: Attempt) {
    && attempt.state == InFlight && attempt.plan.namespace == PROVIDER_NAMESPACE
    && attempt.plan.fingerprint == RequestFingerprint(attempt.plan.namespace, attempt.plan.requestKey, p.intent)
    && p.receipt.attemptId == attempt.Id() && p.receipt.fingerprint == attempt.plan.fingerprint
    && p.authorization.approvedAt <= attempt.updated && attempt.updated <= p.authorization.expiresAt
  }

  lemma AcceptedIsInForce(p: BroadcastPort, attempt: Attempt)
    ensures PortAccepts(p, attempt) <==> InForce(p, attempt)
  {
  }

  /** The verdict of an answer to a broadcast, spelled out. */
  ghost predicate VerdictIs(r: Option<ProviderVerdict>, answer: Answer) {
    && (r == Some(ProviderRejected) <==> TurnsDown(answer))
    && forall reference :: r == Some(ProviderAccepted(reference)) <==> TakesUp(answer, reference)
  }

  /** A finalised ledger row says what the answer said. */
  predicate RowSays(state: AuthorizationState, r: Option<ProviderVerdict>) {
    && (state == Accepted <==> r.Some? && r.value.ProviderAccepted?)
    && (state == AuthorizationState.RejectedFinal <==> r == Some(ProviderRejected))
    && (state == OutcomeUnknown <==> r.None?)
  }

  lemma SettledSays(answer: Answer)
    ensures VerdictIs(ClassifyBroadcast(answer), answer) && RowSays(SettledBroadcast(answer), ClassifyBroadcast(answer))
  {
    VerdictsAreExact(answer);
    hide TakesUp, TurnsDown;
  }

  /** What the port yields when nobody interferes. */
  function ProviderOutcome(ledger: map<string, Authorization>, p: BroadcastPort, attempt: Attempt, answer: Answer)
    : Option<ProviderVerdict>
    requires ValidIntent(p.intent)
  {
    if PortAccepts(p, attempt) && ClaimIn(ledger, BroadcastRow(p, attempt)).Success? then ClassifyBroadcast(answer)
    else None
  }

  /** The final ledger state an answer to a broadcast stands for. */
  function SettledBroadcast(answer: Answer): AuthorizationState {
    match ClassifyBroadcast(answer)
    case None => OutcomeUnknown
    case Some(ProviderAccepted(_)) => Accepted
    case Some(ProviderRejected) => AuthorizationState.RejectedFinal
  }

  /** Claim, POST once, classify, finalise.  None is an exception: the outcome is unknown.  Nothing is claimed or sent
      unless the approval is in force; a verdict is what the answer to the POST says. */
  method ExecuteBroadcast(sys: System, pid: Pid, port: BroadcastPort, attempt: Attempt, answer: Answer)
    returns (r: Option<ProviderVerdict>)
    requires sys.Valid() && Backed(sys.Now(), port)
    requires attempt.Id() in sys.attempts.rows && sys.attempts.rows[attempt.Id()].record.plan == attempt.plan
    requires CallPort(pid, attempt.Id()) in sys.log && NoPosts(sys.log, pid)
    requires IntentIsPlanned(sys.cfg, sys.Now(), attempt.Id(), port.intent)
    modifies sys, sys.missions, sys.attempts, sys.ledger, sys.references
    ensures sys.quiet ==>
      && sys.missions.rows == old(sys.missions.rows) && sys.attempts.rows == old(sys.attempts.rows)
      && sys.references.rows == old(sys.references.rows)
    ensures sys.quiet ==> r == ProviderOutcome(old(sys.ledger.rows), port, attempt, answer)
    ensures sys.quiet ==>
      var row := BroadcastRow(port, attempt);
      if InForce(port, attempt) && ClaimIn(old(sys.ledger.rows), row).Success? then
        && VerdictIs(r, answer) && Post(pid, row, port.intent) in sys.log && Asks(row.body.body, port.intent, false)
        && row.approval == port.authorization.approval && row.sheet == port.authorization.sheet
        && row.attemptId == attempt.Id() && row.claimed == attempt.updated
        && row.approval in sys.ledger.rows && RowSays(sys.ledger.rows[row.approval].state, r)
        && sys.ledger.rows[row.approval]
             == row.(state := sys.ledger.rows[row.approval].state, updated := attempt.updated)
      else r.None? && sys.log == old(sys.log)
    ensures !InForce(port, attempt) ==> r.None? && sys.log == old(sys.log)
    ensures sys.Valid() && old(sys.log) <= sys.log && StoresEvolve(old(sys.Now()), sys.Now())
    ensures OnlyPosts(pid, old(sys.log), sys.log)
    ensures r.Some? ==> ProviderSaid(sys.log, pid, attempt.Id(), r.value)
    ensures r.Some? ==> InForce(port, attempt) && VerdictIs(r, answer)
  {
    hide StoresEvolve, Legal, Replay, Licensed, ProviderSaid, PortAccepts, IntentIsPlanned;
    hide ClassifyBroadcast, SettledBroadcast, VerdictIs, RowSays, InForce, BroadcastBody, Asks;
    ghost var before := sys.log;
    RowCarriesTerms(port, attempt);
    AcceptedIsInForce(port, attempt);
    SettledSays(answer);
    BodyAsksForIntent(port.intent);
    hide BroadcastRow;
    sys.Evolved(before);
    if !PortAccepts(port, attempt) { return None; }
    var row := BroadcastRow(port, attempt);
    BroadcastIsLicensed(sys.cfg, sys.Now(), sys.log, pid, port, attempt);
    r := ClaimAndPost(sys, pid, row, port.intent, answer, attempt.updated);
    sys.Evolved(before);
  }

  method ClaimAndPost(sys: System, pid: Pid, row: Authorization, intent: Intent, answer: Answer, at: int)
    returns (r: Option<ProviderVerdict>)
    requires sys.Valid() && Licensed(sys.cfg, sys.Now(), sys.log, pid, row, intent) && NoPosts(sys.log, pid)
    requires row.phase == Broadcast && row.state == Claimed && row.updated == at
    modifies sys, sys.missions, sys.attempts, sys.ledger, sys.references
    ensures sys.quiet ==>
      && sys.missions.rows == old(sys.missions.rows) && sys.attempts.rows == old(sys.attempts.rows)
      && sys.references.rows == old(sys.references.rows)
    ensures sys.Valid() && old(sys.log) <= sys.log && OnlyPosts(pid, old(sys.log), sys.log)
    ensures r.Some? ==> ProviderSaid(sys.log, pid, row.attemptId, r.value) && ClassifyBroadcast(answer) == r
    ensures sys.quiet ==>
      if ClaimIn(old(sys.ledger.rows), row).Success? then
        && r == ClassifyBroadcast(answer)
        && Post(pid, row, intent) in sys.log && row.approval in sys.ledger.rows
        && sys.ledger.rows[row.approval] == row.(state := SettledBroadcast(answer), updated := at)
      else r.None? && sys.log == old(sys.log)
  {
    hide StoresEvolve, Legal, Replay, Licensed, ProviderSaid, ClassifyBroadcast, SettledBroadcast, ClaimIn;
    var claimed := ClaimOnce(sys, pid, row, intent);
    if claimed.Failure? { return None; }
    r := PostAndFinish(sys, pid, row, intent, answer, at);
  }

  method PostAndFinish(sys: System, pid: Pid, row: Authorization, intent: Intent, answer: Answer, at: int)
    returns (r: Option<ProviderVerdict>)
    requires sys.Valid() && ClaimAuthorization(pid, row, intent) in sys.log && NotYet(sys.log, pid)
    requires row.phase == Broadcast && row.approval in sys.ledger.rows
    requires sys.ledger.rows[row.approval].phase == Broadcast
    modifies sys, sys.missions, sys.attempts, sys.ledger, sys.references
    ensures sys.quiet ==>
      && sys.missions.rows == old(sys.missions.rows) && sys.attempts.rows == old(sys.attempts.rows)
      && sys.references.rows == old(sys.references.rows)
    ensures sys.Valid() && old(sys.log) <= sys.log && OnlyPosts(pid, old(sys.log), sys.log)
    ensures r == ClassifyBroadcast(answer) && Post(pid, row, intent) in sys.log
    ensures r.Some? ==> ProviderSaid(sys.log, pid, row.attemptId, r.value)
    ensures (sys.quiet && row.state == Claimed && row.updated == at && old(sys.ledger.rows)[row.approval] == row) ==>
      && row.approval in sys.ledger.rows
      && sys.ledger.rows[row.approval] == row.(state := SettledBroadcast(answer), updated := at)
  {
    hide Legal, Replay, StoresEvolve, ProviderSaid, ClassifyBroadcast, SettledBroadcast;
    PostOnce(sys, pid, row, intent, answer);
    r := FinishBroadcast(sys, pid, row, answer, at);
  }

  lemma BroadcastIsLicensed(cfg: Config, s: Stores, run: Run, pid: Pid, port: BroadcastPort, attempt: Attempt)
    requires Backed(s, port) && PortAccepts(port, attempt)
    requires attempt.Id() in s.attempts && s.attempts[attempt.Id()].record.plan == attempt.plan
    requires CallPort(pid, attempt.Id()) in run && IntentIsPlanned(cfg, s, attempt.Id(), port.intent)
    ensures Licensed(cfg, s, run, pid, BroadcastRow(port, attempt), port.intent)
    ensures var row := BroadcastRow(port, attempt);
      row.phase == Broadcast && row.attemptId == attempt.Id() && row.state == Claimed && row.updated == attempt.updated
  {
    BackedReceiptIsEligible(s, port, BroadcastRow(port, attempt));
  }

  method FinishBroadcast(sys: System, pid: Pid, row: Authorization, answer: Answer, at: int)
    returns (r: Option<ProviderVerdict>)
    requires sys.Valid() && AnswerPost(pid, row, answer) in sys.log && row.phase == Broadcast
    requires row.approval in sys.ledger.rows && sys.ledger.rows[row.approval].phase == Broadcast
    modifies sys, sys.missions, sys.attempts, sys.ledger, sys.references
    ensures sys.quiet ==>
      && sys.missions.rows == old(sys.missions.rows) && sys.attempts.rows == old(sys.attempts.rows)
      && sys.references.rows == old(sys.references.rows)
    ensures sys.Valid() && old(sys.log) <= sys.log && OnlyPosts(pid, old(sys.log), sys.log)
    ensures r == ClassifyBroadcast(answer)
    ensures r.Some? ==> ProviderSaid(sys.log, pid, row.attemptId, r.value)
    ensures (sys.quiet && row.state == Claimed && row.updated == at && old(sys.ledger.rows)[row.approval] == row) ==>
      && row.approval in sys.ledger.rows
      && sys.ledger.rows[row.approval] == row.(state := SettledBroadcast(answer), updated := at)
  {
    hide Legal, Replay, StoresEvolve;
    r := ClassifyBroadcast(answer);
    var _ := FinalizeBestEffort(sys, pid, row.approval, SettledBroadcast(answer), at);
    assert AnswerPost(pid, row, answer) in sys.log;
  }

  // ---- the reference-persisting port ----

  predicate OnlyPortWork(pid: Pid, before: Run, later: Run) {
    forall a :: a in later && a.pid == pid && a !in before ==>
      a.ClaimAuthorization? || a.Post? || a.AnswerPost? || a.FinalizeAuthorization? || a.RecordReference?
  }

  predicate HasReference(s: Stores, plan: Plan) {
    && plan.Id() in s.references
    && s.references[plan.Id()].fingerprint == plan.fingerprint
    && s.references[plan.Id()].namespace == plan.namespace
  }

  predicate KnowsPlan(s: Stores, plan: Plan) {
    plan.Id() in s.attempts && s.attempts[plan.Id()].record.plan == plan
  }

  lemma PlanStaysKnown(s: Stores, s': Stores, plan: Plan)
    requires StoresEvolve(s, s')
    ensures KnowsPlan(s, plan) ==> KnowsPlan(s', plan)
    ensures HasReference(s, plan) ==> HasReference(s', plan)
  {
    if KnowsPlan(s, plan) { assert AttemptEvolves(s.attempts[plan.Id()], s'.attempts[plan.Id()]); }
  }

  function NewReference(attempt: Attempt, reference: string): Reference {
    Reference(attempt.Id(), attempt.plan.namespace, attempt.plan.fingerprint, reference, attempt.updated)
  }

  method StoreReference(sys: System, pid: Pid, attempt: Attempt, reference: string) returns (done: bool)
    requires sys.Valid() && KnowsPlan(sys.Now(), attempt.plan)
    requires ProviderSaid(sys.log, pid, attempt.Id(), ProviderAccepted(reference))
    modifies sys, sys.missions, sys.attempts, sys.ledger, sys.references
    ensures sys.quiet ==> sys.missions.rows == old(sys.missions.rows) && sys.attempts.rows == old(sys.attempts.rows)
    ensures sys.Valid() && old(sys.log) <= sys.log && OnlyPortWork(pid, old(sys.log), sys.log)
    ensures done ==> HasReference(sys.Now(), attempt.plan)
    ensures done ==>
      && attempt.Id() in sys.references.rows && sys.references.rows[attempt.Id()] == NewReference(attempt, reference)
      && sys.references.rows[attempt.Id()].reference == reference
      && sys.references.rows[attempt.Id()].created == attempt.updated
    ensures sys.quiet ==>
      (done <==> CreateReferenceIn(old(sys.references.rows), NewReference(attempt, reference)).Success?)
  {
    hide StoresEvolve, ProviderSaid, Legal, Replay, Enabled, Apply, CreateReferenceIn, HasReference, KnowsPlan;
    ghost var before := sys.log;
    var fault := sys.Yield(pid);
    PlanStaysKnown(old(sys.Now()), sys.Now(), attempt.plan);
    VerdictStands(before, sys.log, pid, attempt.Id(), ProviderAccepted(reference));
    ghost var s := sys.Now();
    var known := attempt.Id() in sys.references.rows;
    var r := sys.references.Create(NewReference(attempt, reference), fault);
    done := r.Success?;
    if done {
      RecordingIsEnabled(sys.cfg, s, sys.log, pid, attempt, reference);
      if !known {
        sys.Commit(RecordReference(pid, NewReference(attempt, reference)));
      } else {
        assert sys.Now() == s;
      }
    }
  }

  /** What the provider said once, it said. */
  lemma VerdictStands(before: Run, later: Run, pid: Pid, id: AttemptId, verdict: ProviderVerdict)
    requires before <= later && ProviderSaid(before, pid, id, verdict)
    ensures ProviderSaid(later, pid, id, verdict)
  {
    var b :| b in before && b.AnswerPost? && b.pid == pid && b.row.attemptId == id
      && b.row.phase == Broadcast && ClassifyBroadcast(b.answer) == Some(verdict);
    assert b in later;
  }

  lemma RecordingIsEnabled(cfg: Config, s: Stores, run: Run, pid: Pid, attempt: Attempt, reference: string)
    requires KnowsPlan(s, attempt.plan) && ProviderSaid(run, pid, attempt.Id(), ProviderAccepted(reference))
    requires CreateReferenceIn(s.references, NewReference(attempt, reference)).Success?
    ensures var record := NewReference(attempt, reference);
      && HasReference(s.(references := s.references[attempt.Id() := record]), attempt.plan)
      && (if attempt.Id() in s.references then
            s.references[attempt.Id() := record] == s.references && HasReference(s, attempt.plan)
          else
            && Enabled(cfg, s, run, RecordReference(pid, record))
            && Apply(s, RecordReference(pid, record)) == s.(references := s.references[attempt.Id() := record]))
  {
    hide ProviderSaid;
    assert attempt.Id() !in s.references ==> MayRecordReference(s, run, RecordReference(pid, NewReference(attempt, reference)));
  }

  /** What the reference-persisting port yields when nobody interferes. */
  function PortOutcome(s: Stores, port: BroadcastPort, namespace: string, attempt: Attempt, answer: Answer): Option<bool>
    requires ValidIntent(port.intent)
  {
    if attempt.plan.namespace != namespace || attempt.Id() in s.references then None
    else
      match ProviderOutcome(s.ledger, port, attempt, answer)
      case None => None
      case Some(ProviderRejected) => Some(false)
      case Some(ProviderAccepted(reference)) =>
        if CreateReferenceIn(s.references, NewReference(attempt, reference)).Success? then Some(true) else None
  }

  /** Some(true) is ACCEPTED, Some(false) is REJECTED_FINAL, None is an exception. */
  method ExecuteWithReference(
    sys: System, pid: Pid, port: BroadcastPort, namespace: string, attempt: Attempt, answer: Answer)
    returns (r: Option<bool>)
    requires sys.Valid() && Backed(sys.Now(), port) && KnowsPlan(sys.Now(), attempt.plan)
    requires CallPort(pid, attempt.Id()) in sys.log && NoPosts(sys.log, pid)
    requires IntentIsPlanned(sys.cfg, sys.Now(), attempt.Id(), port.intent)
    modifies sys, sys.missions, sys.attempts, sys.ledger, sys.references
    ensures sys.quiet ==> sys.missions.rows == old(sys.missions.rows) && sys.attempts.rows == old(sys.attempts.rows)
    ensures sys.Valid() && old(sys.log) <= sys.log && OnlyPortWork(pid, old(sys.log), sys.log)
    ensures sys.quiet ==> r == PortOutcome(old(sys.Now()), port, namespace, attempt, answer)
    ensures r == Some(true) ==> HasReference(sys.Now(), attempt.plan)
    ensures r == Some(false) ==> ProviderSaid(sys.log, pid, attempt.Id(), ProviderRejected)
  {
    if attempt.plan.namespace != namespace { return None; }
    var fault := sys.Yield(pid);
    BackingPersists(old(sys.Now()), sys.Now(), port);
    PlanStaysKnown(old(sys.Now()), sys.Now(), attempt.plan);
    PlannedIntentPersists(sys.cfg, old(sys.Now()), sys.Now(), attempt.Id(), port.intent);
    hide Backed, StoresEvolve, IntentIsPlanned, Legal, Replay;
    hide ProviderSaid, HasReference, KnowsPlan, NoPosts, OnlyPortWork;
    hide ProviderOutcome, CreateReferenceIn;
    var existing := sys.references.Get(attempt.Id(), fault);
    if existing.Failure? || existing.value.Some? { return None; }
    r := ExecuteFirst(sys, pid, port, attempt, answer);
  }

  /** No reference is known yet: broadcast, and persist the provider's reference before acknowledging. */
  method ExecuteFirst(sys: System, pid: Pid, port: BroadcastPort, attempt: Attempt, answer: Answer)
    returns (r: Option<bool>)
    requires sys.Valid() && Backed(sys.Now(), port) && KnowsPlan(sys.Now(), attempt.plan)
    requires CallPort(pid, attempt.Id()) in sys.log && NoPosts(sys.log, pid)
    requires IntentIsPlanned(sys.cfg, sys.Now(), attempt.Id(), port.intent)
    modifies sys, sys.missions, sys.attempts, sys.ledger, sys.references
    ensures sys.quiet ==> sys.missions.rows == old(sys.missions.rows) && sys.attempts.rows == old(sys.attempts.rows)
    ensures sys.Valid() && old(sys.log) <= sys.log && OnlyPortWork(pid, old(sys.log), sys.log)
    ensures sys.quiet && attempt.Id() !in old(sys.references.rows) ==>
      r == PortOutcome(old(sys.Now()), port, attempt.plan.namespace, attempt, answer)
    ensures r == Some(true) ==> HasReference(sys.Now(), attempt.plan)
    ensures r == Some(false) ==> ProviderSaid(sys.log, pid, attempt.Id(), ProviderRejected)
  {
    hide Backed, StoresEvolve, IntentIsPlanned, Legal;
    hide Replay, ProviderSaid, ClassifyBroadcast, ProviderOutcome, CreateReferenceIn;
    hide HasReference, NoPosts;
    var verdict := ExecuteBroadcast(sys, pid, port, attempt, answer);
    PlanStaysKnown(old(sys.Now()), sys.Now(), attempt.plan);
    match verdict
    case None => return None;
    case Some(ProviderRejected) => return Some(false);
    case Some(ProviderAccepted(reference)) =>
      var stored := StoreReference(sys, pid, attempt, reference);
      r := if stored then Some(true) else None;
  }

  // ---- dispatch ----

  /** Exactly when dispatch reaches the port if nobody interferes. */
  predicate DispatchReaches(s: Stores, plan: Plan, at: int) {
    && Dispatchable(s, plan)
    && (plan.Id() in s.attempts ==>
          && s.attempts[plan.Id()].record.plan == plan
          && s.attempts[plan.Id()].record.state == Prepared
          && s.attempts[plan.Id()].record.updated <= at)
  }

  predicate Dispatchable(s: Stores, plan: Plan) {
    && plan.missionKey in s.missions
    && s.missions[plan.missionKey].record.state == ReadyForExecution
    && plan.effectId.mission == plan.missionKey
    && EffectIs(s.missions[plan.missionKey].record, plan.effectId.effectRef, Planned)
  }

  method SeeMission(sys: System, pid: Pid, plan: Plan) returns (r: Result<()>)
    requires sys.Valid()
    modifies sys, sys.missions, sys.attempts, sys.ledger, sys.references
    ensures sys.Valid() && old(sys.log) <= sys.log && StoresEvolve(old(sys.Now()), sys.Now())
    ensures forall a :: a in sys.log && a.pid == pid && a !in old(sys.log) ==> a.SeeDispatchable?
    ensures r.Success? ==>
      && plan.effectId.mission == plan.missionKey
      && SeeDispatchable(pid, plan.missionKey, plan.effectId.effectRef) in sys.log
    ensures r.Failure? ==>
      r.code in {DatabaseError, MissionNotFound, MissionNotReadyForExecution, EffectNotFound, EffectNotDispatchable}
    ensures sys.quiet ==> sys.Now() == old(sys.Now()) && (r.Success? <==> Dispatchable(old(sys.Now()), plan))
  {
    hide StoresEvolve, WellFormed, Legal, Replay, IndexOf, CompletionJustified, MissionRowsSound, Apply;
    ghost var before := sys.log;
    var fault := sys.Yield(pid);
    RowsHaveTheirKey(sys.cfg, sys.log, plan);
    var found := sys.missions.Get(plan.missionKey, fault);
    if found.Failure? { return Failure(found.code); }
    if found.value.None? { return Failure(MissionNotFound); }
    var m := found.value.value.record;
    if m.state != ReadyForExecution { return Failure(MissionNotReadyForExecution); }
    if plan.effectId.mission != m.key || !HasEffect(m, plan.effectId.effectRef) { return Failure(EffectNotFound); }
    if EffectOf(m, plan.effectId.effectRef).state != Planned { return Failure(EffectNotDispatchable); }
    SeeingChangesNothing(sys.Now(), pid, plan);
    sys.Commit(SeeDispatchable(pid, plan.missionKey, plan.effectId.effectRef));
    sys.Evolved(before);
    r := Success(());
  }

  lemma RowsHaveTheirKey(cfg: Config, run: Run, plan: Plan)
    requires Legal(cfg, run)
    ensures plan.missionKey in Replay(run).missions ==>
      Replay(run).missions[plan.missionKey].record.key == plan.missionKey
  {
    MissionRowsStaySound(cfg, run);
  }

  lemma SeeingChangesNothing(s: Stores, pid: Pid, plan: Plan)
    ensures Apply(s, SeeDispatchable(pid, plan.missionKey, plan.effectId.effectRef)) == s
  {
  }

  /** Create the attempt in PREPARED or find the one already journalled for this plan. */
  method PrepareOnce(sys: System, pid: Pid, plan: Plan, at: int) returns (r: Result<StoredAttempt>)
    requires sys.Valid() && WellFormedPlan(plan)
    modifies sys, sys.missions, sys.attempts, sys.ledger, sys.references
    ensures sys.Valid() && old(sys.log) <= sys.log && StoresEvolve(old(sys.Now()), sys.Now())
    ensures forall a :: a in sys.log && a.pid == pid && a !in old(sys.log) ==> a.PrepareAttempt?
    ensures r.Success? ==> KnowsPlan(sys.Now(), plan) && sys.attempts.rows[plan.Id()] == r.value
    ensures r.Failure? ==> r.code in {DatabaseError, ExecutionAttemptConflict}
    ensures sys.quiet ==>
      && sys.Now() == old(sys.Now()).(attempts := sys.attempts.rows)
      && (r.Success? <==> (plan.Id() in old(sys.attempts.rows) ==> KnowsPlan(old(sys.Now()), plan)))
      && (r.Success? ==> r.value == if plan.Id() in old(sys.attempts.rows) then old(sys.attempts.rows)[plan.Id()]
                                    else StoredAttempt(InitialAttempt(plan, at), 1))
  {
    hide StoresEvolve, Legal, Replay, Enabled, Apply, AttemptStore.CreateIn, AttemptRowsSound, WellFormedPlan;
    ghost var before := sys.log;
    var fault := sys.Yield(pid);
    AttemptRowsStaySound(sys.cfg, sys.log);
    ghost var s := sys.Now();
    PreparingDecides(sys.cfg, s, sys.log, pid, plan, at);
    var known := plan.Id() in sys.attempts.rows;
    r := sys.attempts.Create(InitialAttempt(plan, at), fault);
    if r.Success? {
      if !known {
        sys.Commit(PrepareAttempt(pid, plan, at));
      } else {
        assert sys.Now() == s;
      }
    }
    sys.Evolved(before);
  }

  lemma PreparingDecides(cfg: Config, s: Stores, run: Run, pid: Pid, plan: Plan, at: int)
    requires AttemptRowsSound(s) && WellFormedPlan(plan)
    ensures var r := AttemptStore.CreateIn(s.attempts, InitialAttempt(plan, at));
      if plan.Id() in s.attempts then
        && r == (if KnowsPlan(s, plan) then Success(s.attempts[plan.Id()]) else Failure(ExecutionAttemptConflict))
        && AttemptStore.Written(s.attempts, plan.Id(), r) == s.attempts
      else
        && r == Success(StoredAttempt(InitialAttempt(plan, at), 1))
        && Enabled(cfg, s, run, PrepareAttempt(pid, plan, at))
        && Apply(s, PrepareAttempt(pid, plan, at))
             == s.(attempts := s.attempts[plan.Id() := StoredAttempt(InitialAttempt(plan, at), 1)])
  {
  }

  method TakeOnce(sys: System, pid: Pid, current: StoredAttempt, at: int) returns (r: Result<StoredAttempt>)
    requires sys.Valid() && KnowsPlan(sys.Now(), current.record.plan)
    requires current.record.plan.missionKey == current.record.plan.effectId.mission
    requires SeeDispatchable(pid, current.record.plan.missionKey, current.record.plan.effectId.effectRef) in sys.log
    requires RunnerAllows(sys.cfg, sys.Now(), TakeAttempt(pid, current.record.Id(), at))
    requires AttemptEvolves(current, sys.attempts.rows[current.record.Id()])
    modifies sys, sys.missions, sys.attempts, sys.ledger, sys.references
    ensures sys.Valid() && old(sys.log) <= sys.log && StoresEvolve(old(sys.Now()), sys.Now())
    ensures forall a :: a in sys.log && a.pid == pid && a !in old(sys.log) ==> a.TakeAttempt?
    ensures r.Success? ==>
      && TakeAttempt(pid, current.record.Id(), at) in sys.log
      && KnowsPlan(sys.Now(), current.record.plan) && sys.attempts.rows[current.record.Id()] == r.value
      && r.value.record == current.record.(state := InFlight, updated := at)
    ensures r.Failure? ==> r.code !in {ExecutionOutcomeUnknown, ReconciliationRequired}
    ensures sys.quiet ==> sys.Now() == old(sys.Now()).(attempts := sys.attempts.rows)
    ensures (sys.quiet && current == old(sys.attempts.rows)[current.record.Id()] && current.record.state == Prepared) ==>
      (r.Success? <==> current.record.updated <= at)
  {
    ghost var before := sys.log;
    var id := current.record.Id();
    var fault := sys.Yield(pid);
    assert AttemptEvolves(old(sys.Now()).attempts[id], sys.Now().attempts[id]);
    PermitPersists(sys.cfg, old(sys.Now()), sys.Now(), TakeAttempt(pid, id, at));
    assert SeeDispatchable(pid, id.effect.mission, id.effect.effectRef) in sys.log;
    hide *;
    ghost var s := sys.Now();
    TakingIsEnabled(sys.cfg, s, sys.log, pid, current, at);
    r := sys.attempts.Transition(id, current.revision, InFlight, at, fault);
    if r.Success? {
      sys.Commit(TakeAttempt(pid, id, at));
    }
    sys.Evolved(before);
  }

  lemma TakingIsEnabled(cfg: Config, s: Stores, run: Run, pid: Pid, current: StoredAttempt, at: int)
    requires KnowsPlan(s, current.record.plan)
    requires AttemptEvolves(current, s.attempts[current.record.Id()])
    requires current.record.plan.missionKey == current.record.plan.effectId.mission
    requires SeeDispatchable(pid, current.record.plan.missionKey, current.record.plan.effectId.effectRef) in run
    requires RunnerAllows(cfg, s, TakeAttempt(pid, current.record.Id(), at))
    ensures var id := current.record.Id();
      var r := AttemptStore.MoveIn(s.attempts, id, current.revision, InFlight, at);
      && (r.Failure? ==> r.code in {StaleRevision, TimestampBeforeCurrent, AttemptTransitionNotAllowed})
      && (r.Success? ==>
            && s.attempts[id] == current && r.value.record == current.record.(state := InFlight, updated := at)
            && Enabled(cfg, s, run, TakeAttempt(pid, id, at))
            && Apply(s, TakeAttempt(pid, id, at)) == s.(attempts := AttemptStore.Written(s.attempts, id, r))
            && KnowsPlan(s.(attempts := AttemptStore.Written(s.attempts, id, r)), current.record.plan))
      && AttemptStore.Written(s.attempts, id, r) == (if r.Success? then s.attempts[id := r.value] else s.attempts)
      && ((current == s.attempts[id] && current.record.state == Prepared) ==>
            (r.Success? <==> current.record.updated <= at))
  {
    hide RunnerAllows;
  }

  lemma PermitPersists(cfg: Config, s: Stores, s': Stores, a: Action)
    requires a.TakeAttempt? && RunnerAllows(cfg, s, a) && StoresEvolve(s, s')
    ensures RunnerAllows(cfg, s', a)
  {
    if cfg.Ordered? {
      var k :| 0 <= k < |cfg.sequence| && cfg.sequence[k] == a.id.effect.effectRef
        && forall i :: 0 <= i < k ==> ChainConfirmedIn(s, AttemptFor(cfg.mission, cfg.sequence[i]));
      forall i | 0 <= i < k ensures ChainConfirmedIn(s', AttemptFor(cfg.mission, cfg.sequence[i])) {
        ProtocolSafety.ConfirmationPersists(s, s', AttemptFor(cfg.mission, cfg.sequence[i]));
      }
    }
  }

  /** One write of the attempt's outcome under the revision obtained when it was taken. */
  method RecordOutcome(sys: System, pid: Pid, inFlight: StoredAttempt, target: AttemptState, at: int)
    returns (r: Result<StoredAttempt>)
    requires sys.Valid() && KnowsPlan(sys.Now(), inFlight.record.plan)
    requires AttemptEvolves(inFlight, sys.attempts.rows[inFlight.record.Id()])
    requires target in {ProviderAcknowledged, AttemptState.FailedFinal, AttemptState.ExecutionUnknown}
    requires target == ProviderAcknowledged ==> AnswerPort(pid, inFlight.record.Id(), true) in sys.log
    requires target == AttemptState.FailedFinal ==> AnswerPort(pid, inFlight.record.Id(), false) in sys.log
    modifies sys, sys.missions, sys.attempts, sys.ledger, sys.references
    ensures sys.quiet ==> sys.missions.rows == old(sys.missions.rows)
    ensures sys.Valid() && old(sys.log) <= sys.log
    ensures forall a :: a in sys.log && a.pid == pid && a !in old(sys.log) ==> a.MoveAttempt?
    ensures KnowsPlan(sys.Now(), inFlight.record.plan)
    ensures AttemptEvolves(inFlight, sys.attempts.rows[inFlight.record.Id()])
    ensures r.Success? ==>
      && sys.attempts.rows[inFlight.record.Id()] == r.value && r.value.record.state == target
    ensures (sys.quiet && inFlight == old(sys.attempts.rows)[inFlight.record.Id()]
        && inFlight.record.state == InFlight && inFlight.record.updated <= at) ==> r.Success?
  {
    ghost var before := sys.log;
    var id := inFlight.record.Id();
    var fault := sys.Yield(pid);
    SinceThen(sys, before, inFlight);
    assert AnswerPort(pid, id, true) in before ==> AnswerPort(pid, id, true) in sys.log;
    assert AnswerPort(pid, id, false) in before ==> AnswerPort(pid, id, false) in sys.log;
    hide *;
    ghost var s := sys.Now();
    OutcomeIsWritable(s, inFlight, target, at);
    r := sys.attempts.Transition(id, inFlight.revision, target, at, fault);
    if r.Success? {
      OutcomeIsEnabled(sys.cfg, s, sys.log, pid, id, inFlight.revision, target, at);
      sys.Commit(MoveAttempt(pid, id, target, at));
      OutcomeIsWritten(s, inFlight, target, at);
    }
  }

  lemma OutcomeIsWritable(s: Stores, inFlight: StoredAttempt, target: AttemptState, at: int)
    requires target in {ProviderAcknowledged, AttemptState.FailedFinal, AttemptState.ExecutionUnknown}
    ensures var r := AttemptStore.MoveIn(s.attempts, inFlight.record.Id(), inFlight.revision, target, at);
      && (r.Failure? ==> AttemptStore.Written(s.attempts, inFlight.record.Id(), r) == s.attempts)
      && ((inFlight.record.Id() in s.attempts && inFlight == s.attempts[inFlight.record.Id()]
          && inFlight.record.state == InFlight && inFlight.record.updated <= at) ==> r.Success?)
  {
  }

  lemma OutcomeIsWritten(s: Stores, inFlight: StoredAttempt, target: AttemptState, at: int)
    requires KnowsPlan(s, inFlight.record.plan)
    requires AttemptEvolves(inFlight, s.attempts[inFlight.record.Id()])
    requires AttemptStore.MoveIn(s.attempts, inFlight.record.Id(), inFlight.revision, target, at).Success?
    ensures var next := AttemptStore.MoveIn(s.attempts, inFlight.record.Id(), inFlight.revision, target, at).value;
      var rows := AttemptStore.Written(s.attempts, inFlight.record.Id(), Success(next));
      && next.record.state == target && AttemptEvolves(inFlight, next)
      && KnowsPlan(s.(attempts := rows), inFlight.record.plan) && rows[inFlight.record.Id()] == next
  {
    TransitionsClimb(s.attempts[inFlight.record.Id()].record.state, target);
  }

  lemma OutcomeIsEnabled(
    cfg: Config, s: Stores, run: Run, pid: Pid, id: AttemptId, revision: nat, target: AttemptState, at: int)
    requires AttemptStore.MoveIn(s.attempts, id, revision, target, at).Success?
    requires target in {ProviderAcknowledged, AttemptState.FailedFinal, AttemptState.ExecutionUnknown}
    requires target == ProviderAcknowledged ==> AnswerPort(pid, id, true) in run
    requires target == AttemptState.FailedFinal ==> AnswerPort(pid, id, false) in run
    ensures Enabled(cfg, s, run, MoveAttempt(pid, id, target, at))
    ensures Apply(s, MoveAttempt(pid, id, target, at)) == s.(attempts :=
      AttemptStore.Written(s.attempts, id, AttemptStore.MoveIn(s.attempts, id, revision, target, at)))
  {
  }

  function OutcomeState(outcome: Option<bool>): AttemptState {
    match outcome
    case None => AttemptState.ExecutionUnknown
    case Some(accepted) => if accepted then ProviderAcknowledged else AttemptState.FailedFinal
  }

  /** row is durable for this plan, and is either acknowledged with its provider reference in place or failed on
      the provider's final rejection. */
  predicate HonestlyRecorded(s: Stores, run: Run, pid: Pid, plan: Plan, row: StoredAttempt) {
    && KnowsPlan(s, plan) && row == s.attempts[plan.Id()]
    && (|| (row.record.state == ProviderAcknowledged && HasReference(s, plan) && AnswerPort(pid, plan.Id(), true) in run)
        || (row.record.state == AttemptState.FailedFinal && ProviderSaid(run, pid, plan.Id(), ProviderRejected)))
  }

  /** The port call with IN_FLIGHT already durable, and whatever outcome can be recorded of it. */
  method CallAndRecord(
    sys: System, pid: Pid, port: BroadcastPort, namespace: string, inFlight: StoredAttempt, at: int, answer: Answer)
    returns (r: Result<StoredAttempt>)
    requires sys.Valid() && Backed(sys.Now(), port) && KnowsPlan(sys.Now(), inFlight.record.plan)
    requires inFlight == sys.attempts.rows[inFlight.record.Id()]
    requires inFlight.record.state == InFlight && inFlight.record.updated == at
    requires TakeAttempt(pid, inFlight.record.Id(), at) in sys.log && NoPosts(sys.log, pid)
    requires forall a :: a in sys.log && a.pid == pid ==> !a.CallPort? && !a.AnswerPort?
    requires IntentIsPlanned(sys.cfg, sys.Now(), inFlight.record.Id(), port.intent)
    modifies sys, sys.missions, sys.attempts, sys.ledger, sys.references
    ensures sys.quiet ==> sys.missions.rows == old(sys.missions.rows)
    ensures sys.Valid() && old(sys.log) <= sys.log
    ensures CallPort(pid, inFlight.record.Id()) in sys.log
    ensures KnowsPlan(sys.Now(), inFlight.record.plan)
    ensures sys.attempts.rows[inFlight.record.Id()].record.state != Prepared
    ensures r.Success? ==> HonestlyRecorded(sys.Now(), sys.log, pid, inFlight.record.plan, r.value)
    ensures r.Failure? ==> r.code == ExecutionOutcomeUnknown
    ensures sys.quiet ==>
      && (r.Success? <==> PortOutcome(old(sys.Now()), port, namespace, inFlight.record, answer).Some?)
      && sys.attempts.rows[inFlight.record.Id()].record.state
           == OutcomeState(PortOutcome(old(sys.Now()), port, namespace, inFlight.record, answer))
  {
    hide Legal, Replay, StoresEvolve, AttemptEvolves, ProviderSaid, HasReference, Backed, IntentIsPlanned, PortOutcome;
    hide NoPosts, OnlyPortWork, OutcomeState, KnowsPlan, HonestlyRecorded;
    EnterPort(sys, pid, port, inFlight, at);
    label called:
    var outcome := ExecuteWithReference(sys, pid, port, namespace, inFlight.record, answer);
    SinceThen(sys, old@called(sys.log), inFlight);
    PortWorkAnswersNothing(pid, old@called(sys.log), sys.log);
    r := Settle(sys, pid, inFlight, outcome, at);
  }

  lemma PortWorkAnswersNothing(pid: Pid, before: Run, later: Run)
    requires OnlyPortWork(pid, before, later) && forall a :: a in before && a.pid == pid ==> !a.AnswerPort?
    ensures forall a :: a in later && a.pid == pid ==> !a.AnswerPort?
  {
  }

  /** What the port's outcome makes of the attempt; whatever cannot be recorded is left unknown. */
  method Settle(sys: System, pid: Pid, inFlight: StoredAttempt, outcome: Option<bool>, at: int)
    returns (r: Result<StoredAttempt>)
    requires sys.Valid() && KnowsPlan(sys.Now(), inFlight.record.plan)
    requires AttemptEvolves(inFlight, sys.attempts.rows[inFlight.record.Id()])
    requires CallPort(pid, inFlight.record.Id()) in sys.log
    requires forall a :: a in sys.log && a.pid == pid ==> !a.AnswerPort?
    requires outcome == Some(true) ==> HasReference(sys.Now(), inFlight.record.plan)
    requires outcome == Some(false) ==> ProviderSaid(sys.log, pid, inFlight.record.Id(), ProviderRejected)
    requires inFlight.record.state == InFlight && inFlight.record.updated == at
    modifies sys, sys.missions, sys.attempts, sys.ledger, sys.references
    ensures sys.quiet ==> sys.missions.rows == old(sys.missions.rows)
    ensures sys.Valid() && old(sys.log) <= sys.log
    ensures KnowsPlan(sys.Now(), inFlight.record.plan)
    ensures sys.attempts.rows[inFlight.record.Id()].record.state != Prepared
    ensures r.Success? ==> HonestlyRecorded(sys.Now(), sys.log, pid, inFlight.record.plan, r.value)
    ensures r.Failure? ==> r.code == ExecutionOutcomeUnknown
    ensures sys.quiet && inFlight == old(sys.attempts.rows)[inFlight.record.Id()] ==>
      && (r.Success? <==> outcome.Some?)
      && sys.attempts.rows[inFlight.record.Id()].record.state == OutcomeState(outcome)
  {
    hide Legal, Replay, StoresEvolve, AttemptEvolves, ProviderSaid, HasReference;
    if outcome.Some? {
      r := Conclude(sys, pid, inFlight, outcome.value, at);
      if r.Success? { return; }
    }
    var _ := RecordOutcome(sys, pid, inFlight, AttemptState.ExecutionUnknown, at);
    NotPreparedAnyMore(sys.attempts.rows[inFlight.record.Id()], inFlight);
    r := Failure(ExecutionOutcomeUnknown);
  }

  lemma NotPreparedAnyMore(later: StoredAttempt, inFlight: StoredAttempt)
    requires AttemptEvolves(inFlight, later) && inFlight.record.state == InFlight
    ensures later.record.state != Prepared
  {
  }

  lemma SinceThen(sys: System, before: Run, inFlight: StoredAttempt)
    requires sys.Valid() && before <= sys.log && KnowsPlan(Replay(before), inFlight.record.plan)
    requires AttemptEvolves(inFlight, Replay(before).attempts[inFlight.record.Id()])
    ensures KnowsPlan(sys.Now(), inFlight.record.plan)
    ensures AttemptEvolves(inFlight, sys.attempts.rows[inFlight.record.Id()])
  {
    sys.Evolved(before);
    assert AttemptEvolves(Replay(before).attempts[inFlight.record.Id()], sys.Now().attempts[inFlight.record.Id()]);
  }

  method EnterPort(sys: System, pid: Pid, port: BroadcastPort, inFlight: StoredAttempt, at: int)
    requires sys.Valid() && Backed(sys.Now(), port) && KnowsPlan(sys.Now(), inFlight.record.plan)
    requires inFlight == sys.attempts.rows[inFlight.record.Id()]
    requires TakeAttempt(pid, inFlight.record.Id(), at) in sys.log && NoPosts(sys.log, pid)
    requires forall a :: a in sys.log && a.pid == pid ==> !a.CallPort? && !a.AnswerPort?
    requires IntentIsPlanned(sys.cfg, sys.Now(), inFlight.record.Id(), port.intent)
    modifies sys, sys.missions, sys.attempts, sys.ledger, sys.references
    ensures sys.Valid() && old(sys.log) <= sys.log
    ensures CallPort(pid, inFlight.record.Id()) in sys.log && NoPosts(sys.log, pid)
    ensures forall a :: a in sys.log && a.pid == pid ==> !a.AnswerPort?
    ensures Backed(sys.Now(), port) && KnowsPlan(sys.Now(), inFlight.record.plan)
    ensures IntentIsPlanned(sys.cfg, sys.Now(), inFlight.record.Id(), port.intent)
    ensures AttemptEvolves(inFlight, sys.attempts.rows[inFlight.record.Id()])
    ensures Replay(sys.log) == sys.Now()
    ensures sys.quiet ==> sys.Now() == old(sys.Now())
  {
    ghost var before := sys.log;
    var id := inFlight.record.Id();
    var _ := sys.Yield(pid);
    PortFactsPersist(sys.cfg, old(sys.Now()), sys.Now(), port, inFlight);
    NothingButTheCall(pid, id, at, before, sys.log);
    hide Backed, StoresEvolve, IntentIsPlanned, AttemptEvolves, Legal;
    hide Replay, Enabled, Apply, NoPosts, ContinuedByOthers;
    CallingIsEnabled(sys.cfg, sys.Now(), sys.log, pid, id, at);
    sys.Commit(CallPort(pid, id));
  }

  lemma NothingButTheCall(pid: Pid, id: AttemptId, at: int, before: Run, later: Run)
    requires ContinuedByOthers(pid, before, later) && NoPosts(before, pid) && TakeAttempt(pid, id, at) in before
    requires forall a :: a in before && a.pid == pid ==> !a.CallPort? && !a.AnswerPort?
    ensures TakeAttempt(pid, id, at) in later && CallPort(pid, id) !in later
    ensures NoPosts(later + [CallPort(pid, id)], pid)
    ensures forall a :: a in later + [CallPort(pid, id)] && a.pid == pid ==> !a.AnswerPort?
  {
  }

  lemma CallingIsEnabled(cfg: Config, s: Stores, run: Run, pid: Pid, id: AttemptId, at: int)
    requires TakeAttempt(pid, id, at) in run && CallPort(pid, id) !in run
    ensures Enabled(cfg, s, run, CallPort(pid, id)) && Apply(s, CallPort(pid, id)) == s
  {
  }

  lemma PortFactsPersist(cfg: Config, s: Stores, s': Stores, port: BroadcastPort, inFlight: StoredAttempt)
    requires StoresEvolve(s, s') && Backed(s, port) && KnowsPlan(s, inFlight.record.plan)
    requires inFlight == s.attempts[inFlight.record.Id()]
    requires IntentIsPlanned(cfg, s, inFlight.record.Id(), port.intent)
    ensures Backed(s', port) && KnowsPlan(s', inFlight.record.plan)
    ensures IntentIsPlanned(cfg, s', inFlight.record.Id(), port.intent)
    ensures AttemptEvolves(inFlight, s'.attempts[inFlight.record.Id()])
  {
    BackingPersists(s, s', port);
    PlanStaysKnown(s, s', inFlight.record.plan);
    PlannedIntentPersists(cfg, s, s', inFlight.record.Id(), port.intent);
  }

  /** The port has answered: remember the answer, then write the outcome it stands for. */
  method Conclude(sys: System, pid: Pid, inFlight: StoredAttempt, accepted: bool, at: int)
    returns (r: Result<StoredAttempt>)
    requires sys.Valid() && KnowsPlan(sys.Now(), inFlight.record.plan)
    requires AttemptEvolves(inFlight, sys.attempts.rows[inFlight.record.Id()])
    requires CallPort(pid, inFlight.record.Id()) in sys.log
    requires forall a :: a in sys.log && a.pid == pid ==> !a.AnswerPort?
    requires if accepted then HasReference(sys.Now(), inFlight.record.plan)
             else ProviderSaid(sys.log, pid, inFlight.record.Id(), ProviderRejected)
    modifies sys, sys.missions, sys.attempts, sys.ledger, sys.references
    ensures sys.quiet ==> sys.missions.rows == old(sys.missions.rows)
    ensures sys.Valid() && old(sys.log) <= sys.log
    ensures KnowsPlan(sys.Now(), inFlight.record.plan)
    ensures AttemptEvolves(inFlight, sys.attempts.rows[inFlight.record.Id()])
    ensures r.Success? ==>
      && r.value == sys.attempts.rows[inFlight.record.Id()]
      && r.value.record.state == if accepted then ProviderAcknowledged else AttemptState.FailedFinal
    ensures AnswerPort(pid, inFlight.record.Id(), accepted) in sys.log
    ensures if accepted then HasReference(sys.Now(), inFlight.record.plan)
            else ProviderSaid(sys.log, pid, inFlight.record.Id(), ProviderRejected)
    ensures (sys.quiet && inFlight == old(sys.attempts.rows)[inFlight.record.Id()]
        && inFlight.record.state == InFlight && inFlight.record.updated <= at) ==> r.Success?
  {
    var id := inFlight.record.Id();
    AnswerReached(sys, pid, inFlight, accepted);
    hide *;
    label answered:
    r := RecordOutcome(sys, pid, inFlight, if accepted then ProviderAcknowledged else AttemptState.FailedFinal, at);
    OutcomeFactsPersist(sys, old@answered(sys.log), pid, inFlight.record.plan);
  }

  lemma OutcomeFactsPersist(sys: System, before: Run, pid: Pid, plan: Plan)
    requires sys.Valid() && before <= sys.log
    ensures HasReference(Replay(before), plan) ==> HasReference(sys.Now(), plan)
    ensures ProviderSaid(before, pid, plan.Id(), ProviderRejected) ==> ProviderSaid(sys.log, pid, plan.Id(), ProviderRejected)
  {
    sys.Evolved(before);
    PlanStaysKnown(Replay(before), sys.Now(), plan);
    hide StoresEvolve, HasReference;
    if ProviderSaid(before, pid, plan.Id(), ProviderRejected) {
      VerdictStands(before, sys.log, pid, plan.Id(), ProviderRejected);
    }
  }

  method AnswerReached(sys: System, pid: Pid, inFlight: StoredAttempt, accepted: bool)
    requires sys.Valid() && KnowsPlan(sys.Now(), inFlight.record.plan)
    requires AttemptEvolves(inFlight, sys.attempts.rows[inFlight.record.Id()])
    requires CallPort(pid, inFlight.record.Id()) in sys.log
    requires forall a :: a in sys.log && a.pid == pid ==> !a.AnswerPort?
    requires if accepted then HasReference(sys.Now(), inFlight.record.plan)
             else ProviderSaid(sys.log, pid, inFlight.record.Id(), ProviderRejected)
    modifies sys, sys.missions, sys.attempts, sys.ledger, sys.references
    ensures sys.Valid() && old(sys.log) <= sys.log && Replay(sys.log) == sys.Now()
    ensures AnswerPort(pid, inFlight.record.Id(), accepted) in sys.log
    ensures KnowsPlan(sys.Now(), inFlight.record.plan)
    ensures AttemptEvolves(inFlight, sys.attempts.rows[inFlight.record.Id()])
    ensures if accepted then HasReference(sys.Now(), inFlight.record.plan)
            else ProviderSaid(sys.log, pid, inFlight.record.Id(), ProviderRejected)
    ensures sys.quiet ==> sys.missions.rows == old(sys.missions.rows) && sys.attempts.rows == old(sys.attempts.rows)
  {
    ghost var before := sys.log;
    var id := inFlight.record.Id();
    var _ := sys.Yield(pid);
    SinceThen(sys, before, inFlight);
    OutcomeFactsPersist(sys, before, pid, inFlight.record.plan);
    assert CallPort(pid, id) in sys.log;
    hide StoresEvolve, ProviderSaid, AttemptEvolves;
    assert MayAnswerPort(sys.Now(), sys.log, AnswerPort(pid, id, accepted));
    sys.Commit(AnswerPort(pid, id, accepted));
    hide Legal, Enabled;
    ghost var after := sys.log;
    if !accepted {
      assert ProviderSaid(after, pid, id, ProviderRejected) by { VerdictStands(before, after, pid, id, ProviderRejected); }
    }
  }

  // ---- the whole dispatch ----

  /** What a dispatching process has done before it calls the port. */
  predicate OnlyPreparing(run: Run, pid: Pid) {
    forall a :: a in run && a.pid == pid ==> a.SeeDispatchable? || a.PrepareAttempt? || a.TakeAttempt?
  }

  lemma NothingCalledYet(run: Run, pid: Pid)
    requires OnlyPreparing(run, pid)
    ensures NoPosts(run, pid) && forall a :: a in run && a.pid == pid ==> !a.CallPort? && !a.AnswerPort?
  {
  }

  /** The standing conditions of a dispatch: the port's receipt is durable and, in an ordered deployment, the
      runner has let this effect and amount through. */
  predicate Permitted(cfg: Config, s: Stores, pid: Pid, plan: Plan, port: BroadcastPort, at: int) {
    && Backed(s, port)
    && RunnerAllows(cfg, s, TakeAttempt(pid, plan.Id(), at))
    && IntentIsPlanned(cfg, s, plan.Id(), port.intent)
  }

  lemma PermissionPersists(cfg: Config, s: Stores, s': Stores, pid: Pid, plan: Plan, port: BroadcastPort, at: int)
    requires Permitted(cfg, s, pid, plan, port, at) && StoresEvolve(s, s')
    ensures Permitted(cfg, s', pid, plan, port, at)
  {
    BackingPersists(s, s', port);
    PermitPersists(cfg, s, s', TakeAttempt(pid, plan.Id(), at));
    PlannedIntentPersists(cfg, s, s', plan.Id(), port.intent);
  }

  /** Everything up to the durable IN_FLIGHT. */
  method BeginDispatch(sys: System, pid: Pid, plan: Plan, port: BroadcastPort, at: int)
    returns (r: Result<StoredAttempt>)
    requires sys.Valid() && sys.Fresh(pid) && Permitted(sys.cfg, sys.Now(), pid, plan, port, at)
    requires WellFormedPlan(plan)
    modifies sys, sys.missions, sys.attempts, sys.ledger, sys.references
    ensures sys.Valid() && old(sys.log) <= sys.log && OnlyPreparing(sys.log, pid)
    ensures Permitted(sys.cfg, sys.Now(), pid, plan, port, at)
    ensures r.Success? ==>
      && TakeAttempt(pid, plan.Id(), at) in sys.log
      && KnowsPlan(sys.Now(), plan) && sys.attempts.rows[plan.Id()] == r.value
      && r.value.record.plan == plan && r.value.record.state == InFlight && r.value.record.updated == at
    ensures r.Failure? ==> r.code != ExecutionOutcomeUnknown
    ensures sys.quiet ==> sys.missions.rows == old(sys.missions.rows)
    ensures sys.quiet ==>
      && sys.Now() == old(sys.Now()).(attempts := sys.attempts.rows)
      && (r.Success? <==> DispatchReaches(old(sys.Now()), plan, at))
      && (r.Success? ==> r.value.record == TakenRecord(old(sys.Now()), plan, at))
  {
    hide Backed, RunnerAllows, IntentIsPlanned, StoresEvolve, Legal, Replay;
    hide Dispatchable, KnowsPlan;
    var seen := SeeMission(sys, pid, plan);
    PermissionPersists(sys.cfg, old(sys.Now()), sys.Now(), pid, plan, port, at);
    if seen.Failure? { return Failure(seen.code); }
    label read:
    r := PrepareAndTake(sys, pid, plan, port, at);
  }

  function TakenRecord(s: Stores, plan: Plan, at: int): Attempt {
    (if plan.Id() in s.attempts then s.attempts[plan.Id()].record else InitialAttempt(plan, at))
      .(state := InFlight, updated := at)
  }

  predicate Takeable(s: Stores, plan: Plan, at: int) {
    plan.Id() in s.attempts ==>
      && s.attempts[plan.Id()].record.plan == plan
      && s.attempts[plan.Id()].record.state == Prepared
      && s.attempts[plan.Id()].record.updated <= at
  }

  method PrepareAndTake(sys: System, pid: Pid, plan: Plan, port: BroadcastPort, at: int)
    returns (r: Result<StoredAttempt>)
    requires sys.Valid() && OnlyPreparing(sys.log, pid) && Permitted(sys.cfg, sys.Now(), pid, plan, port, at)
    requires plan.effectId.mission == plan.missionKey && WellFormedPlan(plan)
    requires SeeDispatchable(pid, plan.missionKey, plan.effectId.effectRef) in sys.log
    modifies sys, sys.missions, sys.attempts, sys.ledger, sys.references
    ensures sys.Valid() && old(sys.log) <= sys.log && OnlyPreparing(sys.log, pid)
    ensures Permitted(sys.cfg, sys.Now(), pid, plan, port, at)
    ensures r.Success? ==>
      && TakeAttempt(pid, plan.Id(), at) in sys.log
      && KnowsPlan(sys.Now(), plan) && sys.attempts.rows[plan.Id()] == r.value
      && r.value.record.plan == plan && r.value.record.state == InFlight && r.value.record.updated == at
    ensures r.Failure? ==> r.code != ExecutionOutcomeUnknown
    ensures sys.quiet ==>
      && sys.Now() == old(sys.Now()).(attempts := sys.attempts.rows)
      && (r.Success? <==> Takeable(old(sys.Now()), plan, at))
      && (r.Success? ==> r.value.record == TakenRecord(old(sys.Now()), plan, at))
  {
    hide Backed, IntentIsPlanned, StoresEvolve, Legal, Replay;
    var prepared := PrepareOnce(sys, pid, plan, at);
    PermissionPersists(sys.cfg, old(sys.Now()), sys.Now(), pid, plan, port, at);
    if prepared.Failure? { return Failure(prepared.code); }
    var current := prepared.value;
    if current.record.state != Prepared { return Failure(ReconciliationRequired); }
    assert SeeDispatchable(pid, plan.missionKey, plan.effectId.effectRef) in sys.log;
    label prepared:
    r := TakeOnce(sys, pid, current, at);
    PermissionPersists(sys.cfg, old@prepared(sys.Now()), sys.Now(), pid, plan, port, at);
    if r == Failure(StaleRevision) { r := Failure(ReconciliationRequired); }
  }

  lemma PermissionParts(cfg: Config, s: Stores, pid: Pid, plan: Plan, port: BroadcastPort, at: int)
    requires Permitted(cfg, s, pid, plan, port, at)
    ensures Backed(s, port) && ValidIntent(port.intent) && IntentIsPlanned(cfg, s, plan.Id(), port.intent)
  {
  }

  lemma PlanNamesAttempt(plan: Plan, attempt: Attempt)
    requires attempt.plan == plan
    ensures attempt.Id() == plan.Id()
  {
  }

  lemma OutcomeIgnoresAttempts(
    s: Stores, rows: AttemptStore.AttemptRows, port: BroadcastPort, namespace: string, attempt: Attempt, answer: Answer)
    requires ValidIntent(port.intent)
    ensures PortOutcome(s.(attempts := rows), port, namespace, attempt, answer) == PortOutcome(s, port, namespace, attempt, answer)
  {
  }

  /** Dispatch one effect.  The port is entered exactly when the outcome is a stored attempt or
      EXECUTION_OUTCOME_UNKNOWN, and never while the durable attempt is still PREPARED; an acknowledged
      attempt has its provider reference, a failed one its final rejection.  With nobody else acting, the
      port is reached exactly when DispatchReaches, and the durable outcome is the port's. */
  method Dispatch(sys: System, pid: Pid, plan: Plan, port: BroadcastPort, namespace: string, at: int, answer: Answer)
    returns (r: Result<StoredAttempt>)
    requires sys.Valid() && sys.Fresh(pid) && Permitted(sys.cfg, sys.Now(), pid, plan, port, at)
    requires WellFormedPlan(plan)
    modifies sys, sys.missions, sys.attempts, sys.ledger, sys.references
    ensures sys.quiet ==> sys.missions.rows == old(sys.missions.rows)
    ensures sys.Valid() && old(sys.log) <= sys.log
    ensures CallPort(pid, plan.Id()) in sys.log <==> r.Success? || r.code == ExecutionOutcomeUnknown
    ensures CallPort(pid, plan.Id()) in sys.log ==>
      KnowsPlan(sys.Now(), plan) && sys.attempts.rows[plan.Id()].record.state != Prepared
    ensures r.Success? ==> HonestlyRecorded(sys.Now(), sys.log, pid, plan, r.value)
    ensures sys.quiet ==> (CallPort(pid, plan.Id()) in sys.log <==> DispatchReaches(old(sys.Now()), plan, at))
    ensures sys.quiet && DispatchReaches(old(sys.Now()), plan, at) ==>
      var outcome := PortOutcome(old(sys.Now()), port, namespace, TakenRecord(old(sys.Now()), plan, at), answer);
      (r.Success? <==> outcome.Some?) && sys.attempts.rows[plan.Id()].record.state == OutcomeState(outcome)
  {
    hide *;
    PermissionParts(sys.cfg, sys.Now(), pid, plan, port, at);
    var begun := BeginDispatch(sys, pid, plan, port, at);
    NothingCalledYet(sys.log, pid);
    if begun.Failure? { return Failure(begun.code); }
    PermissionParts(sys.cfg, sys.Now(), pid, plan, port, at);
    PlanNamesAttempt(plan, begun.value.record);
    OutcomeIgnoresAttempts(old(sys.Now()), sys.attempts.rows, port, namespace, begun.value.record, answer);
    r := CallAndRecord(sys, pid, port, namespace, begun.value, at, answer);
  }
}
