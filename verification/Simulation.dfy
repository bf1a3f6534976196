/** Simulation of one transfer: at most one durably claimed simulation POST per attempt, whose answer is
    turned into a durable receipt. */
module Simulation {
  import opened Outcomes
  import opened Attempts
  import opened Authorizations
  import opened Payments
  import opened Protocol
  import opened ProtocolInvariants
  import opened Deployment
  import opened AuthorizedPosts
  import Dispatch

  datatype SimulationAuthorization = SimulationAuthorization(
    sheet: string, approval: string, attemptId: AttemptId, fingerprint: RequestFingerprint,
    authorizedAt: int, expiresAt: int)

  function CheckSimulation(plan: Plan, intent: Intent, a: SimulationAuthorization, at: int): Result<()> {
    var fits := CheckPlanIntent(plan, intent);
    if fits.Failure? then Failure(fits.code)
    else if a.attemptId != plan.Id() || a.fingerprint != plan.fingerprint then Failure(SimulationAuthorizationMismatch)
    else if !(a.authorizedAt <= at <= a.expiresAt) then Failure(SimulationAuthorizationExpired)
    else Success(())
  }

  function SimulationRow(plan: Plan, intent: Intent, a: SimulationAuthorization, at: int): Authorization
    requires ValidIntent(intent)
  {
    Authorization(a.approval, Phase.Simulation, a.sheet, plan.Id(), plan.fingerprint,
      BodyFingerprint(SimulationBody(intent)), Claimed, at, at)
  }

  /** The final ledger state an answer stands for. */
  function SettledState(answer: Answer): AuthorizationState {
    match ClassifySimulation(answer)
    case None => OutcomeUnknown
    case Some(Eligible) => EligibleForBroadcastApproval
    case Some(SimulationRejected) => AuthorizationState.RejectedFinal
  }

  lemma SettlingIsExact(answer: Answer)
    ensures SettledState(answer) == EligibleForBroadcastApproval <==> WouldPass(answer)
    ensures SettledState(answer) == AuthorizationState.RejectedFinal <==> WouldFail(answer)
    ensures SettledState(answer) == OutcomeUnknown <==> !WouldPass(answer) && !WouldFail(answer)
  {
    VerdictsAreExact(answer);
    hide ClassifySimulation, WouldPass, WouldFail;
  }

  /** The receipt of a simulation that was answered with this verdict. */
  function ReceiptOf(row: Authorization, verdict: SimulationVerdict, at: int): Receipt {
    Receipt(row.sheet, row.approval, row.attemptId, row.fingerprint, row.body, verdict, at)
  }

  lemma AnsweredSimulation(run: Run, pid: Pid, row: Authorization, answer: Answer)
    requires AnswerPost(pid, row, answer) in run && row.phase == Phase.Simulation
    ensures SettledState(answer) == EligibleForBroadcastApproval ==> SimulationSaid(run, pid, row.approval, Eligible)
    ensures SettledState(answer) == AuthorizationState.RejectedFinal ==>
      SimulationSaid(run, pid, row.approval, SimulationRejected)
  {
  }

  lemma SettledRowIsReceipt(rows: map<string, Authorization>, row: Authorization, at: int, answer: Answer)
    requires row.phase == Phase.Simulation && row.approval in rows
    requires rows[row.approval] == row.(state := SettledState(answer), updated := at)
    ensures ClassifySimulation(answer).Some? ==>
      LoadReceipt(rows, row.approval) == Success(ReceiptOf(row, ClassifySimulation(answer).value, at))
  {
  }

  method LoadDurableReceipt(sys: System, pid: Pid, approval: string) returns (r: Result<Receipt>)
    requires sys.Valid()
    modifies sys, sys.missions, sys.attempts, sys.ledger, sys.references
    ensures sys.Valid() && ContinuedByOthers(pid, old(sys.log), sys.log) && StoresEvolve(old(sys.Now()), sys.Now())
    ensures r == LoadReceipt(sys.ledger.rows, approval) || r == Failure(DatabaseError)
    ensures sys.quiet ==> sys.log == old(sys.log) && sys.Now() == old(sys.Now()) && r == LoadReceipt(sys.ledger.rows, approval)
  {
    var fault := sys.Yield(pid);
    var found := sys.ledger.Get(approval, fault);
    if found.Failure? { return Failure(found.code); }
    if found.value.None? { return Failure(SimulationReceiptNotFound); }
    r := ReceiptFrom(found.value.value);
  }

  /** The answered POST becomes a receipt, or stays an unknown outcome. */
  method ConcludeSimulation(sys: System, pid: Pid, row: Authorization, answer: Answer, at: int)
    returns (r: Result<Receipt>)
    requires sys.Valid() && AnswerPost(pid, row, answer) in sys.log
    requires row.state == Claimed && row.phase == Phase.Simulation && row.updated == at
    requires row.approval in sys.ledger.rows && AuthorizationEvolves(row, sys.ledger.rows[row.approval])
    modifies sys, sys.missions, sys.attempts, sys.ledger, sys.references
    ensures sys.Valid() && old(sys.log) <= sys.log && OnlyPosts(pid, old(sys.log), sys.log)
    ensures r.Success? ==>
      && ClassifySimulation(answer).Some? && r.value == ReceiptOf(row, ClassifySimulation(answer).value, at)
      && LoadReceipt(sys.ledger.rows, row.approval) == Success(r.value)
    ensures r.Failure? ==> r.code in {SimulationOutcomeUnknown, SimulationReceiptPersistenceFailed, DatabaseError}
    ensures sys.quiet && old(sys.ledger.rows)[row.approval] == row ==>
      && (r.Success? <==> ClassifySimulation(answer).Some?)
      && row.approval in sys.ledger.rows
      && sys.ledger.rows[row.approval] == row.(state := SettledState(answer), updated := at)
  {
    AnsweredSimulation(sys.log, pid, row, answer);
    hide Legal, Replay, ClassifySimulation, StoresEvolve, SimulationSaid, ReceiptFrom;
    var done := FinalizeBestEffort(sys, pid, row.approval, SettledState(answer), at);
    if SettledState(answer) == OutcomeUnknown { return Failure(SimulationOutcomeUnknown); }
    if !done { return Failure(SimulationReceiptPersistenceFailed); }
    ghost var settled := sys.ledger.rows[row.approval];
    label settled:
    r := LoadDurableReceipt(sys, pid, row.approval);
    FinalRowStays(old@settled(sys.Now()), sys.Now(), row.approval);
    SettledRowIsReceipt(sys.ledger.rows, row, at, answer);
  }

  lemma FinalRowStays(s: Stores, s': Stores, approval: string)
    requires StoresEvolve(s, s') && approval in s.ledger && s.ledger[approval].state != Claimed
    ensures approval in s'.ledger && s'.ledger[approval] == s.ledger[approval]
  {
    assert AuthorizationEvolves(s.ledger[approval], s'.ledger[approval]);
  }

  /** Claim, POST once, conclude. */
  method SimulateOnce(sys: System, pid: Pid, row: Authorization, intent: Intent, answer: Answer, at: int)
    returns (r: Result<Receipt>)
    requires sys.Valid() && Licensed(sys.cfg, sys.Now(), sys.log, pid, row, intent) && NoPosts(sys.log, pid)
    requires row.phase == Phase.Simulation && row.state == Claimed && row.updated == at
    modifies sys, sys.missions, sys.attempts, sys.ledger, sys.references
    ensures sys.Valid() && old(sys.log) <= sys.log && OnlyPosts(pid, old(sys.log), sys.log)
    ensures r.Success? ==>
      && AnswerPost(pid, row, answer) in sys.log
      && ClassifySimulation(answer).Some? && r.value == ReceiptOf(row, ClassifySimulation(answer).value, at)
      && LoadReceipt(sys.ledger.rows, row.approval) == Success(r.value)
    ensures r == Failure(AuthorizationAlreadyConsumed) ==> ContinuedByOthers(pid, old(sys.log), sys.log)
    ensures sys.quiet ==>
      && (r.Success? <==> ClaimIn(old(sys.ledger.rows), row).Success? && ClassifySimulation(answer).Some?)
      && (if ClaimIn(old(sys.ledger.rows), row).Success? then
            && row.approval in sys.ledger.rows
            && sys.ledger.rows[row.approval] == row.(state := SettledState(answer), updated := at)
          else sys.log == old(sys.log))
  {
    hide Legal, Replay, Licensed, ClassifySimulation, SettledState, StoresEvolve, ClaimIn, LoadReceipt;
    var claimed := ClaimOnce(sys, pid, row, intent);
    if claimed.Failure? { return Failure(claimed.code); }
    PostOnce(sys, pid, row, intent, answer);
    assert AnswerPost(pid, row, answer) in sys.log;
    r := ConcludeSimulation(sys, pid, row, answer, at);
  }

  /** The authorization is for this plan, the plan is for this intent, and the time is inside the window. */
  predicate InForce(plan: Plan, intent: Intent, a: SimulationAuthorization, at: int) {
    && plan.namespace == PROVIDER_NAMESPACE
    && plan.fingerprint == RequestFingerprint(plan.namespace, plan.requestKey, intent)
    && a.attemptId == plan.Id() && a.fingerprint == plan.fingerprint
    && a.authorizedAt <= at && at <= a.expiresAt
  }

  lemma CheckedIsInForce(plan: Plan, intent: Intent, a: SimulationAuthorization, at: int)
    ensures CheckSimulation(plan, intent, a, at).Success? <==> InForce(plan, intent, a, at)
  {
  }

  /** Everything that must hold for the POST to leave, when nobody interferes. */
  predicate Simulable(s: Stores, plan: Plan, intent: Intent, a: SimulationAuthorization, at: int)
    requires ValidIntent(intent)
  {
    && InForce(plan, intent, a, at)
    && (plan.Id() in s.attempts ==>
          s.attempts[plan.Id()].record.plan == plan && s.attempts[plan.Id()].record.state == Prepared)
    && ClaimIn(s.ledger, SimulationRow(plan, intent, a, at)).Success?
  }

  /** Simulate one transfer.  A receipt is durable, carries exactly the authorized terms and the verdict of
      the answer to this process's only POST; when the authorization was already consumed or is not in force, nothing
      is sent.  With nobody else acting, a receipt results exactly when the attempt is still PREPARED under this plan,
      the authorization is in force, the claim is free and the answer is conclusive, and every claimed simulation ends
      in its final state, ELIGIBLE_FOR_BROADCAST_APPROVAL if and only if the answer says the transfer would go
      through. */
  method Simulate(
    sys: System, pid: Pid, plan: Plan, intent: Intent, authorization: SimulationAuthorization, at: int, answer: Answer)
    returns (r: Result<Receipt>)
    requires sys.Valid() && sys.Fresh(pid) && ValidIntent(intent) && WellFormedPlan(plan)
    modifies sys, sys.missions, sys.attempts, sys.ledger, sys.references
    ensures sys.Valid() && old(sys.log) <= sys.log
    ensures r.Success? ==>
      && InForce(plan, intent, authorization, at)
      && AnswerPost(pid, SimulationRow(plan, intent, authorization, at), answer) in sys.log
      && (r.value.verdict == Eligible <==> WouldPass(answer)) && (r.value.verdict == SimulationRejected <==> WouldFail(answer))
      && r.value == ReceiptOf(SimulationRow(plan, intent, authorization, at), r.value.verdict, at)
      && Asks(r.value.body.body, intent, true) && r.value.attemptId == plan.Id() && r.value.fingerprint == plan.fingerprint
      && r.value.sheet == authorization.sheet && r.value.approval == authorization.approval && r.value.simulatedAt == at
      && LoadReceipt(sys.ledger.rows, authorization.approval) == Success(r.value)
    ensures r == Failure(AuthorizationAlreadyConsumed) ==> NoPosts(sys.log, pid)
    ensures !InForce(plan, intent, authorization, at) ==> r.Failure? && sys.log == old(sys.log)
    ensures sys.quiet ==>
      && (r.Success? <==>
            Simulable(old(sys.Now()), plan, intent, authorization, at) && (WouldPass(answer) || WouldFail(answer)))
      && (if Simulable(old(sys.Now()), plan, intent, authorization, at) then
            && authorization.approval in sys.ledger.rows
            && var row := sys.ledger.rows[authorization.approval];
            && row == SimulationRow(plan, intent, authorization, at).(state := row.state, updated := at)
            && (row.state == EligibleForBroadcastApproval <==> WouldPass(answer))
            && (row.state == AuthorizationState.RejectedFinal <==> WouldFail(answer))
            && (row.state == OutcomeUnknown <==> !WouldPass(answer) && !WouldFail(answer))
          else NoPosts(sys.log, pid))
  {
    hide Legal, Replay, ClassifySimulation, SettledState, WouldPass, WouldFail, Asks;
    hide StoresEvolve, LoadReceipt, SimulationBody, ValidIntent, ClaimIn;
    CheckedIsInForce(plan, intent, authorization, at);
    SettlingIsExact(answer);
    VerdictsAreExact(answer);
    BodyAsksForIntent(intent);
    var checked := CheckSimulation(plan, intent, authorization, at);
    if checked.Failure? { return Failure(checked.code); }
    hide CheckSimulation, CheckPlanIntent, InForce;
    var prepared := Dispatch.PrepareOnce(sys, pid, plan, at);
    if prepared.Failure? { return Failure(prepared.code); }
    if prepared.value.record.state != Prepared { return Failure(ReconciliationRequired); }
    var row := SimulationRow(plan, intent, authorization, at);
    SimulationIsLicensed(sys.cfg, sys.Now(), sys.log, pid, plan, intent, authorization, at);
    hide Licensed;
    r := SimulateOnce(sys, pid, row, intent, answer, at);
  }

  lemma SimulationIsLicensed(
    cfg: Config, s: Stores, run: Run, pid: Pid, plan: Plan, intent: Intent, a: SimulationAuthorization, at: int)
    requires ValidIntent(intent) && CheckSimulation(plan, intent, a, at).Success? && Dispatch.KnowsPlan(s, plan)
    ensures Licensed(cfg, s, run, pid, SimulationRow(plan, intent, a, at), intent)
  {
  }
}
