/** Transfer bodies, provider answers and the one-shot authorization ledger rows. */
module Authorizations {
  import opened Outcomes
  import opened Attempts
  import AmountPrinting

  const PROVIDER_NAMESPACE := "keeperhub.direct.v1"

  // ---- bodies ----

  datatype Body = Body(
    amount: string, chainId: int, recipient: string, token: string, gas: Option<string>, simulate: bool)

  datatype BodyFingerprint = BodyFingerprint(body: Body)

  predicate ValidIntent(i: Intent) {
    i.chainId in {84532, 11155111} && i.amount >= 1 && 0 <= i.decimals <= 36
  }

  function BroadcastBody(i: Intent): Body
    requires ValidIntent(i)
  {
    AmountPrinting.PrintingIsExact(i.amount, i.decimals);
    Body(AmountPrinting.Print(i.amount, i.decimals).value, i.chainId, i.recipient, i.token, i.gas, false)
  }

  function SimulationBody(i: Intent): Body
    requires ValidIntent(i)
  {
    BroadcastBody(i).(simulate := true)
  }

  /** The intent of a transfer must reproduce the fingerprint recorded in the durable plan. */
  function CheckPlanIntent(plan: Plan, i: Intent): Result<()> {
    if plan.namespace != PROVIDER_NAMESPACE then Failure(ProviderNamespaceMismatch)
    else if RequestFingerprint(plan.namespace, plan.requestKey, i) != plan.fingerprint
    then Failure(RequestFingerprintMismatch)
    else Success(())
  }

  // ---- provider answers ----

  datatype Flag = Yes | No | NotBoolean

  /** What a POST yields: an exception, or a response with the fields the classifiers read. */
  datatype Answer =
    | Raised
    | Answered(statusCode: int, success: Flag, wouldRevert: Flag, status: string, executionId: Option<string>)

  datatype SimulationVerdict = Eligible | SimulationRejected
  datatype ProviderVerdict = ProviderAccepted(reference: string) | ProviderRejected

  /** What trimming removes: the white space of Unicode. */
  predicate IsBlank(c: char) {
    var n := c as int;
    || 9 <= n <= 13 || 28 <= n <= 32 || n == 133 || n == 160 || n == 0x1680 || 0x2000 <= n <= 0x200A
    || n == 0x2028 || n == 0x2029 || n == 0x202F || n == 0x205F || n == 0x3000
  }

  predicate IsReferenceText(s: string) {
    && 0 < |s| <= 256 && !IsBlank(s[0]) && !IsBlank(s[|s| - 1])
    && forall i :: 0 <= i < |s| ==> s[i] >= 32 as char && s[i] != 127 as char
  }

  /** None: the outcome is unknown (the source raises). */
  function ClassifySimulation(a: Answer): Option<SimulationVerdict> {
    if a.Raised? then None
    else if a.statusCode in {401, 403, 422} then Some(SimulationRejected)
    else if a.statusCode == 400 then
      if a.success == No && a.status == "simulated" && a.wouldRevert == Yes then Some(SimulationRejected) else None
    else if a.statusCode != 200 then None
    else if a.success == NotBoolean || a.wouldRevert == NotBoolean then None
    else if a.success == No || a.wouldRevert == Yes then Some(SimulationRejected)
    else if a.status != "simulated" then None
    else Some(Eligible)
  }

  function ClassifyBroadcast(a: Answer): Option<ProviderVerdict> {
    if a.Raised? then None
    else if a.statusCode in {401, 403, 422} then Some(ProviderRejected)
    else if a.statusCode != 202 then None
    else if a.executionId.None? || !IsReferenceText(a.executionId.value) then None
    else if a.status !in {"pending", "running", "completed", "failed"} then None
    else Some(ProviderAccepted(a.executionId.value))
  }

  /** The provider simulated the transfer and says that it would go through. */
  predicate WouldPass(a: Answer) {
    a.Answered? && a.statusCode == 200 && a.success == Yes && a.wouldRevert == No && a.status == "simulated"
  }

  /** The provider refuses the request for good. */
  predicate TurnsDown(a: Answer) {
    a.Answered? && (a.statusCode == 401 || a.statusCode == 403 || a.statusCode == 422)
  }

  /** The provider refuses the request for good, or reports a simulation that failed or would revert. */
  predicate WouldFail(a: Answer) {
    || TurnsDown(a)
    || (a.Answered? && a.statusCode == 400 && a.success == No && a.wouldRevert == Yes && a.status == "simulated")
    || (a.Answered? && a.statusCode == 200 && (a.success, a.wouldRevert) in {(No, No), (No, Yes), (Yes, Yes)})
  }

  /** The provider has taken up the transfer under this execution reference. */
  predicate TakesUp(a: Answer, reference: string) {
    && a.Answered? && a.statusCode == 202 && a.executionId == Some(reference) && IsReferenceText(reference)
    && (a.status == "pending" || a.status == "running" || a.status == "completed" || a.status == "failed")
  }

  /** What each classification takes an answer for, and that everything else stays unknown. */
  lemma VerdictsAreExact(a: Answer)
    ensures ClassifySimulation(a) == Some(Eligible) <==> WouldPass(a)
    ensures ClassifySimulation(a) == Some(SimulationRejected) <==> WouldFail(a)
    ensures ClassifySimulation(a).None? <==> !WouldPass(a) && !WouldFail(a)
    ensures forall reference :: ClassifyBroadcast(a) == Some(ProviderAccepted(reference)) <==> TakesUp(a, reference)
    ensures ClassifyBroadcast(a) == Some(ProviderRejected) <==> TurnsDown(a)
    ensures ClassifyBroadcast(a).None? <==> !TurnsDown(a) && forall reference :: !TakesUp(a, reference)
  {
    if ClassifyBroadcast(a).Some? && ClassifyBroadcast(a).value.ProviderAccepted? {
      assert TakesUp(a, ClassifyBroadcast(a).value.reference);
    }
    hide IsReferenceText;
  }

  /** One answer cannot be taken for two things: what makes a transfer eligible never acknowledges a broadcast,
      what acknowledges a broadcast decides no simulation, and the statuses that reject a broadcast for good
      reject a simulation as well. */
  lemma AnswersAreNotConfused(a: Answer)
    ensures ClassifySimulation(a) == Some(Eligible) <==> WouldPass(a)
    ensures ClassifySimulation(a) == Some(SimulationRejected) <==> WouldFail(a)
    ensures WouldPass(a) ==> !WouldFail(a) && forall reference :: !TakesUp(a, reference)
    ensures ClassifySimulation(a) == Some(Eligible) ==> ClassifyBroadcast(a).None?
    ensures ClassifyBroadcast(a).Some? && ClassifyBroadcast(a).value.ProviderAccepted? ==>
      ClassifySimulation(a).None? && 0 < |ClassifyBroadcast(a).value.reference| <= 256
    ensures ClassifyBroadcast(a) == Some(ProviderRejected) ==> ClassifySimulation(a) == Some(SimulationRejected)
  {
  }

  // ---- the ledger ----

  datatype Phase = Simulation | Broadcast

  datatype AuthorizationState =
    | Claimed | EligibleForBroadcastApproval | RejectedFinal | OutcomeUnknown | Accepted

  datatype Authorization = Authorization(
    approval: string, phase: Phase, sheet: string, attemptId: AttemptId,
    fingerprint: RequestFingerprint, body: BodyFingerprint,
    state: AuthorizationState, claimed: int, updated: int)

  function FinalStates(phase: Phase): set<AuthorizationState> {
    match phase
    case Simulation => {EligibleForBroadcastApproval, RejectedFinal, OutcomeUnknown}
    case Broadcast => {Accepted, RejectedFinal, OutcomeUnknown}
  }

  predicate PhaseTaken(rows: map<string, Authorization>, phase: Phase, id: AttemptId) {
    exists a :: a in rows && rows[a].phase == phase && rows[a].attemptId == id
  }

  function ClaimIn(rows: map<string, Authorization>, row: Authorization): Result<Authorization> {
    if row.state != Claimed then Failure(ClaimStateRequired)
    else if row.approval in rows || PhaseTaken(rows, row.phase, row.attemptId)
    then Failure(AuthorizationAlreadyConsumed)
    else Success(row)
  }

  function FinalizeIn(rows: map<string, Authorization>, approval: string, target: AuthorizationState, at: int)
    : Result<Authorization>
  {
    if approval !in rows then Failure(AuthorizationNotFound)
    else if rows[approval].state != Claimed then Failure(AuthorizationAlreadyFinalized)
    else if target !in FinalStates(rows[approval].phase) then Failure(AuthorizationTransitionNotAllowed)
    else if at < rows[approval].updated then Failure(TimestampBeforeCurrent)
    else Success(rows[approval].(state := target, updated := at))
  }

  // ---- simulation receipts ----

  datatype Receipt = Receipt(
    sheet: string, approval: string, attemptId: AttemptId, fingerprint: RequestFingerprint,
    body: BodyFingerprint, verdict: SimulationVerdict, simulatedAt: int)

  function ReceiptFrom(row: Authorization): Result<Receipt> {
    if row.phase != Simulation then Failure(SimulationReceiptNotFound)
    else if row.state == EligibleForBroadcastApproval then
      Success(Receipt(row.sheet, row.approval, row.attemptId, row.fingerprint, row.body, Eligible, row.updated))
    else if row.state == RejectedFinal then
      Success(Receipt(row.sheet, row.approval, row.attemptId, row.fingerprint, row.body, SimulationRejected, row.updated))
    else Failure(SimulationReceiptNotFinal)
  }

  function LoadReceipt(rows: map<string, Authorization>, approval: string): Result<Receipt> {
    if approval !in rows then Failure(SimulationReceiptNotFound) else ReceiptFrom(rows[approval])
  }

  // ---- provider references ----

  datatype Reference = Reference(
    attemptId: AttemptId, namespace: string, fingerprint: RequestFingerprint, reference: string, created: int)

  function CreateReferenceIn(rows: map<AttemptId, Reference>, r: Reference): Result<Reference> {
    if r.attemptId in rows then
      if rows[r.attemptId] == r then Success(r) else Failure(ProviderReferenceConflict)
    else if exists id :: id in rows && rows[id].namespace == r.namespace && rows[id].reference == r.reference
    then Failure(ProviderReferenceConflict)
    else Success(r)
  }
}
