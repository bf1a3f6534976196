/** Durable execution attempts: identity, state machine and the rank that bounds its revisions. */
module Attempts {
  import opened Outcomes
  import opened MissionIdentity

  datatype AttemptState =
    | Prepared | InFlight | ProviderAcknowledged | ExecutionUnknown | Verified | FailedFinal | Blocked

  /** The economic material a request fingerprint covers. */
  datatype Intent = Intent(
    chainId: int, recipient: string, amount: int, token: string, decimals: int, gas: Option<string>)

  datatype RequestFingerprint = RequestFingerprint(namespace: string, requestKey: string, material: Intent)

  /** One attempt per effect: the identifier is a digest of the effect identifier alone. */
  datatype AttemptId = AttemptId(effect: EffectId)

  datatype Plan = Plan(
    missionKey: MissionKey, effectId: EffectId, namespace: string, requestKey: string,
    fingerprint: RequestFingerprint)
  {
    function Id(): AttemptId { AttemptId(effectId) }
  }

  const LONGEST_NAME := 256

  /** What the plan's constructor demands of its two texts. */
  predicate WellFormedPlan(p: Plan) {
    0 < |p.namespace| <= LONGEST_NAME && 0 < |p.requestKey| <= LONGEST_NAME
  }

  datatype Attempt = Attempt(plan: Plan, state: AttemptState, created: int, updated: int) {
    function Id(): AttemptId { plan.Id() }
  }

  datatype StoredAttempt = StoredAttempt(record: Attempt, revision: nat)

  function AttemptTargets(s: AttemptState): set<AttemptState> {
    match s
    case Prepared => {InFlight, Verified, Blocked}
    case InFlight => {ProviderAcknowledged, ExecutionUnknown, FailedFinal, Verified, Blocked}
    case ProviderAcknowledged => {Verified, ExecutionUnknown, FailedFinal, Blocked}
    case ExecutionUnknown => {Verified, FailedFinal, Blocked}
    case Verified => {}
    case FailedFinal => {}
    case Blocked => {}
  }

  function InitialAttempt(plan: Plan, at: int): Attempt {
    Attempt(plan, Prepared, at, at)
  }

  function TransitionAttempt(a: Attempt, target: AttemptState, at: int): Result<Attempt> {
    if at < a.updated then Failure(TimestampBeforeCurrent)
    else if target !in AttemptTargets(a.state) then Failure(AttemptTransitionNotAllowed)
    else Success(a.(state := target, updated := at))
  }

  /** Height of a state in the acyclic attempt graph. */
  function Rank(s: AttemptState): nat {
    match s
    case Prepared => 0
    case InFlight => 1
    case ProviderAcknowledged => 2
    case ExecutionUnknown => 3
    case Verified => 4
    case FailedFinal => 4
    case Blocked => 4
  }

  /** The attempt table the other way round: where each state is entered from. */
  lemma AttemptStatesAreEnteredFrom(s: AttemptState)
    ensures Prepared !in AttemptTargets(s)
    ensures InFlight in AttemptTargets(s) <==> s == Prepared
    ensures ProviderAcknowledged in AttemptTargets(s) <==> s == InFlight
    ensures ExecutionUnknown in AttemptTargets(s) <==> s == InFlight || s == ProviderAcknowledged
    ensures FailedFinal in AttemptTargets(s) <==> s == InFlight || s == ProviderAcknowledged || s == ExecutionUnknown
    ensures Verified in AttemptTargets(s) <==> s != Verified && s != FailedFinal && s != Blocked
    ensures Blocked in AttemptTargets(s) <==> s != Verified && s != FailedFinal && s != Blocked
  {
  }

  /** Every permitted transition climbs, and only the three final states permit none. */
  lemma TransitionsClimb(s: AttemptState, t: AttemptState)
    ensures t in AttemptTargets(s) ==> Rank(s) < Rank(t)
    ensures AttemptTargets(s) == {} <==> s in {Verified, FailedFinal, Blocked}
  {
    assert s !in {Verified, FailedFinal, Blocked} ==> Verified in AttemptTargets(s);
  }
}
