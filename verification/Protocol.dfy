/** The protocol as a step system.

    A run is the sequence of atomic actions that processes have performed: successful store writes,
    the reads a later write relies on, calls across the provider boundary and observations.  The
    stores are a function of the run (Replay), and a run is legal when each action was enabled where
    it stands.  Any number of processes interleave; a process that crashes simply acts no more, so
    every prefix of a legal run is the picture a restart finds. */
module Protocol {
  import opened Outcomes
  import opened MissionIdentity
  import opened Missions
  import opened Attempts
  import opened Authorizations
  import opened Evidence
  import opened Payments
  import MissionStore
  import AttemptStore

  type Pid = nat

  datatype Stores = Stores(
    missions: MissionStore.MissionRows,
    attempts: AttemptStore.AttemptRows,
    ledger: map<string, Authorization>,
    references: map<AttemptId, Reference>)

  datatype Action =
    // Mission store
    | AdmitMission(pid: Pid, record: MissionRecord)
    | MoveMission(pid: Pid, key: MissionKey, missionTarget: MissionState, at: int)
    | MoveEffect(pid: Pid, key: MissionKey, effectRef: string, effectTarget: EffectState, at: int)
    | SeeDispatchable(pid: Pid, key: MissionKey, effectRef: string)
    // attempt store
    | PrepareAttempt(pid: Pid, plan: Plan, at: int)
    | TakeAttempt(pid: Pid, id: AttemptId, at: int)
    | MoveAttempt(pid: Pid, id: AttemptId, attemptTarget: AttemptState, at: int)
    // the execution port seen from dispatch
    | CallPort(pid: Pid, id: AttemptId)
    | AnswerPort(pid: Pid, id: AttemptId, accepted: bool)
    // authorization ledger and the POSTs it guards
    | ClaimAuthorization(pid: Pid, row: Authorization, intent: Intent)
    | Post(pid: Pid, row: Authorization, intent: Intent)
    | AnswerPost(pid: Pid, row: Authorization, answer: Answer)
    | FinalizeAuthorization(pid: Pid, approval: string, authorizationTarget: AuthorizationState, at: int)
    // provider references and chain evidence
    | RecordReference(pid: Pid, reference: Reference)
    | Observe(pid: Pid, id: AttemptId, sender: string, minimum: int, observation: Observation)

  type Run = seq<Action>

  /** Open: any processes.  Ordered: every dispatch and verification goes through the sequential runner
      for one Mission. */
  datatype Config = Open | Ordered(mission: MissionKey, sequence: seq<string>)

  // ---- effect of an action on the stores ----

  function Apply(s: Stores, a: Action): Stores {
    match a
    case AdmitMission(_, record) =>
      s.(missions := s.missions[record.key := StoredMission(record, 1)])
    case MoveMission(_, key, target, at) =>
      if key !in s.missions then s else
        s.(missions := MissionStore.Written(s.missions, key,
             MissionStore.MoveMissionIn(s.missions, key, s.missions[key].revision, target, at)))
    case MoveEffect(_, key, effectRef, target, at) =>
      if key !in s.missions then s else
        s.(missions := MissionStore.Written(s.missions, key,
             MissionStore.MoveEffectIn(s.missions, key, effectRef, s.missions[key].revision, target, at)))
    case PrepareAttempt(_, plan, at) =>
      s.(attempts := AttemptStore.Written(s.attempts, plan.Id(),
           AttemptStore.CreateIn(s.attempts, InitialAttempt(plan, at))))
    case TakeAttempt(_, id, at) => s.(attempts := Moved(s.attempts, id, InFlight, at))
    case MoveAttempt(_, id, target, at) => s.(attempts := Moved(s.attempts, id, target, at))
    case ClaimAuthorization(_, row, _) => s.(ledger := s.ledger[row.approval := row])
    case FinalizeAuthorization(_, approval, target, at) =>
      var r := FinalizeIn(s.ledger, approval, target, at);
      if r.Success? then s.(ledger := s.ledger[approval := r.value]) else s
    case RecordReference(_, reference) => s.(references := s.references[reference.attemptId := reference])
    case SeeDispatchable(_, _, _) => s
    case CallPort(_, _) => s
    case AnswerPort(_, _, _) => s
    case Post(_, _, _) => s
    case AnswerPost(_, _, _) => s
    case Observe(_, _, _, _, _) => s
  }

  function Moved(rows: AttemptStore.AttemptRows, id: AttemptId, target: AttemptState, at: int)
    : AttemptStore.AttemptRows
  {
    if id !in rows then rows
    else AttemptStore.Written(rows, id, AttemptStore.MoveIn(rows, id, rows[id].revision, target, at))
  }

  function Replay(run: Run): Stores {
    if run == [] then Stores(map[], map[], map[], map[])
    else Apply(Replay(run[..|run| - 1]), run[|run| - 1])
  }

  // ---- what a process has done and seen ----

  function AttemptFor(key: MissionKey, effectRef: string): AttemptId {
    AttemptId(EffectId(key, effectRef))
  }

  predicate Witnessed(run: Run, pid: Pid, id: AttemptId, e: EffectRecord) {
    exists b :: b in run && b.Observe? && b.pid == pid && b.id == id && Confirms(e, b.sender, b.minimum, b.observation)
  }

  predicate Contradicted(run: Run, pid: Pid, id: AttemptId, e: EffectRecord) {
    exists b :: b in run && b.Observe? && b.pid == pid && b.id == id
      && b.observation.VerifiedTransfer? && !EconomicMatch(e, b.sender, b.observation.transfer)
  }

  predicate Took(run: Run, pid: Pid, id: AttemptId) {
    exists b :: b in run && b.TakeAttempt? && b.pid == pid && b.id == id
  }

  predicate SimulationSaid(run: Run, pid: Pid, approval: string, verdict: SimulationVerdict) {
    exists b :: b in run && b.AnswerPost? && b.pid == pid && b.row.approval == approval
      && b.row.phase == Simulation && ClassifySimulation(b.answer) == Some(verdict)
  }

  predicate ProviderSaid(run: Run, pid: Pid, id: AttemptId, verdict: ProviderVerdict) {
    exists b :: b in run && b.AnswerPost? && b.pid == pid && b.row.attemptId == id
      && b.row.phase == Broadcast && ClassifyBroadcast(b.answer) == Some(verdict)
  }

  predicate EffectInMission(s: Stores, id: AttemptId) {
    && id.effect.mission in s.missions
    && HasEffect(s.missions[id.effect.mission].record, id.effect.effectRef)
  }

  function EffectBehind(s: Stores, id: AttemptId): EffectRecord
    requires EffectInMission(s, id)
  {
    EffectOf(s.missions[id.effect.mission].record, id.effect.effectRef)
  }

  predicate ChainConfirmedIn(s: Stores, id: AttemptId) {
    EffectInMission(s, id) && EffectBehind(s, id).state == ChainConfirmed
  }

  predicate EligibleReceipt(s: Stores, row: Authorization, intent: Intent)
    requires ValidIntent(intent)
  {
    exists a :: a in s.ledger && a != row.approval
      && s.ledger[a].phase == Simulation && s.ledger[a].state == EligibleForBroadcastApproval
      && s.ledger[a].attemptId == row.attemptId && s.ledger[a].fingerprint == row.fingerprint
      && s.ledger[a].body == BodyFingerprint(SimulationBody(intent))
  }

  // ---- when an action may happen ----

  predicate MayMoveMission(s: Stores, a: Action)
    requires a.MoveMission?
  {
    && a.key in s.missions
    && TransitionMission(s.missions[a.key].record, a.missionTarget, a.at).Success?
  }

  /** An effect moves towards CHAIN_CONFIRMED on chain evidence, and up to SUBMITTED on an acknowledgement too.
      Putting it in doubt, failing or blocking it is open to anybody. */
  predicate EffectMoveWarranted(run: Run, pid: Pid, id: AttemptId, e: EffectRecord, target: EffectState) {
    || target in {EffectState.ExecutionUnknown, EffectState.FailedFinal, EffectState.Blocked}
    || (target != Planned && Witnessed(run, pid, id, e))
    || (target in {Reserved, Submitted} && AnswerPort(pid, id, true) in run)
  }

  predicate MayMoveEffect(s: Stores, run: Run, a: Action)
    requires a.MoveEffect?
  {
    && a.key in s.missions
    && var m := s.missions[a.key].record;
    && m.state !in {Received, Validated}
    && TransitionMissionEffect(m, a.effectRef, a.effectTarget, a.at).Success?
    && HasEffect(m, a.effectRef)
    && EffectMoveWarranted(run, a.pid, AttemptFor(a.key, a.effectRef), EffectOf(m, a.effectRef), a.effectTarget)
  }

  predicate AttemptMoveWarranted(s: Stores, run: Run, pid: Pid, id: AttemptId, target: AttemptState) {
    match target
    case ProviderAcknowledged => AnswerPort(pid, id, true) in run
    case FailedFinal => AnswerPort(pid, id, false) in run
    case ExecutionUnknown => true
    case Verified => ChainConfirmedIn(s, id) && Witnessed(run, pid, id, EffectBehind(s, id))
    case Blocked => EffectInMission(s, id) && Contradicted(run, pid, id, EffectBehind(s, id))
    case Prepared => false
    case InFlight => false
  }

  predicate MayMoveAttempt(s: Stores, run: Run, a: Action)
    requires a.MoveAttempt?
  {
    && a.id in s.attempts
    && TransitionAttempt(s.attempts[a.id].record, a.attemptTarget, a.at).Success?
    && AttemptMoveWarranted(s, run, a.pid, a.id, a.attemptTarget)
  }

  predicate MayClaim(s: Stores, run: Run, a: Action)
    requires a.ClaimAuthorization?
  {
    && ClaimIn(s.ledger, a.row).Success?
    && a.row.attemptId in s.attempts && ValidIntent(a.intent)
    && var plan := s.attempts[a.row.attemptId].record.plan;
    && CheckPlanIntent(plan, a.intent).Success? && a.row.fingerprint == plan.fingerprint
    && match a.row.phase
       case Simulation => a.row.body == BodyFingerprint(SimulationBody(a.intent))
       case Broadcast =>
         && a.row.body == BodyFingerprint(BroadcastBody(a.intent))
         && CallPort(a.pid, a.row.attemptId) in run
         && EligibleReceipt(s, a.row, a.intent)
  }

  predicate MayFinalize(s: Stores, run: Run, a: Action)
    requires a.FinalizeAuthorization?
  {
    && FinalizeIn(s.ledger, a.approval, a.authorizationTarget, a.at).Success?
    && var row := s.ledger[a.approval];
    && (row.phase == Simulation && a.authorizationTarget == EligibleForBroadcastApproval ==>
          SimulationSaid(run, a.pid, a.approval, Eligible))
    && (row.phase == Simulation && a.authorizationTarget == AuthorizationState.RejectedFinal ==>
          SimulationSaid(run, a.pid, a.approval, SimulationRejected))
  }

  predicate MayAnswerPort(s: Stores, run: Run, a: Action)
    requires a.AnswerPort?
  {
    && CallPort(a.pid, a.id) in run
    && (forall b :: b in run && b.AnswerPort? ==> b.pid != a.pid || b.id != a.id)
    && a.id in s.attempts
    && if a.accepted then
         && a.id in s.references
         && s.references[a.id].fingerprint == s.attempts[a.id].record.plan.fingerprint
         && s.references[a.id].namespace == s.attempts[a.id].record.plan.namespace
       else
         ProviderSaid(run, a.pid, a.id, ProviderRejected)
  }

  predicate MayRecordReference(s: Stores, run: Run, a: Action)
    requires a.RecordReference?
  {
    var r := a.reference;
    && r.attemptId !in s.references && CreateReferenceIn(s.references, r).Success?
    && r.attemptId in s.attempts
    && r.fingerprint == s.attempts[r.attemptId].record.plan.fingerprint
    && r.namespace == s.attempts[r.attemptId].record.plan.namespace
    && ProviderSaid(run, a.pid, r.attemptId, ProviderAccepted(r.reference))
  }

  predicate Enabled(cfg: Config, s: Stores, run: Run, a: Action) {
    && RunnerAllows(cfg, s, a)
    && match a
       case AdmitMission(_, record) =>
         record.key !in s.missions && WellFormed(record) && record.state == Received && AllPlanned(record)
       case MoveMission(_, _, _, _) => MayMoveMission(s, a)
       case MoveEffect(_, _, _, _, _) => MayMoveEffect(s, run, a)
       case SeeDispatchable(_, key, effectRef) =>
         && key in s.missions && s.missions[key].record.state == ReadyForExecution
         && EffectIs(s.missions[key].record, effectRef, Planned)
       case PrepareAttempt(_, plan, at) =>
         WellFormedPlan(plan) && plan.Id() !in s.attempts && AttemptStore.CreateIn(s.attempts, InitialAttempt(plan, at)).Success?
       case TakeAttempt(pid, id, at) =>
         && id in s.attempts && TransitionAttempt(s.attempts[id].record, InFlight, at).Success?
         && SeeDispatchable(pid, id.effect.mission, id.effect.effectRef) in run
         && s.attempts[id].record.plan.missionKey == id.effect.mission
       case MoveAttempt(_, _, _, _) => MayMoveAttempt(s, run, a)
       case CallPort(pid, id) => Took(run, pid, id) && CallPort(pid, id) !in run
       case AnswerPort(_, _, _) => MayAnswerPort(s, run, a)
       case ClaimAuthorization(_, _, _) => MayClaim(s, run, a)
       case Post(pid, row, intent) => ClaimAuthorization(pid, row, intent) in run && Post(pid, row, intent) !in run
       case AnswerPost(pid, row, _) =>
         && (exists b :: b in run && b.Post? && b.pid == pid && b.row == row)
         && (forall b :: b in run && b.AnswerPost? ==> b.pid != pid || b.row != row)
       case FinalizeAuthorization(_, _, _, _) => MayFinalize(s, run, a)
       case RecordReference(_, _) => MayRecordReference(s, run, a)
       case Observe(_, id, sender, minimum, observation) =>
         id in s.attempts && minimum >= 1 && IsLoweredHex(sender, 40) && WellFormedObservation(observation)
  }

  // ---- the sequential runner ----

  predicate EarlierConfirmed(s: Stores, cfg: Config, effectRef: string)
    requires cfg.Ordered?
  {
    exists k :: 0 <= k < |cfg.sequence| && cfg.sequence[k] == effectRef
      && forall i :: 0 <= i < k ==> ChainConfirmedIn(s, AttemptFor(cfg.mission, cfg.sequence[i]))
  }

  predicate RunnerAllows(cfg: Config, s: Stores, a: Action) {
    cfg.Open? ||
    match a
    case TakeAttempt(_, id, _) => id.effect.mission == cfg.mission && EarlierConfirmed(s, cfg, id.effect.effectRef)
    case ClaimAuthorization(_, row, intent) =>
      row.phase == Broadcast ==>
        EffectInMission(s, row.attemptId) && Carries(intent, EffectBehind(s, row.attemptId))
    case Observe(_, id, _, _, _) => id in s.references
    case _ => true
  }

  predicate Legal(cfg: Config, run: Run) {
    run == [] ||
    var before, a := run[..|run| - 1], run[|run| - 1];
    Legal(cfg, before) && Enabled(cfg, Replay(before), before, a)
  }

  // ---- prefixes ----

  lemma {:induction false} PrefixIsLegal(cfg: Config, run: Run, n: nat)
    requires Legal(cfg, run) && n <= |run|
    ensures Legal(cfg, run[..n])
  {
    if n < |run| {
      PrefixIsLegal(cfg, run[..|run| - 1], n);
      assert run[..|run| - 1][..n] == run[..n];
    } else {
      assert run[..n] == run;
    }
  }

  /** Each action of a legal run was enabled in the stores and history it found. */
  lemma ActionWasEnabled(cfg: Config, run: Run, n: nat)
    requires Legal(cfg, run) && n < |run|
    ensures Legal(cfg, run[..n]) && Enabled(cfg, Replay(run[..n]), run[..n], run[n])
    ensures Replay(run[..n + 1]) == Apply(Replay(run[..n]), run[n])
  {
    PrefixIsLegal(cfg, run, n);
    PrefixIsLegal(cfg, run, n + 1);
    var upTo := run[..n + 1];
    assert upTo[..|upTo| - 1] == run[..n] && upTo[|upTo| - 1] == run[n];
  }

  lemma StepExtends(cfg: Config, run: Run, a: Action)
    requires Legal(cfg, run) && Enabled(cfg, Replay(run), run, a)
    ensures Legal(cfg, run + [a]) && Replay(run + [a]) == Apply(Replay(run), a)
  {
    var more := run + [a];
    assert more[..|more| - 1] == run && more[|more| - 1] == a;
  }
}
