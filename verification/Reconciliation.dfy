/** Reconciliation of one attempt from independent chain evidence, without ever resending an effect. */
module Reconciliation {
  import opened Outcomes
  import opened MissionIdentity
  import opened Missions
  import opened Attempts
  import opened Evidence
  import opened Protocol
  import opened ProtocolInvariants
  import opened Deployment
  import opened CasSteps
  import opened CasLoops
  import opened Projection

  datatype ReconciliationOutcome = OutcomeVerified | OutcomeUnresolved | OutcomeBlocked

  datatype Reconciled = Reconciled(outcome: ReconciliationOutcome, attempt: StoredAttempt, mission: StoredMission)

  // ---- reading ----

  predicate Locatable(s: Stores, id: AttemptId) {
    && id in s.attempts && s.attempts[id].record.plan.missionKey in s.missions
    && s.attempts[id].record.plan.missionKey == id.effect.mission
    && HasEffect(s.missions[id.effect.mission].record, id.effect.effectRef)
  }

  method Locate(sys: System, pid: Pid, id: AttemptId) returns (r: Result<(StoredAttempt, StoredMission)>)
    requires sys.Valid()
    modifies sys, sys.missions, sys.attempts, sys.ledger, sys.references
    ensures sys.Valid() && ContinuedByOthers(pid, old(sys.log), sys.log) && StoresEvolve(old(sys.Now()), sys.Now())
    ensures r.Success? ==>
      && r.value.0.record.Id() == id && AttemptSnapshot(sys.Now(), r.value.0)
      && r.value.1.record.key == id.effect.mission == r.value.0.record.plan.missionKey
      && MissionSnapshot(sys.Now(), r.value.1)
      && HasEffect(r.value.1.record, id.effect.effectRef)
      && (id.effect.mission in old(sys.missions.rows) ==>
            MissionEvolves(old(sys.missions.rows)[id.effect.mission], r.value.1))
    ensures r.Failure? ==> r.code in {DatabaseError, AttemptNotFound, MissionNotFound, EffectNotFound}
    ensures sys.quiet ==>
      && sys.log == old(sys.log) && sys.Now() == old(sys.Now())
      && (r.Success? <==> Locatable(old(sys.Now()), id))
      && (r.Success? ==> r.value == (old(sys.attempts.rows)[id], old(sys.missions.rows)[id.effect.mission]))
  {
    ghost var before := sys.log;
    var fault := sys.Yield(pid);
    SoundRows(sys.cfg, sys.log, id);
    hide Legal, Replay, StoresEvolve, MissionEvolves, AttemptEvolves;
    var attempt := sys.attempts.Get(id, fault);
    if attempt.Failure? { return Failure(attempt.code); }
    if attempt.value.None? { return Failure(AttemptNotFound); }
    var a := attempt.value.value;
    assert AttemptSnapshot(sys.Now(), a);
    ghost var mid := sys.log;
    fault := sys.Yield(pid);
    SoundMission(sys.cfg, sys.log, a.record.plan.missionKey);
    sys.Evolved(mid);
    sys.Evolved(before);
    SnapshotsPersist(Replay(mid), sys.Now());
    RowEvolves(old(sys.Now()), sys.Now(), id.effect.mission);
    var mission := sys.missions.Get(a.record.plan.missionKey, fault);
    if mission.Failure? { return Failure(mission.code); }
    if mission.value.None? { return Failure(MissionNotFound); }
    var m := mission.value.value;
    if a.record.plan.effectId.mission != m.record.key || !HasEffect(m.record, a.record.plan.effectId.effectRef) {
      return Failure(EffectNotFound);
    }
    r := Success((a, m));
  }

  lemma RowEvolves(s: Stores, s': Stores, key: MissionKey)
    requires StoresEvolve(s, s')
    ensures key in s.missions ==> key in s'.missions && MissionEvolves(s.missions[key], s'.missions[key])
  {
  }

  lemma SoundRows(cfg: Config, run: Run, id: AttemptId)
    requires Legal(cfg, run)
    ensures id in Replay(run).attempts ==>
      Replay(run).attempts[id].record.Id() == id && AttemptSnapshot(Replay(run), Replay(run).attempts[id])
  {
    AttemptRowsStaySound(cfg, run);
  }

  lemma SoundMission(cfg: Config, run: Run, key: MissionKey)
    requires Legal(cfg, run)
    ensures key in Replay(run).missions ==>
      Replay(run).missions[key].record.key == key && MissionSnapshot(Replay(run), Replay(run).missions[key])
  {
    MissionRowsStaySound(cfg, run);
    if key in Replay(run).missions { UnchangedMissionEvolves(Replay(run).missions[key]); }
  }

  // ---- the observation ----

  method RecordObservation(
    sys: System, pid: Pid, id: AttemptId, sender: string, minimum: int, observation: Observation)
    requires sys.Valid() && id in sys.attempts.rows && minimum >= 1
    requires IsLoweredHex(sender, 40) && WellFormedObservation(observation)
    requires sys.cfg.Ordered? ==> id in sys.references.rows
    modifies sys, sys.missions, sys.attempts, sys.ledger, sys.references
    ensures sys.Valid() && old(sys.log) <= sys.log && StoresEvolve(old(sys.Now()), sys.Now())
    ensures Observe(pid, id, sender, minimum, observation) in sys.log
    ensures forall a :: a in sys.log && a.pid == pid && a !in old(sys.log) ==> a.Observe?
    ensures sys.quiet ==>
      && sys.Now() == old(sys.Now())
      && sys.log == old(sys.log) + [Observe(pid, id, sender, minimum, observation)]
  {
    ghost var before := sys.log;
    var _ := sys.Yield(pid);
    assert id in sys.attempts.rows && (sys.cfg.Ordered? ==> id in sys.references.rows);
    hide Legal, Replay, StoresEvolve, IsLoweredHex, WellFormedObservation;
    sys.Commit(Observe(pid, id, sender, minimum, observation));
    sys.Evolved(before);
  }

  lemma SnapshotEffect(s: Stores, m: StoredMission, id: AttemptId)
    requires MissionSnapshot(s, m) && m.record.key == id.effect.mission && HasEffect(m.record, id.effect.effectRef)
    ensures EffectInMission(s, id)
    ensures SameEconomics(EffectOf(m.record, id.effect.effectRef), EffectBehind(s, id))
    ensures EffectIs(m.record, id.effect.effectRef, ChainConfirmed) ==> ChainConfirmedIn(s, id)
  {
    LookupEvolves(m, s.missions[id.effect.mission], id.effect.effectRef);
  }

  lemma ExactIsWitnessed(
    run: Run, pid: Pid, id: AttemptId, m: MissionRecord, sender: string, minimum: int, observation: Observation)
    requires Observe(pid, id, sender, minimum, observation) in run
    requires m.key == id.effect.mission && HasEffect(m, id.effect.effectRef)
    requires Confirms(EffectOf(m, id.effect.effectRef), sender, minimum, observation)
    ensures WitnessedEffect(run, pid, m, id.effect.effectRef)
  {
    assert AttemptFor(m.key, id.effect.effectRef) == id;
  }

  lemma MismatchWarrantsBlocking(
    s: Stores, run: Run, pid: Pid, id: AttemptId, m: StoredMission, sender: string, minimum: int, observation: Observation)
    requires Observe(pid, id, sender, minimum, observation) in run && observation.VerifiedTransfer?
    requires MissionSnapshot(s, m) && m.record.key == id.effect.mission && HasEffect(m.record, id.effect.effectRef)
    requires !EconomicMatch(EffectOf(m.record, id.effect.effectRef), sender, observation.transfer)
    ensures AttemptMoveWarranted(s, run, pid, id, AttemptState.Blocked)
  {
    SnapshotEffect(s, m, id);
    assert Contradicted(run, pid, id, EffectOf(m.record, id.effect.effectRef));
    WitnessStands(run, run, pid, id, EffectOf(m.record, id.effect.effectRef), EffectBehind(s, id));
  }

  lemma ConfirmedWarrantsVerifying(s: Stores, run: Run, pid: Pid, id: AttemptId, m: StoredMission)
    requires MissionSnapshot(s, m) && m.record.key == id.effect.mission
    requires EffectIs(m.record, id.effect.effectRef, ChainConfirmed)
    requires WitnessedEffect(run, pid, m.record, id.effect.effectRef)
    ensures AttemptMoveWarranted(s, run, pid, id, Verified)
  {
    SnapshotEffect(s, m, id);
    assert AttemptFor(m.record.key, id.effect.effectRef) == id;
    WitnessStands(run, run, pid, id, EffectOf(m.record, id.effect.effectRef), EffectBehind(s, id));
  }

  // ---- marking the attempt ----

  method MarkUnknown(sys: System, pid: Pid, attempt: StoredAttempt, at: int) returns (r: Result<StoredAttempt>)
    requires sys.Valid() && AttemptSnapshot(sys.Now(), attempt)
    modifies sys, sys.missions, sys.attempts, sys.ledger, sys.references
    ensures sys.Valid() && old(sys.log) <= sys.log && StoresEvolve(old(sys.Now()), sys.Now())
    ensures forall a :: a in sys.log && a.pid == pid && a !in old(sys.log) ==> a.MoveAttempt?
    ensures r.Success? ==> r.value.record.state !in {InFlight, ProviderAcknowledged}
    ensures r.Failure? ==> r.code in {DatabaseError, AttemptTransitionNotAllowed}
    ensures sys.quiet && attempt == old(sys.attempts.rows)[attempt.record.Id()] ==>
      && r.Success? && r.value.record.plan == attempt.record.plan
      && r.value.record.state == Doubted(attempt.record.state)
      && sys.Now() == old(sys.Now()).(attempts := old(sys.attempts.rows)[attempt.record.Id() := r.value])
  {
    hide Legal, Replay;
    if attempt.record.state !in {InFlight, ProviderAcknowledged} {
      sys.Evolved(sys.log);
      return Success(attempt);
    }
    hide StoresEvolve;
    r := DriveAttempt(sys, pid, attempt, AttemptState.ExecutionUnknown, at);
  }

  /** What an inconclusive observation makes of an attempt. */
  function Doubted(state: AttemptState): AttemptState {
    if state in {InFlight, ProviderAcknowledged} then AttemptState.ExecutionUnknown else state
  }

  function Refuted(state: AttemptState): AttemptState {
    if state in {Verified, AttemptState.FailedFinal} then state else AttemptState.Blocked
  }

  method BlockAttempt(sys: System, pid: Pid, attempt: StoredAttempt, at: int) returns (r: Result<StoredAttempt>)
    requires sys.Valid() && AttemptSnapshot(sys.Now(), attempt)
    requires AttemptMoveWarranted(sys.Now(), sys.log, pid, attempt.record.Id(), AttemptState.Blocked)
    modifies sys, sys.missions, sys.attempts, sys.ledger, sys.references
    ensures sys.Valid() && old(sys.log) <= sys.log && StoresEvolve(old(sys.Now()), sys.Now())
    ensures forall a :: a in sys.log && a.pid == pid && a !in old(sys.log) ==> a.MoveAttempt?
    ensures r.Success? ==> r.value.record.state == Refuted(attempt.record.state)
    ensures r.Failure? ==> r.code in {DatabaseError, AttemptTransitionNotAllowed}
    ensures sys.quiet && attempt == old(sys.attempts.rows)[attempt.record.Id()] ==>
      && r.Success? && r.value.record.plan == attempt.record.plan
      && sys.Now() == old(sys.Now()).(attempts := old(sys.attempts.rows)[attempt.record.Id() := r.value])
  {
    hide Legal, Replay, AttemptMoveWarranted;
    if attempt.record.state in {AttemptState.Blocked, Verified, AttemptState.FailedFinal} {
      sys.Evolved(sys.log);
      return Success(attempt);
    }
    hide StoresEvolve;
    r := DriveAttempt(sys, pid, attempt, AttemptState.Blocked, at);
  }

  /** What marking an attempt VERIFIED adds to the run. */
  function Marking(pid: Pid, a: Attempt, at: int): Run {
    if a.state == Verified then [] else [MoveAttempt(pid, a.Id(), Verified, Clamped(at, a.updated))]
  }

  method MarkVerified(sys: System, pid: Pid, attempt: StoredAttempt, at: int) returns (r: Result<StoredAttempt>)
    requires sys.Valid() && AttemptSnapshot(sys.Now(), attempt)
    requires AttemptMoveWarranted(sys.Now(), sys.log, pid, attempt.record.Id(), Verified)
    modifies sys, sys.missions, sys.attempts, sys.ledger, sys.references
    ensures sys.Valid() && old(sys.log) <= sys.log && StoresEvolve(old(sys.Now()), sys.Now())
    ensures forall a :: a in sys.log && a.pid == pid && a !in old(sys.log) ==> a.MoveAttempt?
    ensures r.Success? ==>
      && r.value.record.state == Verified && r.value.record.plan == attempt.record.plan
      && AttemptSnapshot(sys.Now(), r.value)
    ensures r.Failure? ==>
      r.code in {DatabaseError, AttemptTransitionNotAllowed}
      || (r.code == AttemptTerminalContradiction && attempt.record.state in {AttemptState.FailedFinal, AttemptState.Blocked})
    ensures sys.quiet && attempt == old(sys.attempts.rows)[attempt.record.Id()] ==>
      && (r.Success? <==> attempt.record.state !in {AttemptState.FailedFinal, AttemptState.Blocked})
      && (r.Success? ==> sys.Now() == old(sys.Now()).(attempts := old(sys.attempts.rows)[attempt.record.Id() := r.value]))
      && (r.Success? ==> sys.log == old(sys.log) + Marking(pid, attempt.record, at))
  {
    hide Legal, Replay, AttemptMoveWarranted;
    if attempt.record.state == Verified {
      sys.Evolved(sys.log);
      return Success(attempt);
    }
    if attempt.record.state in {AttemptState.FailedFinal, AttemptState.Blocked} {
      sys.Evolved(sys.log);
      return Failure(AttemptTerminalContradiction);
    }
    hide StoresEvolve;
    r := DriveAttempt(sys, pid, attempt, Verified, at);
  }

  // ---- the outcomes ----

  predicate OnlyReconciling(pid: Pid, before: Run, later: Run) {
    forall a :: a in later && a.pid == pid && a !in before ==>
      a.Observe? || a.MoveAttempt? || a.MoveMission? || a.MoveEffect?
  }

  /** What no reconciliation reports, however many processes contend. */
  const NEVER_REPORTED: set<Code> :=
    {AttemptCasExhausted, AttemptTerminalContradiction, TimestampBeforeCurrent, StaleRevision, UnclassifiedEffectState}

  /** Only the rows of this attempt and its Mission differ. */
  predicate OnlyThese(s: Stores, s': Stores, id: AttemptId) {
    && id in s.attempts && id in s'.attempts && id.effect.mission in s.missions && id.effect.mission in s'.missions
    && s' == s.(attempts := s.attempts[id := s'.attempts[id]],
                missions := s.missions[id.effect.mission := s'.missions[id.effect.mission]])
  }

  datatype Finding = Inconclusive | Mismatch | Exact

  function Weigh(e: EffectRecord, sender: string, minimum: int, observation: Observation): (f: Finding)
    requires minimum >= 1
    ensures f == Exact <==> Confirms(e, sender, minimum, observation)
    ensures f == Mismatch <==> observation.VerifiedTransfer? && !EconomicMatch(e, sender, observation.transfer)
  {
    if !observation.VerifiedTransfer? then Inconclusive
    else if !EconomicMatch(e, sender, observation.transfer) then Mismatch
    else if observation.transfer.confirmations < minimum then Inconclusive
    else Exact
  }

  /** What each reported outcome guarantees, however many processes contend. */
  predicate Honest(s: Stores, run: Run, pid: Pid, id: AttemptId, r: Reconciled) {
    match r.outcome
    case OutcomeVerified =>
      && id in s.attempts && s.attempts[id].record.state == Verified && ChainConfirmedIn(s, id)
      && Witnessed(run, pid, id, EffectBehind(s, id))
    case OutcomeUnresolved => r.attempt.record.state !in {InFlight, ProviderAcknowledged}
    case OutcomeBlocked =>
      && r.attempt.record.state in {AttemptState.Blocked, AttemptState.FailedFinal, Verified}
      && r.mission.record.state in {ManualReviewRequired, Completed}
  }

  /** Where exact evidence leads: the Mission can be reconciled and neither the attempt nor the effect is in a
      final state that contradicts the evidence. */
  predicate Recoverable(s: Stores, id: AttemptId)
    requires Locatable(s, id)
  {
    && Reconcilable(s.missions[id.effect.mission].record.state)
    && s.attempts[id].record.state !in {AttemptState.FailedFinal, AttemptState.Blocked}
    && !Stuck(s.missions[id.effect.mission].record, id.effect.effectRef)
  }

  /** The result of a reconciliation nobody disturbs, from s to s'. */
  predicate Undisturbed(s: Stores, s': Stores, id: AttemptId, finding: Finding, r: Result<Reconciled>)
    requires Locatable(s, id)
  {
    var (a, m) := (s.attempts[id].record, s.missions[id.effect.mission].record);
    && id in s'.attempts && id.effect.mission in s'.missions
    && var (a', m') := (s'.attempts[id].record, s'.missions[id.effect.mission].record);
    match finding
    case Inconclusive =>
      r.Success? && r.value.outcome == OutcomeUnresolved && a'.state == Doubted(a.state) && s'.missions == s.missions
    case Mismatch =>
      && OnlyThese(s, s', id) && a'.state == Refuted(a.state) && m'.effects == m.effects
      && (r.Success? <==> Reconcilable(m.state) || m.state == ManualReviewRequired)
      && (r.Success? ==>
            && r.value.outcome == OutcomeBlocked
            && m'.state == if m.state == Completed then Completed else ManualReviewRequired)
    case Exact =>
      && (r.Success? && r.value.outcome == OutcomeVerified <==> Recoverable(s, id))
      && (Recoverable(s, id) ==>
            OnlyThese(s, s', id) && a'.state == Verified && Projected(m, m', id.effect.effectRef))
      && (!Reconcilable(m.state) && a.state !in {AttemptState.FailedFinal, AttemptState.Blocked} ==>
            r == Failure(MissionNotReconcilable))
  }

  /** The transfer is not the intended one: block the attempt, then put the Mission up for review. */
  method Refute(sys: System, pid: Pid, attempt: StoredAttempt, mission: StoredMission, at: int)
    returns (r: Result<Reconciled>)
    requires sys.Valid() && AttemptSnapshot(sys.Now(), attempt) && MissionSnapshot(sys.Now(), mission)
    requires AttemptMoveWarranted(sys.Now(), sys.log, pid, attempt.record.Id(), AttemptState.Blocked)
    modifies sys, sys.missions, sys.attempts, sys.ledger, sys.references
    ensures sys.Valid() && old(sys.log) <= sys.log && OnlyReconciling(pid, old(sys.log), sys.log)
    ensures r.Success? ==>
      && r.value.outcome == OutcomeBlocked && r.value.attempt.record.state == Refuted(attempt.record.state)
      && r.value.mission.record.state in {ManualReviewRequired, Completed}
    ensures r.Failure? ==> r.code !in NEVER_REPORTED
    ensures (sys.quiet && attempt == old(sys.attempts.rows)[attempt.record.Id()]
        && mission == old(sys.missions.rows)[mission.record.key]) ==>
      && (r.Success? <==> Reconcilable(mission.record.state) || mission.record.state == ManualReviewRequired)
      && mission.record.key in sys.missions.rows && attempt.record.Id() in sys.attempts.rows
      && sys.attempts.rows[attempt.record.Id()].record.state == Refuted(attempt.record.state)
      && sys.Now() == old(sys.Now()).(
           attempts := old(sys.attempts.rows)[attempt.record.Id() := sys.attempts.rows[attempt.record.Id()]],
           missions := old(sys.missions.rows)[mission.record.key := sys.missions.rows[mission.record.key]])
      && sys.missions.rows[mission.record.key].record.effects == mission.record.effects
      && (r.Success? ==>
            sys.missions.rows[mission.record.key].record.state
              == if mission.record.state == Completed then Completed else ManualReviewRequired)
  {
    hide Legal, Replay, AttemptMoveWarranted, MissionEvolves, AttemptEvolves, StoresEvolve, Reconcilable;
    label start:
    var blocked := BlockAttempt(sys, pid, attempt, at);
    SnapshotsPersist(old@start(sys.Now()), sys.Now());
    if blocked.Failure? { return Failure(blocked.code); }
    var reviewed := MarkManualReview(sys, pid, mission, at);
    if reviewed.Failure? { return Failure(reviewed.code); }
    r := Success(Reconciled(OutcomeBlocked, blocked.value, reviewed.value));
  }

  /** Every write of an undisturbed recovery on exact evidence: the projection and then the attempt's mark. */
  function Recovery(pid: Pid, a: Attempt, m: MissionRecord, effectRef: string, at: int): Run
    requires HasEffect(m, effectRef)
  {
    ProjectionSteps(pid, m, effectRef, at) + Marking(pid, a, at)
  }

  /** The transfer is the intended one: first the Mission, then the attempt. */
  method Confirm(
    sys: System, pid: Pid, id: AttemptId, attempt: StoredAttempt, mission: StoredMission, at: int)
    returns (r: Result<Reconciled>)
    requires sys.Valid() && AttemptSnapshot(sys.Now(), attempt) && MissionSnapshot(sys.Now(), mission)
    requires attempt.record.Id() == id && mission.record.key == id.effect.mission
    requires attempt.record.state !in {AttemptState.FailedFinal, AttemptState.Blocked}
    requires WitnessedEffect(sys.log, pid, mission.record, id.effect.effectRef)
    modifies sys, sys.missions, sys.attempts, sys.ledger, sys.references
    ensures sys.Valid() && old(sys.log) <= sys.log && OnlyReconciling(pid, old(sys.log), sys.log)
    ensures r.Success? ==>
      && r.value.outcome == OutcomeVerified
      && id in sys.attempts.rows && sys.attempts.rows[id].record.state == Verified && ChainConfirmedIn(sys.Now(), id)
      && Witnessed(sys.log, pid, id, EffectBehind(sys.Now(), id))
    ensures r.Failure? ==> r.code !in NEVER_REPORTED
    ensures !Reconcilable(mission.record.state) ==> r == Failure(MissionNotReconcilable)
    ensures (sys.quiet && attempt == old(sys.attempts.rows)[id]
        && mission == old(sys.missions.rows)[id.effect.mission]) ==>
      && (r.Success? <==> Reconcilable(mission.record.state) && !Stuck(mission.record, id.effect.effectRef))
      && (r.Success? ==>
            && sys.log == old(sys.log) + Recovery(pid, attempt.record, mission.record, id.effect.effectRef, at)
            && OnlyThese(old(sys.Now()), sys.Now(), id)
            && Projected(mission.record, sys.missions.rows[id.effect.mission].record, id.effect.effectRef))
  {
    hide Legal, Replay, MissionEvolves, AttemptEvolves, StoresEvolve, Witnessed, Projected, Reconcilable, Stuck;
    hide ProjectionSteps, Marking;
    ghost var before := sys.log;
    label start:
    var projected := ProjectConfirmedEffect(sys, pid, mission, id.effect.effectRef, at);
    SnapshotsPersist(old@start(sys.Now()), sys.Now());
    if projected.Failure? { return Failure(projected.code); }
    KeyStays(mission, projected.value);
    WitnessFollows(before, sys.log, pid, mission, projected.value, id.effect.effectRef);
    ConfirmedWarrantsVerifying(sys.Now(), sys.log, pid, id, projected.value);
    var verified := FinishVerified(sys, pid, attempt, at);
    if verified.Failure? { return Failure(verified.code); }
    r := Success(Reconciled(OutcomeVerified, verified.value, projected.value));
  }

  method FinishVerified(sys: System, pid: Pid, attempt: StoredAttempt, at: int) returns (r: Result<StoredAttempt>)
    requires sys.Valid() && AttemptSnapshot(sys.Now(), attempt)
    requires attempt.record.state !in {AttemptState.FailedFinal, AttemptState.Blocked}
    requires AttemptMoveWarranted(sys.Now(), sys.log, pid, attempt.record.Id(), Verified)
    modifies sys, sys.missions, sys.attempts, sys.ledger, sys.references
    ensures sys.Valid() && old(sys.log) <= sys.log
    ensures forall a :: a in sys.log && a.pid == pid && a !in old(sys.log) ==> a.MoveAttempt?
    ensures r.Success? ==>
      && r.value.record.state == Verified
      && attempt.record.Id() in sys.attempts.rows && sys.attempts.rows[attempt.record.Id()] == r.value
      && ChainConfirmedIn(sys.Now(), attempt.record.Id())
      && Witnessed(sys.log, pid, attempt.record.Id(), EffectBehind(sys.Now(), attempt.record.Id()))
    ensures r.Failure? ==> r.code in {DatabaseError, AttemptTransitionNotAllowed}
    ensures sys.quiet && attempt == old(sys.attempts.rows)[attempt.record.Id()] ==>
      && r.Success? && sys.Now() == old(sys.Now()).(attempts := old(sys.attempts.rows)[attempt.record.Id() := r.value])
      && sys.log == old(sys.log) + Marking(pid, attempt.record, at)
  {
    hide Legal, Replay, AttemptEvolves, StoresEvolve, Witnessed, ChainConfirmedIn;
    ghost var before := sys.log;
    label start:
    r := MarkVerified(sys, pid, attempt, at);
    if r.Success? {
      VerifiedRowStands(sys.Now(), r.value);
      WarrantPersists(old@start(sys.Now()), sys.Now(), before, sys.log, pid, attempt.record.Id(), Verified);
    }
  }

  lemma VerifiedRowStands(s: Stores, row: StoredAttempt)
    requires AttemptSnapshot(s, row) && row.record.state == Verified
    ensures s.attempts[row.record.Id()] == row
  {
  }

  /** The observation says nothing that could be acted on yet. */
  method Defer(sys: System, pid: Pid, attempt: StoredAttempt, mission: StoredMission, at: int)
    returns (r: Result<Reconciled>)
    requires sys.Valid() && AttemptSnapshot(sys.Now(), attempt)
    modifies sys, sys.missions, sys.attempts, sys.ledger, sys.references
    ensures sys.Valid() && old(sys.log) <= sys.log
    ensures forall a :: a in sys.log && a.pid == pid && a !in old(sys.log) ==> a.MoveAttempt?
    ensures r.Success? ==>
      r.value.outcome == OutcomeUnresolved && r.value.attempt.record.state !in {InFlight, ProviderAcknowledged}
    ensures r.Failure? ==> r.code in {DatabaseError, AttemptTransitionNotAllowed}
    ensures sys.quiet && attempt == old(sys.attempts.rows)[attempt.record.Id()] ==>
      && r.Success? && sys.missions.rows == old(sys.missions.rows)
      && attempt.record.Id() in sys.attempts.rows
      && sys.attempts.rows[attempt.record.Id()].record.state == Doubted(attempt.record.state)
  {
    hide Legal, Replay, AttemptEvolves, StoresEvolve;
    var marked := MarkUnknown(sys, pid, attempt, at);
    if marked.Failure? { return Failure(marked.code); }
    r := Success(Reconciled(OutcomeUnresolved, marked.value, mission));
  }

  method Deferred(
    sys: System, pid: Pid, id: AttemptId, attempt: StoredAttempt, mission: StoredMission, at: int)
    returns (r: Result<Reconciled>)
    requires sys.Valid() && AttemptSnapshot(sys.Now(), attempt) && MissionSnapshot(sys.Now(), mission)
    requires attempt.record.Id() == id && mission.record.key == id.effect.mission == attempt.record.plan.missionKey
    requires HasEffect(mission.record, id.effect.effectRef)
    modifies sys, sys.missions, sys.attempts, sys.ledger, sys.references
    ensures sys.Valid() && old(sys.log) <= sys.log && OnlyReconciling(pid, old(sys.log), sys.log)
    ensures r.Failure? ==> r.code !in NEVER_REPORTED
    ensures r.Success? ==> Honest(sys.Now(), sys.log, pid, id, r.value)
    ensures forall a :: a in sys.log && a.pid == pid && a !in old(sys.log) ==> a.MoveAttempt?
    ensures r.Success? ==> r.value.outcome == OutcomeUnresolved
    ensures (sys.quiet && attempt == old(sys.attempts.rows)[id]
        && mission == old(sys.missions.rows)[id.effect.mission]) ==>
      Undisturbed(old(sys.Now()), sys.Now(), id, Inconclusive, r)
  {
    hide Legal, Replay, MissionEvolves, AttemptEvolves, StoresEvolve, Witnessed, Projected, Reconcilable, Stuck;
    hide AttemptMoveWarranted, ChainConfirmedIn;
    r := Defer(sys, pid, attempt, mission, at);
  }

  method Rejected(
    sys: System, pid: Pid, id: AttemptId, attempt: StoredAttempt, mission: StoredMission, at: int)
    returns (r: Result<Reconciled>)
    requires sys.Valid() && AttemptSnapshot(sys.Now(), attempt) && MissionSnapshot(sys.Now(), mission)
    requires attempt.record.Id() == id && mission.record.key == id.effect.mission == attempt.record.plan.missionKey
    requires HasEffect(mission.record, id.effect.effectRef)
    requires AttemptMoveWarranted(sys.Now(), sys.log, pid, id, AttemptState.Blocked)
    modifies sys, sys.missions, sys.attempts, sys.ledger, sys.references
    ensures sys.Valid() && old(sys.log) <= sys.log && OnlyReconciling(pid, old(sys.log), sys.log)
    ensures r.Failure? ==> r.code !in NEVER_REPORTED
    ensures r.Success? ==> Honest(sys.Now(), sys.log, pid, id, r.value)
    ensures r.Success? ==> r.value.outcome == OutcomeBlocked
    ensures (sys.quiet && attempt == old(sys.attempts.rows)[id]
        && mission == old(sys.missions.rows)[id.effect.mission]) ==>
      Undisturbed(old(sys.Now()), sys.Now(), id, Mismatch, r)
  {
    hide Legal, Replay, MissionEvolves, AttemptEvolves, StoresEvolve, Witnessed, Projected, Reconcilable, Stuck;
    hide AttemptMoveWarranted, ChainConfirmedIn;
    r := Refute(sys, pid, attempt, mission, at);
  }

  method Accepted(
    sys: System, pid: Pid, id: AttemptId, attempt: StoredAttempt, mission: StoredMission, at: int)
    returns (r: Result<Reconciled>)
    requires sys.Valid() && AttemptSnapshot(sys.Now(), attempt) && MissionSnapshot(sys.Now(), mission)
    requires attempt.record.Id() == id && mission.record.key == id.effect.mission == attempt.record.plan.missionKey
    requires HasEffect(mission.record, id.effect.effectRef)
    requires WitnessedEffect(sys.log, pid, mission.record, id.effect.effectRef)
    modifies sys, sys.missions, sys.attempts, sys.ledger, sys.references
    ensures sys.Valid() && old(sys.log) <= sys.log && OnlyReconciling(pid, old(sys.log), sys.log)
    ensures r.Failure? ==> r.code !in NEVER_REPORTED
    ensures r.Success? ==> Honest(sys.Now(), sys.log, pid, id, r.value)
    ensures r.Success? ==> r.value.outcome != OutcomeUnresolved
    ensures r.Success? && r.value.outcome == OutcomeVerified ==> Reconcilable(mission.record.state)
    ensures (sys.quiet && attempt == old(sys.attempts.rows)[id]
        && mission == old(sys.missions.rows)[id.effect.mission] && Recoverable(old(sys.Now()), id)) ==>
      sys.log == old(sys.log) + Recovery(pid, attempt.record, mission.record, id.effect.effectRef, at)
    ensures (sys.quiet && attempt == old(sys.attempts.rows)[id]
        && mission == old(sys.missions.rows)[id.effect.mission]) ==>
      Undisturbed(old(sys.Now()), sys.Now(), id, Exact, r)
  {
    hide Legal, Replay, MissionEvolves, AttemptEvolves, StoresEvolve, Witnessed, Projected, Reconcilable, Stuck;
    hide AttemptMoveWarranted, ChainConfirmedIn;
    ghost var before := sys.log;
    if attempt.record.state in {AttemptState.FailedFinal, AttemptState.Blocked} {
      var reviewed := MarkManualReview(sys, pid, mission, at);
      if reviewed.Failure? { return Failure(reviewed.code); }
      r := Success(Reconciled(OutcomeBlocked, attempt, reviewed.value));
    } else {
      r := Confirm(sys, pid, id, attempt, mission, at);
      sys.Evolved(before);
      RowsRemain(Replay(before), sys.Now(), id);
    }
  }

  lemma RowsRemain(s: Stores, s': Stores, id: AttemptId)
    requires StoresEvolve(s, s')
    ensures id in s.attempts ==> id in s'.attempts
    ensures id.effect.mission in s.missions ==> id.effect.mission in s'.missions
    ensures id in s.references ==> id in s'.references
  {
  }

  /** Act on an observation that has been made. */
  method Decide(
    sys: System, pid: Pid, id: AttemptId, attempt: StoredAttempt, mission: StoredMission, sender: string, minimum: int,
    observation: Observation, at: int)
    returns (r: Result<Reconciled>)
    requires sys.Valid() && AttemptSnapshot(sys.Now(), attempt) && MissionSnapshot(sys.Now(), mission)
    requires attempt.record.Id() == id && mission.record.key == id.effect.mission == attempt.record.plan.missionKey
    requires HasEffect(mission.record, id.effect.effectRef) && minimum >= 1
    requires Observe(pid, id, sender, minimum, observation) in sys.log
    modifies sys, sys.missions, sys.attempts, sys.ledger, sys.references
    ensures sys.Valid() && old(sys.log) <= sys.log && OnlyReconciling(pid, old(sys.log), sys.log)
    ensures r.Failure? ==> r.code !in NEVER_REPORTED
    ensures r.Success? ==> Honest(sys.Now(), sys.log, pid, id, r.value)
    ensures r.Success? && r.value.outcome == OutcomeVerified ==>
      && Confirms(EffectOf(mission.record, id.effect.effectRef), sender, minimum, observation)
      && Reconcilable(mission.record.state)
    ensures (sys.quiet && attempt == old(sys.attempts.rows)[id]
        && mission == old(sys.missions.rows)[id.effect.mission] && Recoverable(old(sys.Now()), id)
        && Confirms(EffectOf(mission.record, id.effect.effectRef), sender, minimum, observation)) ==>
      sys.log == old(sys.log) + Recovery(pid, attempt.record, mission.record, id.effect.effectRef, at)
    ensures r.Success? && r.value.outcome == OutcomeUnresolved ==>
      forall a :: a in sys.log && a.pid == pid && a !in old(sys.log) ==> a.MoveAttempt?
    ensures (sys.quiet && attempt == old(sys.attempts.rows)[id]
        && mission == old(sys.missions.rows)[id.effect.mission]) ==>
      Undisturbed(old(sys.Now()), sys.Now(), id, Weigh(EffectOf(mission.record, id.effect.effectRef), sender, minimum, observation), r)
  {
    hide Legal, Replay, MissionEvolves, AttemptEvolves, StoresEvolve;
    hide Witnessed, Projected, Reconcilable, Stuck, EconomicMatch;
    hide AttemptMoveWarranted, ChainConfirmedIn, Honest, Undisturbed, OnlyReconciling;
    var finding := Weigh(EffectOf(mission.record, id.effect.effectRef), sender, minimum, observation);
    match finding
    case Inconclusive =>
      r := Deferred(sys, pid, id, attempt, mission, at);
    case Mismatch =>
      MismatchWarrantsBlocking(sys.Now(), sys.log, pid, id, mission, sender, minimum, observation);
      r := Rejected(sys, pid, id, attempt, mission, at);
    case Exact =>
      ExactIsWitnessed(sys.log, pid, id, mission.record, sender, minimum, observation);
      r := Accepted(sys, pid, id, attempt, mission, at);
  }

  // ---- reconcile ----

  /** Both stores already agree that the effect happened. */
  predicate Finished(s: Stores, id: AttemptId) {
    id in s.attempts && s.attempts[id].record.state == Verified && ChainConfirmedIn(s, id)
  }

  /** What reaches the reconciler of a verifier's answer: one that the constructors of evidence refuse is an
      exception like any other. */
  function Delivered(report: Option<Observation>): Option<Observation> {
    if report.Some? && WellFormedObservation(report.value) then report else None
  }

  /** A verifier delivered evidence that confirms this attempt's effect. */
  predicate Proven(s: Stores, id: AttemptId, sender: string, minimum: int, report: Option<Observation>) {
    && EffectInMission(s, id) && Delivered(report).Some?
    && Confirms(EffectBehind(s, id), sender, minimum, report.value)
  }

  /** Reconcile one attempt.  report is what the verifier returned, or None for an exception.

      Under any contention: nothing is ever sent again, the attempt loop is never exhausted, and each outcome
      means what it says in the durable stores; VERIFIED is reported only for an attempt that was found finished
      or on exact evidence from this very call.  With nobody else acting, a finished attempt is left alone
      without asking the verifier, and otherwise the result is Undisturbed of the weighed evidence. */
  method Reconcile(
    sys: System, pid: Pid, id: AttemptId, expected: string, minimum: int, report: Option<Observation>, at: int)
    returns (r: Result<Reconciled>)
    requires sys.Valid() && (sys.cfg.Ordered? ==> id in sys.references.rows)
    modifies sys, sys.missions, sys.attempts, sys.ledger, sys.references
    ensures sys.Valid() && old(sys.log) <= sys.log && OnlyReconciling(pid, old(sys.log), sys.log)
    ensures r.Failure? ==> r.code !in NEVER_REPORTED
    ensures r.Success? ==>
      Honest(sys.Now(), sys.log, pid, id, r.value)
      || (ContinuedByOthers(pid, old(sys.log), sys.log) && Finished(sys.Now(), id) && r.value.outcome == OutcomeVerified)
    ensures r.Success? && r.value.outcome == OutcomeVerified ==>
      && Finished(sys.Now(), id)
      && (ContinuedByOthers(pid, old(sys.log), sys.log)
          || (Proven(sys.Now(), id, Lower(expected), minimum, report) && !WrittenOff(old(sys.Now()), id)))
    ensures !IsAddress(expected) ==> r == Failure(InvalidExpectedSender) && sys.log == old(sys.log)
    ensures r.Success? && r.value.outcome == OutcomeUnresolved ==>
      forall a :: a in sys.log && a.pid == pid && a !in old(sys.log) ==> a.Observe? || a.MoveAttempt?
    ensures sys.quiet && minimum >= 1 && IsAddress(expected) && Locatable(old(sys.Now()), id) ==>
      if Finished(old(sys.Now()), id) then
        && r == Success(Reconciled(OutcomeVerified, old(sys.attempts.rows)[id], old(sys.missions.rows)[id.effect.mission]))
        && sys.log == old(sys.log) && sys.Now() == old(sys.Now())
      else if Delivered(report).None? then
        && r == Failure(VerificationOutcomeUnknown) && sys.missions.rows == old(sys.missions.rows)
        && id in sys.attempts.rows
        && sys.attempts.rows[id].record.state == Doubted(old(sys.attempts.rows)[id].record.state)
      else
        Undisturbed(old(sys.Now()), sys.Now(), id,
          Weigh(EffectBehind(old(sys.Now()), id), Lower(expected), minimum, report.value), r)
    ensures (sys.quiet && minimum >= 1 && IsAddress(expected) && Locatable(old(sys.Now()), id)
        && Recoverable(old(sys.Now()), id) && !Finished(old(sys.Now()), id)
        && Proven(old(sys.Now()), id, Lower(expected), minimum, report)) ==>
      sys.log == old(sys.log) + [Observe(pid, id, Lower(expected), minimum, report.value)]
        + RecoveryOf(old(sys.Now()), pid, id, at)
  {
    hide Legal, Replay, MissionEvolves, AttemptEvolves, StoresEvolve, Honest, Undisturbed, Weigh, EconomicMatch;
    hide WellFormedObservation, Recovery, Recoverable, Reconcilable;
    if !IsAddress(expected) { return Failure(InvalidExpectedSender); }
    var sender := Lower(expected);
    LowerIsAddress(expected);
    if minimum < 1 { return Failure(InvalidMinimumConfirmations); }
    var located := Locate(sys, pid, id);
    if located.Failure? { return Failure(located.code); }
    RowsRemain(old(sys.Now()), sys.Now(), id);
    var (attempt, mission) := located.value;
    if attempt.record.state == Verified && EffectIs(mission.record, id.effect.effectRef, ChainConfirmed) {
      VerifiedRowStands(sys.Now(), attempt);
      SnapshotEffect(sys.Now(), mission, id);
      return Success(Reconciled(OutcomeVerified, attempt, mission));
    }
    label located:
    r := ObserveAndDecide(sys, pid, id, attempt, mission, sender, minimum, Delivered(report), at);
    sys.Evolved(old@located(sys.log));
    SnapshotsPersist(old@located(sys.Now()), sys.Now());
    if r.Success? && r.value.outcome == OutcomeVerified {
      NotWrittenOff(old(sys.Now()), mission, id);
      HonestIsFinished(sys.Now(), sys.log, pid, id, r.value);
      EvidenceStands(sys.Now(), mission, id, sender, minimum, report);
    }
  }

  /** The Mission has gone to review, conflict or block, none of which it ever leaves. */
  predicate WrittenOff(s: Stores, id: AttemptId) {
    && id.effect.mission in s.missions
    && s.missions[id.effect.mission].record.state
         in {ManualReviewRequired, MissionState.MissionConflict, MissionState.Blocked}
  }

  lemma NotWrittenOff(s: Stores, m: StoredMission, id: AttemptId)
    requires id.effect.mission in s.missions ==> MissionEvolves(s.missions[id.effect.mission], m)
    ensures Reconcilable(m.record.state) ==> !WrittenOff(s, id)
  {
    if WrittenOff(s, id) { FinalMissionStates(s.missions[id.effect.mission].record.state); }
  }

  /** The recovery of an attempt from these stores. */
  function RecoveryOf(s: Stores, pid: Pid, id: AttemptId, at: int): Run
    requires Locatable(s, id)
  {
    Recovery(pid, s.attempts[id].record, s.missions[id.effect.mission].record, id.effect.effectRef, at)
  }

  lemma HonestIsFinished(s: Stores, run: Run, pid: Pid, id: AttemptId, r: Reconciled)
    requires Honest(s, run, pid, id, r) && r.outcome == OutcomeVerified
    ensures Finished(s, id)
  {
  }

  lemma EvidenceStands(
    s: Stores, m: StoredMission, id: AttemptId, sender: string, minimum: int, report: Option<Observation>)
    requires MissionSnapshot(s, m) && m.record.key == id.effect.mission && HasEffect(m.record, id.effect.effectRef)
    requires Delivered(report).Some? && Confirms(EffectOf(m.record, id.effect.effectRef), sender, minimum, report.value)
    ensures Proven(s, id, sender, minimum, report)
  {
    SnapshotEffect(s, m, id);
  }

  method ObserveAndDecide(
    sys: System, pid: Pid, id: AttemptId, attempt: StoredAttempt, mission: StoredMission, sender: string, minimum: int,
    report: Option<Observation>, at: int)
    returns (r: Result<Reconciled>)
    requires sys.Valid() && AttemptSnapshot(sys.Now(), attempt) && MissionSnapshot(sys.Now(), mission)
    requires attempt.record.Id() == id && mission.record.key == id.effect.mission == attempt.record.plan.missionKey
    requires HasEffect(mission.record, id.effect.effectRef) && minimum >= 1
    requires sys.cfg.Ordered? ==> id in sys.references.rows
    requires IsLoweredHex(sender, 40) && (report.Some? ==> WellFormedObservation(report.value))
    modifies sys, sys.missions, sys.attempts, sys.ledger, sys.references
    ensures sys.Valid() && old(sys.log) <= sys.log && OnlyReconciling(pid, old(sys.log), sys.log)
    ensures r.Failure? ==> r.code !in NEVER_REPORTED
    ensures r.Success? ==> Honest(sys.Now(), sys.log, pid, id, r.value)
    ensures r.Success? && r.value.outcome == OutcomeVerified ==>
      && report.Some? && Confirms(EffectOf(mission.record, id.effect.effectRef), sender, minimum, report.value)
      && Reconcilable(mission.record.state)
    ensures (sys.quiet && attempt == old(sys.attempts.rows)[id]
        && mission == old(sys.missions.rows)[id.effect.mission] && Recoverable(old(sys.Now()), id)
        && report.Some? && Confirms(EffectOf(mission.record, id.effect.effectRef), sender, minimum, report.value)) ==>
      sys.log == old(sys.log) + [Observe(pid, id, sender, minimum, report.value)]
        + Recovery(pid, attempt.record, mission.record, id.effect.effectRef, at)
    ensures r.Success? && r.value.outcome == OutcomeUnresolved ==>
      forall a :: a in sys.log && a.pid == pid && a !in old(sys.log) ==> a.Observe? || a.MoveAttempt?
    ensures (sys.quiet && attempt == old(sys.attempts.rows)[id]
        && mission == old(sys.missions.rows)[id.effect.mission]) ==>
      if report.None? then
        && r == Failure(VerificationOutcomeUnknown) && sys.missions.rows == old(sys.missions.rows)
        && id in sys.attempts.rows && sys.attempts.rows[id].record.state == Doubted(attempt.record.state)
      else
        Undisturbed(old(sys.Now()), sys.Now(), id,
          Weigh(EffectOf(mission.record, id.effect.effectRef), sender, minimum, report.value), r)
  {
    hide Legal, Replay, MissionEvolves, AttemptEvolves, StoresEvolve, Honest, Undisturbed, Weigh, EconomicMatch;
    hide IsLoweredHex, WellFormedObservation;
    if report.None? {
      var deferred := Defer(sys, pid, attempt, mission, at);
      return Failure(if deferred.Failure? then deferred.code else VerificationOutcomeUnknown);
    }
    label located:
    RecordObservation(sys, pid, id, sender, minimum, report.value);
    SnapshotsPersist(old@located(sys.Now()), sys.Now());
    r := Decide(sys, pid, id, attempt, mission, sender, minimum, report.value, at);
  }

  // ---- repeating a reconciliation ----

  /** One undisturbed reconciliation with exact evidence finishes a recoverable attempt, and a second one
      finds nothing to do: it asks nobody and writes nothing. */
  method RecoverThenRepeat(
    sys: System, pid: Pid, again: Pid, id: AttemptId, expected: string, minimum: int, observation: Observation,
    later: Option<Observation>, at: int)
    returns (first: Result<Reconciled>, second: Result<Reconciled>, ghost between: Run)
    requires sys.Valid() && sys.quiet && (sys.cfg.Ordered? ==> id in sys.references.rows)
    requires Locatable(sys.Now(), id) && Recoverable(sys.Now(), id)
    requires IsAddress(expected) && Proven(sys.Now(), id, Lower(expected), minimum, Some(observation))
    modifies sys, sys.missions, sys.attempts, sys.ledger, sys.references
    ensures sys.Valid() && sys.log == between && old(sys.log) <= between
    ensures first.Success? && second.Success?
    ensures first.value.outcome == OutcomeVerified && second.value.outcome == OutcomeVerified
    ensures Finished(sys.Now(), id)
    ensures id.effect.mission in sys.missions.rows
      && (Finished(old(sys.Now()), id)
          || Projected(old(sys.missions.rows)[id.effect.mission].record, sys.missions.rows[id.effect.mission].record,
               id.effect.effectRef))
  {
    hide Legal, Replay, Reconcilable, Stuck, SettledState, EconomicMatch, Honest, OnlyEffectMoved, StoresEvolve;
    ghost var (s, before) := (sys.Now(), sys.log);
    first := Reconcile(sys, pid, id, expected, minimum, Some(observation), at);
    between := sys.log;
    sys.Evolved(before);
    ConfirmedRowsAreLocatable(s, sys.Now(), id);
    second := Reconcile(sys, again, id, expected, minimum, later, at);
  }

  lemma ConfirmedRowsAreLocatable(s: Stores, s': Stores, id: AttemptId)
    requires StoresEvolve(s, s') && Locatable(s, id)
    ensures Locatable(s', id)
    ensures EffectIs(s'.missions[id.effect.mission].record, id.effect.effectRef, ChainConfirmed) ==> ChainConfirmedIn(s', id)
  {
    assert AttemptEvolves(s.attempts[id], s'.attempts[id]);
    EffectPersists(s, s', id);
  }
}
