/** Whole-run guarantees: money cannot duplicate, confirmation is witnessed, outcomes are honest. */
module ProtocolSafety {
  import opened Outcomes
  import opened MissionIdentity
  import opened Missions
  import opened Attempts
  import opened Authorizations
  import opened Evidence
  import opened Protocol
  import opened ProtocolInvariants
  import AttemptStore

  // ---- the execution port ----

  /** In every interleaving the execution port is called at most once per effect, whatever plans and
      request keys the callers brought. */
  lemma PortIsCalledAtMostOnce(cfg: Config, run: Run, i: nat, j: nat)
    requires Legal(cfg, run) && i < j < |run|
    requires run[i].CallPort? && run[j].CallPort?
    ensures run[i].id.effect != run[j].id.effect
  {
    ActionWasEnabled(cfg, run, j);
    assert run[..j][i] == run[i];
    if run[i].id == run[j].id {
      CallIsByTheTaker(cfg, run, run[i], run[j]);
    }
  }

  /** When the port is called, the durable attempt has already left PREPARED. */
  lemma CallFollowsDurableIntent(cfg: Config, run: Run, j: nat)
    requires Legal(cfg, run) && j < |run| && run[j].CallPort?
    ensures var s := Replay(run[..j]);
      run[j].id in s.attempts && s.attempts[run[j].id].record.state != Prepared
  {
    ActionWasEnabled(cfg, run, j);
    TakenStaysPastPrepared(cfg, run[..j]);
  }

  // ---- evidence against an attempt ----

  /** Somebody observed a transfer for this attempt that is not the one the effect intends. */
  predicate ContradictedBySomeone(run: Run, id: AttemptId, e: EffectRecord) {
    exists b :: b in run && b.Observe? && b.id == id
      && b.observation.VerifiedTransfer? && !EconomicMatch(e, b.sender, b.observation.transfer)
  }

  predicate BlockedIsContradicted(s: Stores, run: Run) {
    forall id :: id in s.attempts && s.attempts[id].record.state == AttemptState.Blocked ==>
      EffectInMission(s, id) && ContradictedBySomeone(run, id, EffectBehind(s, id))
  }

  lemma ContradictionStands(s: Stores, s': Stores, run: Run, a: Action, id: AttemptId)
    requires StoresEvolve(s, s') && EffectInMission(s, id) && ContradictedBySomeone(run, id, EffectBehind(s, id))
    ensures EffectInMission(s', id) && ContradictedBySomeone(run + [a], id, EffectBehind(s', id))
  {
    LookupEvolves(s.missions[id.effect.mission], s'.missions[id.effect.mission], id.effect.effectRef);
    var b :| b in run && b.Observe? && b.id == id
      && b.observation.VerifiedTransfer? && !EconomicMatch(EffectBehind(s, id), b.sender, b.observation.transfer);
    assert b in run + [a] && !EconomicMatch(EffectBehind(s', id), b.sender, b.observation.transfer);
  }

  lemma BlockedStep(cfg: Config, s: Stores, s': Stores, before: Run, a: Action)
    requires BlockedIsContradicted(s, before) && AttemptsStep(s, s', a) && StoresEvolve(s, s')
    requires Enabled(cfg, s, before, a)
    ensures BlockedIsContradicted(s', before + [a])
  {
    hide StoresEvolve, ContradictedBySomeone, EffectInMission, RunnerAllows;
    forall id | id in s'.attempts && s'.attempts[id].record.state == AttemptState.Blocked
      ensures EffectInMission(s', id) && ContradictedBySomeone(before + [a], id, EffectBehind(s', id))
    {
      if a.MoveAttempt? && a.id == id {
        FreshContradiction(before, a.pid, id, EffectBehind(s, id));
      }
      ContradictionStands(s, s', before, a, id);
    }
  }

  lemma FreshContradiction(run: Run, pid: Pid, id: AttemptId, e: EffectRecord)
    requires Contradicted(run, pid, id, e)
    ensures ContradictedBySomeone(run, id, e)
  {
  }

  /** A BLOCKED attempt was observed with a transfer that does not match its effect. */
  lemma {:induction false} BlockedAttemptsWereContradicted(cfg: Config, run: Run)
    requires Legal(cfg, run)
    ensures BlockedIsContradicted(Replay(run), run)
  {
    if run != [] {
      hide *;
      var before, a := run[..|run| - 1], run[|run| - 1];
      StepByStore(cfg, run);
      assert run == before + [a];
      BlockedAttemptsWereContradicted(cfg, before);
      StepEvolves(cfg, run);
      BlockedStep(cfg, Replay(before), Replay(run), before, a);
    }
  }

  /** This process's broadcast of the attempt was answered with a status that refuses it for good. */
  predicate TurnedDown(run: Run, pid: Pid, id: AttemptId) {
    exists b :: b in run && b.AnswerPost? && b.pid == pid && b.row.attemptId == id
      && b.row.phase == Broadcast && TurnsDown(b.answer)
  }

  /** Money that may have moved is never forgotten: an attempt whose port was called is a recovery candidate
      until it is final, and it is final only on chain evidence for or against it or on the provider's final
      rejection. */
  lemma CalledAttemptsStayRecoverable(cfg: Config, run: Run, b: Action)
    requires Legal(cfg, run) && b in run && b.CallPort?
    ensures var s := Replay(run);
      && b.id in s.attempts
      && (b.id in AttemptStore.RecoveryCandidates(s.attempts) ||
          match s.attempts[b.id].record.state
          case Verified => ChainConfirmedIn(s, b.id)
          case FailedFinal => TurnedDown(run, b.pid, b.id)
          case Blocked => EffectInMission(s, b.id) && ContradictedBySomeone(run, b.id, EffectBehind(s, b.id))
          case _ => false)
  {
    CallNeedsTake(cfg, run, b);
    var t :| t in run && t.TakeAttempt? && t.pid == b.pid && t.id == b.id;
    TakenStaysPastPrepared(cfg, run);
    VerifiedImpliesConfirmed(cfg, run);
    BlockedAttemptsWereContradicted(cfg, run);
    hide Legal, ContradictedBySomeone, EffectInMission;
    if Replay(run).attempts[b.id].record.state == AttemptState.FailedFinal {
      AnswersStayHonest(cfg, run);
      var c :| c in run && c.AnswerPort? && c.id == b.id && !c.accepted;
      AnswerNeedsCall(cfg, run, c);
      CallIsByTheTaker(cfg, run, b, CallPort(c.pid, c.id));
      RejectionWasAnswered(cfg, run, c);
    }
  }

  // ---- confirmation ----

  predicate WitnessedBySomeone(run: Run, id: AttemptId, e: EffectRecord) {
    exists b :: b in run && b.Observe? && b.id == id && Confirms(e, b.sender, b.minimum, b.observation)
  }

  predicate MissionIsWitnessed(run: Run, m: MissionRecord) {
    forall i :: 0 <= i < |m.effects| && m.effects[i].state == ChainConfirmed ==>
      WitnessedBySomeone(run, AttemptFor(m.key, m.effects[i].effectRef), m.effects[i])
  }

  predicate ConfirmationIsWitnessed(s: Stores, run: Run) {
    forall key :: key in s.missions ==> MissionIsWitnessed(run, s.missions[key].record)
  }

  lemma WitnessSurvives(run: Run, a: Action, id: AttemptId, e: EffectRecord, e': EffectRecord)
    requires WitnessedBySomeone(run, id, e) && SameEconomics(e, e')
    ensures WitnessedBySomeone(run + [a], id, e')
  {
    var b :| b in run && b.Observe? && b.id == id && Confirms(e, b.sender, b.minimum, b.observation);
    assert b in run + [a] && Confirms(e', b.sender, b.minimum, b.observation);
  }

  lemma MissionMoveIsWitnessed(run: Run, s: Stores, a: Action)
    requires MissionRowsSound(s) && a.MoveMission? && MayMoveMission(s, a)
    requires MissionIsWitnessed(run, s.missions[a.key].record)
    ensures MissionIsWitnessed(run + [a], MissionGoal(s, a).value)
  {
    var m := s.missions[a.key].record;
    forall i | 0 <= i < |m.effects| && m.effects[i].state == ChainConfirmed
      ensures WitnessedBySomeone(run + [a], AttemptFor(m.key, m.effects[i].effectRef), m.effects[i])
    {
      WitnessSurvives(run, a, AttemptFor(m.key, m.effects[i].effectRef), m.effects[i], m.effects[i]);
    }
  }

  lemma EffectMoveIsWitnessed(run: Run, s: Stores, a: Action)
    requires MissionRowsSound(s) && a.MoveEffect? && MayMoveEffect(s, run, a)
    requires MissionIsWitnessed(run, s.missions[a.key].record)
    ensures MissionIsWitnessed(run + [a], MissionGoal(s, a).value)
  {
    var m := s.missions[a.key].record;
    var m' := MissionGoal(s, a).value;
    var k := IndexOf(m.effects, a.effectRef);
    forall i | 0 <= i < |m'.effects| && m'.effects[i].state == ChainConfirmed
      ensures WitnessedBySomeone(run + [a], AttemptFor(m.key, m'.effects[i].effectRef), m'.effects[i])
    {
      if i == k {
        assert Witnessed(run, a.pid, AttemptFor(a.key, a.effectRef), m.effects[k]);
      }
      WitnessSurvives(run, a, AttemptFor(m.key, m.effects[i].effectRef), m.effects[i], m'.effects[i]);
    }
  }

  lemma IdleMissionIsWitnessed(run: Run, a: Action, m: MissionRecord)
    requires MissionIsWitnessed(run, m)
    ensures MissionIsWitnessed(run + [a], m)
  {
    forall i | 0 <= i < |m.effects| && m.effects[i].state == ChainConfirmed
      ensures WitnessedBySomeone(run + [a], AttemptFor(m.key, m.effects[i].effectRef), m.effects[i])
    {
      WitnessSurvives(run, a, AttemptFor(m.key, m.effects[i].effectRef), m.effects[i], m.effects[i]);
    }
  }

  lemma WitnessStep(s: Stores, s': Stores, before: Run, a: Action)
    requires MissionRowsSound(s) && MissionsStep(s, s', before, a) && ConfirmationIsWitnessed(s, before)
    ensures ConfirmationIsWitnessed(s', before + [a])
  {
    hide WellFormed, MissionIsWitnessed, MissionGoal, MayMoveMission, MayMoveEffect;
    forall key | key in s'.missions ensures MissionIsWitnessed(before + [a], s'.missions[key].record) {
      if a.AdmitMission? && a.record.key == key {
        FreshMissionIsWitnessed(before + [a], a.record);
      } else if (a.MoveMission? || a.MoveEffect?) && a.key == key {
        if a.MoveMission? { MissionMoveIsWitnessed(before, s, a); } else { EffectMoveIsWitnessed(before, s, a); }
      } else {
        IdleMissionIsWitnessed(before, a, s.missions[key].record);
      }
    }
  }

  lemma FreshMissionIsWitnessed(run: Run, m: MissionRecord)
    requires AllPlanned(m)
    ensures MissionIsWitnessed(run, m)
  {
    forall i | 0 <= i < |m.effects| ensures m.effects[i].state == Planned {
      assert m.effects[i] in m.effects;
    }
  }

  /** Every CHAIN_CONFIRMED effect was observed before: chain, token, sender, recipient and amount
      matched, with at least the demanded number of confirmations. */
  lemma {:induction false} ConfirmedEffectsWereObserved(cfg: Config, run: Run)
    requires Legal(cfg, run)
    ensures ConfirmationIsWitnessed(Replay(run), run)
  {
    if run != [] {
      hide *;
      var before, a := run[..|run| - 1], run[|run| - 1];
      StepByStore(cfg, run);
      assert run == before + [a];
      ConfirmedEffectsWereObserved(cfg, before);
      MissionRowsStaySound(cfg, before);
      WitnessStep(Replay(before), Replay(run), before, a);
    }
  }

  lemma ConfirmationPersists(s: Stores, s': Stores, id: AttemptId)
    requires StoresEvolve(s, s') && ChainConfirmedIn(s, id)
    ensures ChainConfirmedIn(s', id) && SameEconomics(EffectBehind(s, id), EffectBehind(s', id))
  {
    LookupEvolves(s.missions[id.effect.mission], s'.missions[id.effect.mission], id.effect.effectRef);
  }

  predicate VerifiedIsConfirmed(s: Stores) {
    forall id :: id in s.attempts && s.attempts[id].record.state == Verified ==> ChainConfirmedIn(s, id)
  }

  lemma VerifiedStep(cfg: Config, s: Stores, s': Stores, before: Run, a: Action)
    requires VerifiedIsConfirmed(s) && AttemptsStep(s, s', a) && StoresEvolve(s, s')
    requires Enabled(cfg, s, before, a)
    ensures VerifiedIsConfirmed(s')
  {
    hide StoresEvolve;
    forall id | id in s'.attempts && s'.attempts[id].record.state == Verified ensures ChainConfirmedIn(s', id) {
      assert ChainConfirmedIn(s, id);
      ConfirmationPersists(s, s', id);
    }
  }

  /** Across the two independent stores: a VERIFIED attempt has its effect CHAIN_CONFIRMED. */
  lemma {:induction false} VerifiedImpliesConfirmed(cfg: Config, run: Run)
    requires Legal(cfg, run)
    ensures VerifiedIsConfirmed(Replay(run))
  {
    if run != [] {
      hide *;
      var before, a := run[..|run| - 1], run[|run| - 1];
      StepByStore(cfg, run);
      VerifiedImpliesConfirmed(cfg, before);
      StepEvolves(cfg, run);
      VerifiedStep(cfg, Replay(before), Replay(run), before, a);
    }
  }

  // ---- honest outcomes ----

  /** PROVIDER_ACKNOWLEDGED has a durable provider reference for this attempt and fingerprint;
      FAILED_FINAL has the port's only answer, a final rejection, behind it; and no two attempts
      share a provider reference. */
  lemma OutcomesAreHonest(cfg: Config, run: Run, id: AttemptId)
    requires Legal(cfg, run) && id in Replay(run).attempts
    ensures var s := Replay(run);
      var a := s.attempts[id].record;
      && (a.state == ProviderAcknowledged ==>
            id in s.references && s.references[id].fingerprint == a.plan.fingerprint
            && s.references[id].namespace == a.plan.namespace)
      && (a.state == AttemptState.FailedFinal ==>
            && (exists b :: b in run && b.AnswerPort? && b.id == id)
            && (forall b :: b in run && b.AnswerPort? && b.id == id ==>
                  !b.accepted && TurnedDown(run, b.pid, id)))
      && (forall other :: other in s.references && id in s.references && other != id ==>
            (s.references[other].namespace, s.references[other].reference)
              != (s.references[id].namespace, s.references[id].reference))
  {
    AnswersStayHonest(cfg, run);
    ReferencesStaySound(cfg, run);
    var a := Replay(run).attempts[id].record;
    hide Legal;
    if a.state == AttemptState.FailedFinal {
      var c :| c in run && c.AnswerPort? && c.id == id && !c.accepted;
      forall b | b in run && b.AnswerPort? && b.id == id
        ensures !b.accepted && TurnedDown(run, b.pid, id)
      {
        PortAnswersOnce(cfg, run, b, c);
        RejectionWasAnswered(cfg, run, b);
      }
    }
  }

  lemma {:induction false} RejectionWasAnswered(cfg: Config, run: Run, b: Action)
    requires Legal(cfg, run) && b in run && b.AnswerPort? && !b.accepted
    ensures TurnedDown(run, b.pid, b.id)
  {
    var before := run[..|run| - 1];
    Unrolled(run);
    if b in before {
      RejectionWasAnswered(cfg, before, b);
      var c :| c in before && c.AnswerPost? && c.pid == b.pid && c.row.attemptId == b.id
        && c.row.phase == Broadcast && TurnsDown(c.answer);
      assert c in run;
    } else {
      assert ProviderSaid(before, b.pid, b.id, ProviderRejected);
      var c :| c in before && c.AnswerPost? && c.pid == b.pid && c.row.attemptId == b.id
        && c.row.phase == Broadcast && ClassifyBroadcast(c.answer) == Some(ProviderRejected);
      assert c in run && TurnsDown(c.answer);
    }
  }

  // ---- bounded attempts ----

  function MovesOf(run: Run, id: AttemptId): nat {
    if run == [] then 0
    else
      var a := run[|run| - 1];
      MovesOf(run[..|run| - 1], id) + if (a.TakeAttempt? || a.MoveAttempt?) && a.id == id then 1 else 0
  }

  lemma MoveCountStep(s: Stores, s': Stores, a: Action, id: AttemptId, moves: nat)
    requires AttemptsStep(s, s', a)
    requires if id in s.attempts then s.attempts[id].revision == 1 + moves else moves == 0
    ensures var moves' := moves + if (a.TakeAttempt? || a.MoveAttempt?) && a.id == id then 1 else 0;
      if id in s'.attempts then s'.attempts[id].revision == 1 + moves' else moves' == 0
  {
  }

  lemma {:induction false} RevisionCountsMoves(cfg: Config, run: Run, id: AttemptId)
    requires Legal(cfg, run)
    ensures if id in Replay(run).attempts then Replay(run).attempts[id].revision == 1 + MovesOf(run, id)
            else MovesOf(run, id) == 0
  {
    if run != [] {
      var before, a := run[..|run| - 1], run[|run| - 1];
      StepByStore(cfg, run);
      RevisionCountsMoves(cfg, before, id);
      hide Legal, Replay, Apply, Enabled;
      MoveCountStep(Replay(before), Replay(run), a, id, MovesOf(before, id));
    }
  }

  /** However many processes contend, an attempt row is moved at most four times in a whole run. */
  lemma AttemptMovesAtMostFourTimes(cfg: Config, run: Run, id: AttemptId)
    requires Legal(cfg, run)
    ensures MovesOf(run, id) <= 4
    ensures id in Replay(run).attempts ==> Replay(run).attempts[id].revision <= 5
  {
    RevisionCountsMoves(cfg, run, id);
    AttemptRowsStaySound(cfg, run);
  }

  // ---- Mission store refinement ----

  lemma MissionStepIsSingle(s: Stores, s': Stores, before: Run, a: Action, key: MissionKey)
    requires MissionRowsSound(s) && MissionsStep(s, s', before, a) && key in s.missions
    ensures key in s'.missions
    ensures s'.missions[key] == s.missions[key]
      || (s'.missions[key].revision == s.missions[key].revision + 1
          && SingleTransition(s.missions[key].record, s'.missions[key].record))
  {
    hide WellFormed, CompletionJustified;
    if a.MoveEffect? && a.key == key {
      var m := s.missions[key].record;
      var k := IndexOf(m.effects, a.effectRef);
      assert MissionGoal(s, a) == TransitionMissionEffect(m, m.effects[k].effectRef, a.effectTarget, a.at);
      assert MissionGoal(s, a).value.effects[k].state == a.effectTarget;
    }
  }

  /** No update is lost: between two points of a run where the revision grew by one, the record made
      exactly one permitted transition; where it did not grow, nothing changed. */
  lemma {:induction false} RevisionsAreSingleTransitions(cfg: Config, run: Run, n: nat, key: MissionKey)
    requires Legal(cfg, run) && n <= |run| && key in Replay(run[..n]).missions
    ensures key in Replay(run).missions
    ensures var r, r' := Replay(run[..n]).missions[key], Replay(run).missions[key];
      && SameIdentity(r.record, r'.record)
      && (r'.revision == r.revision ==> r' == r)
      && (r'.revision == r.revision + 1 ==> SingleTransition(r.record, r'.record))
  {
    RunEvolves(cfg, run, n);
    assert MissionEvolves(Replay(run[..n]).missions[key], Replay(run).missions[key]);
    if n < |run| {
      var before, a := run[..|run| - 1], run[|run| - 1];
      StepByStore(cfg, run);
      hide *;
      assert before[..n] == run[..n];
      RevisionsAreSingleTransitions(cfg, before, n, key);
      RunEvolves(cfg, before, n);
      MissionRowsStaySound(cfg, before);
      MissionStepIsSingle(Replay(before), Replay(run), before, a, key);
      EvolutionOrdersRevisions(Replay(before[..n]), Replay(before), key);
    } else {
      assert run[..n] == run;
    }
  }

  lemma EvolutionOrdersRevisions(s: Stores, s': Stores, key: MissionKey)
    requires StoresEvolve(s, s') && key in s.missions
    ensures key in s'.missions && s.missions[key].revision <= s'.missions[key].revision
  {
  }

  /** A stored Mission is well formed, COMPLETED only with every effect confirmed, and a timestamp
      clamped to its last update is never rejected as too early, for the Mission or any effect. */
  lemma StoredMissionsAreSound(cfg: Config, run: Run, key: MissionKey, timestamp: int)
    requires Legal(cfg, run) && key in Replay(run).missions
    ensures var m := Replay(run).missions[key].record;
      var at := if timestamp < m.updated then m.updated else timestamp;
      && WellFormed(m) && (m.state == Completed ==> AllConfirmed(m))
      && (forall e :: e in m.effects ==> e.updated <= m.updated)
      && (forall target :: TransitionMission(m, target, at) != Failure(TimestampBeforeCurrent))
      && (forall effectRef, target :: TransitionMissionEffect(m, effectRef, target, at) != Failure(TimestampBeforeCurrent))
  {
    hide *;
    MissionRowsStaySound(cfg, run);
    SoundRecord(Replay(run), key, timestamp);
  }

  lemma SoundRecord(s: Stores, key: MissionKey, timestamp: int)
    requires MissionRowsSound(s) && key in s.missions
    ensures var m := s.missions[key].record;
      var at := if timestamp < m.updated then m.updated else timestamp;
      && WellFormed(m) && (m.state == Completed ==> AllConfirmed(m))
      && (forall e :: e in m.effects ==> e.updated <= m.updated)
      && (forall target :: TransitionMission(m, target, at) != Failure(TimestampBeforeCurrent))
      && (forall effectRef, target :: TransitionMissionEffect(m, effectRef, target, at) != Failure(TimestampBeforeCurrent))
  {
    var m := s.missions[key].record;
    var at := if timestamp < m.updated then m.updated else timestamp;
    assert WellFormed(m) && TimesInOrder(m) && CompletionJustified(m);
    hide WellFormed, MissionRowsSound;
    forall effectRef: string, target
      ensures TransitionMissionEffect(m, effectRef, target, at) != Failure(TimestampBeforeCurrent)
    {
      if HasEffect(m, effectRef) { assert EffectOf(m, effectRef) in m.effects; }
    }
  }
}
