/** What every legal run keeps in each store.  Each lemma is an induction over the run. */
module ProtocolInvariants {
  import opened Outcomes
  import opened Missions
  import opened Attempts
  import opened Authorizations
  import opened Protocol

  lemma Unrolled(run: Run)
    requires run != []
    ensures forall b :: b in run <==> b in run[..|run| - 1] || b == run[|run| - 1]
  {
    assert run == run[..|run| - 1] + [run[|run| - 1]];
  }

  // ---- one step, store by store ----

  function AttemptGoal(a: Action): AttemptState
    requires a.TakeAttempt? || a.MoveAttempt?
  {
    if a.TakeAttempt? then InFlight else a.attemptTarget
  }

  /** The attempt table gains a prepared row, has one row moved by a legal transition, or is unchanged. */
  predicate AttemptsStep(s: Stores, s': Stores, a: Action) {
    if a.PrepareAttempt? then
      && a.plan.Id() !in s.attempts
      && s'.attempts == s.attempts[a.plan.Id() := StoredAttempt(InitialAttempt(a.plan, a.at), 1)]
    else if a.TakeAttempt? || a.MoveAttempt? then
      && a.id in s.attempts && (a.MoveAttempt? ==> a.attemptTarget !in {Prepared, InFlight})
      && var next := TransitionAttempt(s.attempts[a.id].record, AttemptGoal(a), a.at);
      && next.Success?
      && s'.attempts == s.attempts[a.id := StoredAttempt(next.value, s.attempts[a.id].revision + 1)]
    else s'.attempts == s.attempts
  }

  function MissionGoal(s: Stores, a: Action): Result<MissionRecord>
    requires (a.MoveMission? || a.MoveEffect?) && a.key in s.missions
  {
    if a.MoveMission? then TransitionMission(s.missions[a.key].record, a.missionTarget, a.at)
    else TransitionMissionEffect(s.missions[a.key].record, a.effectRef, a.effectTarget, a.at)
  }

  predicate MissionsStep(s: Stores, s': Stores, run: Run, a: Action) {
    if a.AdmitMission? then
      && a.record.key !in s.missions && WellFormed(a.record) && a.record.state == Received && AllPlanned(a.record)
      && s'.missions == s.missions[a.record.key := StoredMission(a.record, 1)]
    else if a.MoveMission? || a.MoveEffect? then
      && (a.MoveMission? ==> MayMoveMission(s, a)) && (a.MoveEffect? ==> MayMoveEffect(s, run, a))
      && a.key in s.missions && MissionGoal(s, a).Success?
      && s'.missions == s.missions[a.key := StoredMission(MissionGoal(s, a).value, s.missions[a.key].revision + 1)]
    else s'.missions == s.missions
  }

  predicate LedgerStep(s: Stores, s': Stores, a: Action) {
    if a.ClaimAuthorization? then
      && a.row.state == Claimed && a.row.approval !in s.ledger && !PhaseTaken(s.ledger, a.row.phase, a.row.attemptId)
      && s'.ledger == s.ledger[a.row.approval := a.row]
    else if a.FinalizeAuthorization? then
      && a.approval in s.ledger && s.ledger[a.approval].state == Claimed
      && s'.ledger == s.ledger[a.approval :=
           s.ledger[a.approval].(state := a.authorizationTarget, updated := a.at)]
    else s'.ledger == s.ledger
  }

  predicate ReferencesStep(s: Stores, s': Stores, run: Run, a: Action) {
    if a.RecordReference? then
      && MayRecordReference(s, run, a)
      && s'.references == s.references[a.reference.attemptId := a.reference]
    else s'.references == s.references
  }

  lemma AttemptsAreStepped(cfg: Config, s: Stores, run: Run, a: Action)
    requires Enabled(cfg, s, run, a)
    ensures AttemptsStep(s, Apply(s, a), a)
  {
    hide RunnerAllows, MayMoveMission, MayMoveEffect, MayClaim, MayFinalize, MayAnswerPort, MayRecordReference;
  }

  lemma MissionsAreStepped(cfg: Config, s: Stores, run: Run, a: Action)
    requires Enabled(cfg, s, run, a)
    ensures MissionsStep(s, Apply(s, a), run, a)
  {
    hide RunnerAllows, MayMoveAttempt, MayClaim, MayFinalize, MayAnswerPort, MayRecordReference, EffectMoveWarranted;
    hide WellFormed, AllPlanned;
  }

  lemma LedgerIsStepped(cfg: Config, s: Stores, run: Run, a: Action)
    requires Enabled(cfg, s, run, a)
    ensures LedgerStep(s, Apply(s, a), a) && ReferencesStep(s, Apply(s, a), run, a)
  {
    hide RunnerAllows, MayMoveMission, MayMoveEffect, MayMoveAttempt, MayAnswerPort, MayRecordReference;
  }

  /** The last action of a legal run was enabled, and its effect on each store is one step of that store. */
  lemma StepByStore(cfg: Config, run: Run)
    requires Legal(cfg, run) && run != []
    ensures var before, a := run[..|run| - 1], run[|run| - 1];
      var s, s' := Replay(before), Replay(run);
      && Legal(cfg, before) && Enabled(cfg, s, before, a)
      && AttemptsStep(s, s', a) && MissionsStep(s, s', before, a)
      && LedgerStep(s, s', a) && ReferencesStep(s, s', before, a)
  {
    hide Enabled, Apply, AttemptsStep, MissionsStep, LedgerStep, ReferencesStep;
    var before, a := run[..|run| - 1], run[|run| - 1];
    AttemptsAreStepped(cfg, Replay(before), before, a);
    MissionsAreStepped(cfg, Replay(before), before, a);
    LedgerIsStepped(cfg, Replay(before), before, a);
  }

  // ---- attempts ----

  predicate AttemptRowsSound(s: Stores) {
    forall id :: id in s.attempts ==>
      var row := s.attempts[id];
      && row.record.Id() == id && row.record.created <= row.record.updated
      && 1 <= row.revision <= 1 + Rank(row.record.state)
  }

  lemma AttemptRowsStep(s: Stores, s': Stores, a: Action)
    requires AttemptRowsSound(s) && AttemptsStep(s, s', a)
    ensures AttemptRowsSound(s')
  {
    if a.TakeAttempt? && a.id in s.attempts { TransitionsClimb(s.attempts[a.id].record.state, InFlight); }
    if a.MoveAttempt? && a.id in s.attempts { TransitionsClimb(s.attempts[a.id].record.state, a.attemptTarget); }
  }

  lemma {:induction false} AttemptRowsStaySound(cfg: Config, run: Run)
    requires Legal(cfg, run)
    ensures AttemptRowsSound(Replay(run))
  {
    if run != [] {
      hide *;
      StepByStore(cfg, run);
      AttemptRowsStaySound(cfg, run[..|run| - 1]);
      AttemptRowsStep(Replay(run[..|run| - 1]), Replay(run), run[|run| - 1]);
    }
  }

  predicate TakenIsPastPrepared(s: Stores, run: Run) {
    && (forall b :: b in run && b.TakeAttempt? ==> b.id in s.attempts && s.attempts[b.id].record.state != Prepared)
    && (forall id :: id in s.attempts && s.attempts[id].record.state !in {Prepared, Verified, AttemptState.Blocked} ==>
          exists b :: b in run && b.TakeAttempt? && b.id == id)
  }

  lemma TakenStep(s: Stores, s': Stores, before: Run, a: Action)
    requires TakenIsPastPrepared(s, before) && AttemptsStep(s, s', a)
    ensures TakenIsPastPrepared(s', before + [a])
  {
    var run := before + [a];
    forall id | id in s'.attempts && s'.attempts[id].record.state !in {Prepared, Verified, AttemptState.Blocked}
      ensures exists b :: b in run && b.TakeAttempt? && b.id == id
    {
      if a.TakeAttempt? && a.id == id {
        assert a in run;
      } else {
        var b :| b in before && b.TakeAttempt? && b.id == id;
        assert b in run;
      }
    }
  }

  lemma {:induction false} TakenStaysPastPrepared(cfg: Config, run: Run)
    requires Legal(cfg, run)
    ensures TakenIsPastPrepared(Replay(run), run)
  {
    if run != [] {
      hide *;
      var before, a := run[..|run| - 1], run[|run| - 1];
      StepByStore(cfg, run);
      assert run == before + [a];
      TakenStaysPastPrepared(cfg, before);
      TakenStep(Replay(before), Replay(run), before, a);
    }
  }

  /** The PREPARED to IN_FLIGHT transition of one attempt is won once in a whole run. */
  lemma {:induction false} AttemptIsTakenOnce(cfg: Config, run: Run, b: Action, c: Action)
    requires Legal(cfg, run) && b in run && c in run
    requires b.TakeAttempt? && c.TakeAttempt? && b.id == c.id
    ensures b == c
  {
    var before, a := run[..|run| - 1], run[|run| - 1];
    Unrolled(run);
    TakenStaysPastPrepared(cfg, before);
    if b in before && c in before {
      AttemptIsTakenOnce(cfg, before, b, c);
    }
  }

  // ---- calls and answers need what precedes them ----

  lemma {:induction false} CallNeedsTake(cfg: Config, run: Run, b: Action)
    requires Legal(cfg, run) && b in run && b.CallPort?
    ensures Took(run, b.pid, b.id)
  {
    var before := run[..|run| - 1];
    Unrolled(run);
    if b in before { CallNeedsTake(cfg, before, b); }
  }

  lemma {:induction false} AnswerNeedsCall(cfg: Config, run: Run, b: Action)
    requires Legal(cfg, run) && b in run && b.AnswerPort?
    ensures CallPort(b.pid, b.id) in run
  {
    var before := run[..|run| - 1];
    Unrolled(run);
    if b in before { AnswerNeedsCall(cfg, before, b); }
  }

  /** Two calls of the port for one attempt are the same action. */
  lemma CallIsByTheTaker(cfg: Config, run: Run, b: Action, c: Action)
    requires Legal(cfg, run) && b in run && c in run
    requires b.CallPort? && c.CallPort? && b.id == c.id
    ensures b == c
  {
    CallNeedsTake(cfg, run, b);
    CallNeedsTake(cfg, run, c);
    var t :| t in run && t.TakeAttempt? && t.pid == b.pid && t.id == b.id;
    var u :| u in run && u.TakeAttempt? && u.pid == c.pid && u.id == c.id;
    AttemptIsTakenOnce(cfg, run, t, u);
  }

  /** One attempt gets one answer from the port. */
  lemma {:induction false} PortAnswersOnce(cfg: Config, run: Run, b: Action, c: Action)
    requires Legal(cfg, run) && b in run && c in run
    requires b.AnswerPort? && c.AnswerPort? && b.id == c.id
    ensures b == c
  {
    var before := run[..|run| - 1];
    Unrolled(run);
    AnswerNeedsCall(cfg, run, b);
    AnswerNeedsCall(cfg, run, c);
    CallIsByTheTaker(cfg, run, CallPort(b.pid, b.id), CallPort(c.pid, c.id));
    if b in before && c in before { PortAnswersOnce(cfg, before, b, c); }
  }

  // ---- provider references ----

  predicate ReferencesSound(s: Stores) {
    && (forall id :: id in s.references ==>
          && s.references[id].attemptId == id && id in s.attempts
          && s.references[id].fingerprint == s.attempts[id].record.plan.fingerprint
          && s.references[id].namespace == s.attempts[id].record.plan.namespace)
    && (forall i, j :: (i in s.references && j in s.references
          && s.references[i].namespace == s.references[j].namespace
          && s.references[i].reference == s.references[j].reference) ==> i == j)
  }

  lemma ReferencesSoundStep(s: Stores, s': Stores, before: Run, a: Action)
    requires ReferencesSound(s) && AttemptsStep(s, s', a) && ReferencesStep(s, s', before, a)
    ensures ReferencesSound(s')
  {
    hide ProviderSaid, InitialAttempt, AttemptsStep, ReferencesSound;
    PlansStand(s, s', a);
    if a.RecordReference? {
      NewReferenceIsSound(s, s', a);
    } else {
      OldReferencesAreSound(s, s');
    }
  }

  predicate PlansKept(s: Stores, s': Stores) {
    forall id :: id in s.attempts ==> id in s'.attempts && s'.attempts[id].record.plan == s.attempts[id].record.plan
  }

  lemma PlansStand(s: Stores, s': Stores, a: Action)
    requires AttemptsStep(s, s', a)
    ensures PlansKept(s, s') && (a.RecordReference? ==> s'.attempts == s.attempts)
  {
  }

  lemma OldReferencesAreSound(s: Stores, s': Stores)
    requires ReferencesSound(s) && PlansKept(s, s') && s'.references == s.references
    ensures ReferencesSound(s')
  {
  }

  lemma NewReferenceIsSound(s: Stores, s': Stores, a: Action)
    requires ReferencesSound(s) && a.RecordReference? && s'.attempts == s.attempts
    requires a.reference.attemptId !in s.references && CreateReferenceIn(s.references, a.reference).Success?
    requires a.reference.attemptId in s.attempts
    requires a.reference.fingerprint == s.attempts[a.reference.attemptId].record.plan.fingerprint
    requires a.reference.namespace == s.attempts[a.reference.attemptId].record.plan.namespace
    requires s'.references == s.references[a.reference.attemptId := a.reference]
    ensures ReferencesSound(s')
  {
  }

  lemma {:induction false} ReferencesStaySound(cfg: Config, run: Run)
    requires Legal(cfg, run)
    ensures ReferencesSound(Replay(run))
  {
    if run != [] {
      hide *;
      var before, a := run[..|run| - 1], run[|run| - 1];
      StepByStore(cfg, run);
      ReferencesStaySound(cfg, before);
      ReferencesSoundStep(Replay(before), Replay(run), before, a);
    }
  }

  predicate AnswersAreHonest(s: Stores, run: Run) {
    && (forall b :: b in run && b.AnswerPort? && b.accepted ==> b.id in s.references)
    && (forall id :: id in s.attempts && s.attempts[id].record.state == ProviderAcknowledged ==>
          exists b :: b in run && b.AnswerPort? && b.id == id && b.accepted)
    && (forall id :: id in s.attempts && s.attempts[id].record.state == AttemptState.FailedFinal ==>
          exists b :: b in run && b.AnswerPort? && b.id == id && !b.accepted)
  }

  lemma AnswersStep(cfg: Config, s: Stores, s': Stores, before: Run, a: Action)
    requires AnswersAreHonest(s, before) && Enabled(cfg, s, before, a)
    requires AttemptsStep(s, s', a) && ReferencesStep(s, s', before, a)
    ensures AnswersAreHonest(s', before + [a])
  {
    var run := before + [a];
    forall id | id in s'.attempts && s'.attempts[id].record.state == ProviderAcknowledged
      ensures exists b :: b in run && b.AnswerPort? && b.id == id && b.accepted
    {
      if a.MoveAttempt? && a.id == id {
        assert AnswerPort(a.pid, a.id, true) in run;
      } else {
        var b :| b in before && b.AnswerPort? && b.id == id && b.accepted;
        assert b in run;
      }
    }
    forall id | id in s'.attempts && s'.attempts[id].record.state == AttemptState.FailedFinal
      ensures exists b :: b in run && b.AnswerPort? && b.id == id && !b.accepted
    {
      if a.MoveAttempt? && a.id == id && s'.attempts != s.attempts {
        assert AnswerPort(a.pid, a.id, false) in run;
      } else {
        var b :| b in before && b.AnswerPort? && b.id == id && !b.accepted;
        assert b in run;
      }
    }
  }

  lemma {:induction false} AnswersStayHonest(cfg: Config, run: Run)
    requires Legal(cfg, run)
    ensures AnswersAreHonest(Replay(run), run)
  {
    if run == [] { return; }
    hide *;
    var before, a := run[..|run| - 1], run[|run| - 1];
    StepByStore(cfg, run);
    assert run == before + [a];
    AnswersStayHonest(cfg, before);
    AnswersStep(cfg, Replay(before), Replay(run), before, a);
  }

  // ---- how one row changes along a run ----

  /** Standing of a Mission in admission: 0 received, 1 validated, 2 admitted. */
  function AdmissionRank(state: MissionState): nat {
    match state
    case Received => 0
    case Validated => 1
    case _ => 2
  }

  /** The row later in a run, seen from the row earlier in it. */
  predicate MissionEvolves(r: StoredMission, r': StoredMission) {
    && SameIdentity(r.record, r'.record) && KeepsFinalEffects(r.record, r'.record)
    && r.record.updated <= r'.record.updated
    && r.revision <= r'.revision && (r.revision == r'.revision ==> r == r')
    && (FinalMission(r.record.state) ==> r'.record.state == r.record.state)
    && AdmissionRank(r.record.state) <= AdmissionRank(r'.record.state)
    && (r.revision < r'.revision && AdmissionRank(r.record.state) < 2 ==>
          AdmissionRank(r.record.state) < AdmissionRank(r'.record.state))
  }

  /** Looking an effect up later finds the same effect: same economics, and still confirmed if it was. */
  lemma LookupEvolves(r: StoredMission, r': StoredMission, effectRef: string)
    requires MissionEvolves(r, r')
    ensures IndexOf(r'.record.effects, effectRef) == IndexOf(r.record.effects, effectRef)
    ensures HasEffect(r.record, effectRef) <==> HasEffect(r'.record, effectRef)
    ensures HasEffect(r.record, effectRef) ==>
      SameEconomics(EffectOf(r.record, effectRef), EffectOf(r'.record, effectRef))
    ensures EffectIs(r.record, effectRef, ChainConfirmed) ==> EffectIs(r'.record, effectRef, ChainConfirmed)
  {
    var (m, m') := (r.record, r'.record);
    forall i | 0 <= i < |m.effects| ensures m'.effects[i].effectRef == m.effects[i].effectRef {
      assert SameEconomics(m.effects[i], m'.effects[i]);
    }
    SameIdentityKeepsLookup(m, m', effectRef);
    assert Terminal(ChainConfirmed);
  }

  predicate AttemptEvolves(r: StoredAttempt, r': StoredAttempt) {
    && r'.record.plan == r.record.plan && r'.record.created == r.record.created
    && r.record.updated <= r'.record.updated
    && r.revision <= r'.revision && (r.revision == r'.revision ==> r == r')
    && r'.revision - r.revision <= Rank(r'.record.state) - Rank(r.record.state)
    && (Rank(r.record.state) == 4 ==> r' == r)
  }

  /** A ledger row keeps its terms; once final it never changes. */
  predicate AuthorizationEvolves(r: Authorization, r': Authorization) {
    && r' == r.(state := r'.state, updated := r'.updated)
    && (r.state != Claimed ==> r' == r)
  }

  predicate StoresEvolve(s: Stores, s': Stores) {
    && (forall k :: k in s.missions ==> k in s'.missions && MissionEvolves(s.missions[k], s'.missions[k]))
    && (forall id :: id in s.attempts ==> id in s'.attempts && AttemptEvolves(s.attempts[id], s'.attempts[id]))
    && (forall a :: a in s.ledger ==> a in s'.ledger && AuthorizationEvolves(s.ledger[a], s'.ledger[a]))
    && (forall id :: id in s.references ==> id in s'.references && s'.references[id] == s.references[id])
  }

  // ---- Missions ----

  predicate MissionRowsSound(s: Stores) {
    forall key :: key in s.missions ==>
      && s.missions[key].record.key == key && s.missions[key].revision >= 1
      && WellFormed(s.missions[key].record) && CompletionJustified(s.missions[key].record)
  }

  lemma MissionMoveEvolves(r: StoredMission, target: MissionState, at: int)
    requires WellFormed(r.record) && TransitionMission(r.record, target, at).Success?
    ensures var m' := TransitionMission(r.record, target, at).value;
      MissionEvolves(r, StoredMission(m', r.revision + 1))
  {
    hide WellFormed;
    MissionMoveKeepsRecord(r.record, target, at);
  }

  lemma EffectMoveEvolves(r: StoredMission, effectRef: string, target: EffectState, at: int)
    requires WellFormed(r.record) && CompletionJustified(r.record)
    requires TransitionMissionEffect(r.record, effectRef, target, at).Success?
    requires r.record.state !in {Received, Validated}
    ensures var m' := TransitionMissionEffect(r.record, effectRef, target, at).value;
      MissionEvolves(r, StoredMission(m', r.revision + 1))
  {
    hide WellFormed;
    EffectMoveKeepsRecord(r.record, effectRef, target, at);
  }

  lemma MissionGoalEvolves(s: Stores, before: Run, a: Action)
    requires MissionRowsSound(s) && (a.MoveMission? || a.MoveEffect?) && a.key in s.missions
    requires if a.MoveMission? then MayMoveMission(s, a) else MayMoveEffect(s, before, a)
    ensures MissionGoal(s, a).Success?
    ensures var r := s.missions[a.key];
      var r' := StoredMission(MissionGoal(s, a).value, r.revision + 1);
      WellFormed(r'.record) && CompletionJustified(r'.record) && r'.record.key == a.key && MissionEvolves(r, r')
  {
    var r := s.missions[a.key];
    hide WellFormed, MissionEvolves, CompletionJustified;
    if a.MoveMission? {
      MissionMoveKeepsRecord(r.record, a.missionTarget, a.at);
      MissionMoveEvolves(r, a.missionTarget, a.at);
    } else {
      EffectMoveKeepsRecord(r.record, a.effectRef, a.effectTarget, a.at);
      EffectMoveEvolves(r, a.effectRef, a.effectTarget, a.at);
    }
  }

  lemma MissionRowsStep(s: Stores, s': Stores, before: Run, a: Action)
    requires MissionRowsSound(s) && MissionsStep(s, s', before, a)
    ensures MissionRowsSound(s')
  {
    hide WellFormed, CompletionJustified, MissionGoal, MayMoveMission, MayMoveEffect, MissionEvolves;
    if a.MoveMission? || a.MoveEffect? {
      MissionGoalEvolves(s, before, a);
    } else if a.AdmitMission? {
      InitialIsJustified(a.record);
    }
  }

  lemma InitialIsJustified(m: MissionRecord)
    requires m.state == Received
    ensures CompletionJustified(m)
  {
  }

  lemma {:induction false} MissionRowsStaySound(cfg: Config, run: Run)
    requires Legal(cfg, run)
    ensures MissionRowsSound(Replay(run))
  {
    if run != [] {
      hide *;
      var before, a := run[..|run| - 1], run[|run| - 1];
      StepByStore(cfg, run);
      MissionRowsStaySound(cfg, before);
      MissionRowsStep(Replay(before), Replay(run), before, a);
    }
  }

  lemma EvolutionIsTransitive(s: Stores, t: Stores, u: Stores)
    requires StoresEvolve(s, t) && StoresEvolve(t, u)
    ensures StoresEvolve(s, u)
  {
    forall k | k in s.missions ensures k in u.missions && MissionEvolves(s.missions[k], u.missions[k]) {
      MissionEvolutionIsTransitive(s.missions[k], t.missions[k], u.missions[k]);
    }
  }

  lemma MissionEvolutionIsTransitive(r: StoredMission, r': StoredMission, r'': StoredMission)
    requires MissionEvolves(r, r') && MissionEvolves(r', r'')
    ensures MissionEvolves(r, r'')
  {
    forall i | 0 <= i < |r.record.effects| ensures SameEconomics(r.record.effects[i], r''.record.effects[i]) {
      assert SameEconomics(r.record.effects[i], r'.record.effects[i]);
      assert SameEconomics(r'.record.effects[i], r''.record.effects[i]);
    }
  }

  lemma MissionsStepEvolves(s: Stores, s': Stores, before: Run, a: Action)
    requires MissionRowsSound(s) && MissionsStep(s, s', before, a)
    ensures forall k :: k in s.missions ==> k in s'.missions && MissionEvolves(s.missions[k], s'.missions[k])
  {
    hide WellFormed, CompletionJustified, MissionGoal, MayMoveMission, MayMoveEffect, MissionEvolves;
    if a.MoveMission? || a.MoveEffect? {
      MissionGoalEvolves(s, before, a);
    }
    forall k | k in s.missions ensures k in s'.missions && MissionEvolves(s.missions[k], s'.missions[k]) {
      UnchangedMissionEvolves(s.missions[k]);
    }
  }

  lemma UnchangedMissionEvolves(r: StoredMission)
    ensures MissionEvolves(r, r)
  {
  }

  lemma AttemptsStepEvolves(s: Stores, s': Stores, a: Action)
    requires AttemptsStep(s, s', a)
    ensures forall id :: id in s.attempts ==> id in s'.attempts && AttemptEvolves(s.attempts[id], s'.attempts[id])
  {
    if a.TakeAttempt? || a.MoveAttempt? {
      TransitionsClimb(s.attempts[a.id].record.state, AttemptGoal(a));
    }
  }

  lemma StepEvolves(cfg: Config, run: Run)
    requires Legal(cfg, run) && run != []
    ensures StoresEvolve(Replay(run[..|run| - 1]), Replay(run))
  {
    var before, a := run[..|run| - 1], run[|run| - 1];
    var s, s' := Replay(before), Replay(run);
    StepByStore(cfg, run);
    hide *;
    MissionRowsStaySound(cfg, before);
    MissionsStepEvolves(s, s', before, a);
    AttemptsStepEvolves(s, s', a);
    OtherStoresEvolve(s, s', before, a);
  }

  lemma OtherStoresEvolve(s: Stores, s': Stores, before: Run, a: Action)
    requires LedgerStep(s, s', a) && ReferencesStep(s, s', before, a)
    requires forall k :: k in s.missions ==> k in s'.missions && MissionEvolves(s.missions[k], s'.missions[k])
    requires forall id :: id in s.attempts ==> id in s'.attempts && AttemptEvolves(s.attempts[id], s'.attempts[id])
    ensures StoresEvolve(s, s')
  {
    hide MissionEvolves, AttemptEvolves;
  }

  /** No store ever loses, rewrites or rolls back a row. */
  lemma {:induction false} RunEvolves(cfg: Config, run: Run, n: nat)
    requires Legal(cfg, run) && n <= |run|
    ensures StoresEvolve(Replay(run[..n]), Replay(run))
  {
    if n == |run| {
      assert run[..n] == run;
    } else {
      var before := run[..|run| - 1];
      RunEvolves(cfg, before, n);
      assert before[..n] == run[..n];
      StepEvolves(cfg, run);
      EvolutionIsTransitive(Replay(run[..n]), Replay(before), Replay(run));
    }
  }
}
