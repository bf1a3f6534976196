/** Dying in the middle of a recovery: from which of its crash points can exact evidence still finish the attempt? */
module CrashRecovery {
  import opened Outcomes
  import opened MissionIdentity
  import opened Missions
  import opened Attempts
  import opened Evidence
  import opened Protocol
  import opened ProtocolInvariants
  import opened Deployment
  import opened CasSteps
  import opened Projection
  import opened Reconciliation
  import ProtocolSafety

  /** Exact evidence still ends in VERIFIED: the attempt is finished already, or it is recoverable. */
  predicate Salvageable(s: Stores, id: AttemptId) {
    Locatable(s, id) && (Finished(s, id) || Recoverable(s, id))
  }

  /** Another effect of the Mission is FAILED_FINAL or BLOCKED. */
  predicate OtherStuck(m: MissionRecord, effectRef: string) {
    exists i :: 0 <= i < |m.effects| && m.effects[i].effectRef != effectRef
      && m.effects[i].state in {EffectState.FailedFinal, EffectState.Blocked}
  }

  predicate OthersStuck(s: Stores, id: AttemptId)
    requires Locatable(s, id)
  {
    OtherStuck(s.missions[id.effect.mission].record, id.effect.effectRef)
  }

  /** The run after the first n of these steps: a point at which the process may die. */
  function After(run: Run, steps: Run, n: nat): Run
    requires n <= |steps|
  {
    run + steps[..n]
  }

  lemma AfterNone(run: Run, steps: Run)
    ensures After(run, steps, 0) == run
  {
  }

  lemma AfterOne(run: Run, a: Action)
    ensures After(run, [a], 1) == run + [a]
  {
    assert [a][..1] == [a];
  }

  /** These steps are first a and then b. */
  predicate Joins(steps: Run, a: Run, b: Run) {
    steps == a + b
  }

  lemma AfterFewer(run: Run, steps: Run, a: Run, b: Run, n: nat)
    requires Joins(steps, a, b) && n <= |a|
    ensures n <= |steps| == |a| + |b| && After(run, steps, n) == After(run, a, n)
  {
    assert (a + b)[..n] == a[..n];
  }

  lemma AfterMore(run: Run, steps: Run, a: Run, b: Run, n: nat)
    requires Joins(steps, a, b) && n <= |b|
    ensures |steps| == |a| + |b| && After(run, steps, |a| + n) == After(After(run, a, |a|), b, n)
  {
    assert (a + b)[..|a| + n] == a + b[..n] && a[..|a|] == a;
  }

  // ---- one write of the recovering process ----

  lemma MissionWrite(cfg: Config, run: Run, pid: Pid, key: MissionKey, target: MissionState, at: int)
    requires Legal(cfg, run) && key in Replay(run).missions
    requires TransitionMission(Replay(run).missions[key].record, target, at).Success?
    ensures var (s, more) := (Replay(run), run + [MoveMission(pid, key, target, at)]);
      && Legal(cfg, more)
      && Replay(more) == s.(missions := s.missions[key :=
           StoredMission(s.missions[key].record.(state := target, updated := at), s.missions[key].revision + 1)])
  {
    hide Legal, Replay, WellFormed, AllConfirmed;
    StepExtends(cfg, run, MoveMission(pid, key, target, at));
  }

  lemma EffectWrite(cfg: Config, run: Run, pid: Pid, id: AttemptId, target: EffectState, at: int)
    requires Legal(cfg, run) && EffectInMission(Replay(run), id)
    requires Replay(run).missions[id.effect.mission].record.state !in {Received, Validated}
    requires target == NextEffectState(EffectBehind(Replay(run), id).state)
    requires EffectBehind(Replay(run), id).state in {Planned, Reserved, Submitted, EffectState.ExecutionUnknown}
    requires Witnessed(run, pid, id, EffectBehind(Replay(run), id))
    requires Replay(run).missions[id.effect.mission].record.updated <= at
    ensures var (s, more) := (Replay(run), run + [MoveEffect(pid, id.effect.mission, id.effect.effectRef, target, at)]);
      var key := id.effect.mission;
      && Legal(cfg, more) && key in Replay(more).missions
      && Replay(more) == s.(missions := s.missions[key := Replay(more).missions[key]])
      && OnlyEffectMoved(s.missions[key].record, Replay(more).missions[key].record, id.effect.effectRef)
      && Replay(more).missions[key].record.state == s.missions[key].record.state
      && Replay(more).missions[key].record.updated == at
      && EffectIs(Replay(more).missions[key].record, id.effect.effectRef, target)
  {
    var (s, key) := (Replay(run), id.effect.mission);
    var m := s.missions[key].record;
    hide Legal, Replay, Witnessed;
    SoundMission(cfg, run, key);
    RowIsOrdered(cfg, run, s.missions[key]);
    assert AttemptFor(key, id.effect.effectRef) == id;
    hide TimesInOrder, TransitionMissionEffect, IndexOf, MissionSnapshot;
    var r := TransitionMissionEffect(m, id.effect.effectRef, target, at);
    assert Clamped(at, m.updated) == at;
    MovingOneEffect(m, r.value, id.effect.effectRef, target, at);
    StepExtends(cfg, run, MoveEffect(pid, key, id.effect.effectRef, target, at));
  }

  lemma MarkWrite(cfg: Config, run: Run, pid: Pid, id: AttemptId, at: int)
    requires Legal(cfg, run) && id in Replay(run).attempts
    requires TransitionAttempt(Replay(run).attempts[id].record, Verified, at).Success?
    requires ChainConfirmedIn(Replay(run), id) && Witnessed(run, pid, id, EffectBehind(Replay(run), id))
    ensures var more := run + [MoveAttempt(pid, id, Verified, at)];
      && Legal(cfg, more) && Replay(more).missions == Replay(run).missions
      && id in Replay(more).attempts && Replay(more).attempts[id].record.state == Verified
      && Replay(more).attempts[id].record.plan == Replay(run).attempts[id].record.plan
  {
    hide Witnessed;
    StepExtends(cfg, run, MoveAttempt(pid, id, Verified, at));
  }

  // ---- from the stores s to stores on the way ----

  /** The stores differ at most in the Mission's row, and there in its state, its time and the progress of this effect. */
  predicate Between(s: Stores, s': Stores, id: AttemptId, t: int) {
    && Locatable(s, id) && id.effect.mission in s'.missions
    && s' == s.(missions := s.missions[id.effect.mission := s'.missions[id.effect.mission]])
    && var (m, m') := (s.missions[id.effect.mission].record, s'.missions[id.effect.mission].record);
    && OnlyEffectMoved(m, m', id.effect.effectRef) && !Stuck(m', id.effect.effectRef)
    && m.updated <= m'.updated <= t
  }

  lemma NothingBetween(s: Stores, id: AttemptId, t: int)
    requires Locatable(s, id) && !Stuck(s.missions[id.effect.mission].record, id.effect.effectRef)
    requires s.missions[id.effect.mission].record.updated <= t
    ensures Between(s, s, id, t)
  {
  }

  lemma MissionWriteBetween(s: Stores, s': Stores, id: AttemptId, target: MissionState, t: int, revision: nat)
    requires Locatable(s, id) && !Stuck(s.missions[id.effect.mission].record, id.effect.effectRef)
    requires s.missions[id.effect.mission].record.updated <= t
    requires s' == s.(missions := s.missions[id.effect.mission :=
      StoredMission(s.missions[id.effect.mission].record.(state := target, updated := t), revision)])
    ensures Between(s, s', id, t)
    ensures s'.missions[id.effect.mission].record.effects == s.missions[id.effect.mission].record.effects
    ensures s'.missions[id.effect.mission].record.state == target
  {
    assert s.missions[id.effect.mission := s'.missions[id.effect.mission]] == s'.missions;
  }

  lemma EffectWriteBetween(s: Stores, s': Stores, id: AttemptId, t: int)
    requires Locatable(s, id) && id.effect.mission in s'.missions
    requires s' == s.(missions := s.missions[id.effect.mission := s'.missions[id.effect.mission]])
    requires OnlyEffectMoved(s.missions[id.effect.mission].record, s'.missions[id.effect.mission].record, id.effect.effectRef)
    requires !Stuck(s'.missions[id.effect.mission].record, id.effect.effectRef)
    requires s.missions[id.effect.mission].record.updated <= s'.missions[id.effect.mission].record.updated == t
    ensures Between(s, s', id, t) && Locatable(s', id)
    ensures SameEconomics(EffectBehind(s, id), EffectBehind(s', id))
  {
  }

  lemma BetweenIsLocatable(s: Stores, s': Stores, id: AttemptId, t: int)
    requires Between(s, s', id, t)
    ensures Locatable(s', id) && s'.attempts == s.attempts
    ensures SameEconomics(EffectBehind(s, id), EffectBehind(s', id))
    ensures s.attempts[id].record.state !in {AttemptState.FailedFinal, AttemptState.Blocked, Verified} ==>
      (Salvageable(s', id) <==> Reconcilable(s'.missions[id.effect.mission].record.state))
  {
  }

  lemma BetweenComposes(s: Stores, s': Stores, s'': Stores, id: AttemptId, t: int)
    requires Between(s, s', id, t) && Between(s', s'', id, t)
    ensures Between(s, s'', id, t)
  {
    MovesCompose(s.missions[id.effect.mission].record, s'.missions[id.effect.mission].record,
      s''.missions[id.effect.mission].record, id.effect.effectRef);
  }

  lemma WitnessOnTheWay(run: Run, later: Run, pid: Pid, id: AttemptId, e: EffectRecord, e': EffectRecord)
    requires run <= later && SameEconomics(e, e') && Witnessed(run, pid, id, e)
    ensures Witnessed(later, pid, id, e')
  {
    WitnessStands(run, later, pid, id, e, e');
  }

  // ---- the phases of a recovery ----

  function MissionOf(s: Stores, id: AttemptId): MissionRecord
    requires id.effect.mission in s.missions
  {
    s.missions[id.effect.mission].record
  }

  /** later continues run legally on the way of a recovery, which has brought the Mission to this state and, if done,
      the effect to the top. */
  predicate Midway(cfg: Config, run: Run, later: Run, id: AttemptId, t: int, state: MissionState, done: bool) {
    && run <= later && Legal(cfg, later) && Between(Replay(run), Replay(later), id, t)
    && MissionOf(Replay(later), id).state == state && (done ==> ChainConfirmedIn(Replay(later), id))
  }

  lemma MidwayComposes(
    cfg: Config, run: Run, more: Run, later: Run, id: AttemptId, t: int, state: MissionState, state': MissionState,
    before: bool, done: bool)
    requires Midway(cfg, run, more, id, t, state, before) && Midway(cfg, more, later, id, t, state', done)
    ensures Midway(cfg, run, later, id, t, state', done)
  {
    hide Legal, Replay;
    BetweenComposes(Replay(run), Replay(more), Replay(later), id, t);
  }

  lemma MidwayAnyway(cfg: Config, run: Run, later: Run, id: AttemptId, t: int, state: MissionState, done: bool)
    requires Midway(cfg, run, later, id, t, state, done)
    ensures Midway(cfg, run, later, id, t, state, false)
  {
    hide Legal, Replay, Between;
  }

  lemma MidwayState(cfg: Config, run: Run, later: Run, id: AttemptId, t: int, state: MissionState, done: bool)
    requires Midway(cfg, run, later, id, t, state, done)
    ensures Legal(cfg, later) && id.effect.mission in Replay(later).missions && MissionOf(Replay(later), id).state == state
  {
    hide Legal, Replay;
  }

  lemma MissionWritePoint(cfg: Config, run: Run, pid: Pid, id: AttemptId, target: MissionState, t: int)
    requires Legal(cfg, run) && Locatable(Replay(run), id)
    requires !Stuck(MissionOf(Replay(run), id), id.effect.effectRef) && MissionOf(Replay(run), id).updated <= t
    requires TransitionMission(MissionOf(Replay(run), id), target, t).Success?
    ensures var later := run + [MoveMission(pid, id.effect.mission, target, t)];
      && Midway(cfg, run, later, id, t, target, ChainConfirmedIn(Replay(run), id))
      && MissionOf(Replay(later), id).effects == MissionOf(Replay(run), id).effects
  {
    var later := run + [MoveMission(pid, id.effect.mission, target, t)];
    hide Legal, Replay, Stuck, Between, Missions.TransitionMission;
    MissionWrite(cfg, run, pid, id.effect.mission, target, t);
    MissionWriteBetween(Replay(run), Replay(later), id, target, t, Replay(run).missions[id.effect.mission].revision + 1);
  }

  lemma NowherePoint(cfg: Config, run: Run, id: AttemptId, t: int)
    requires Legal(cfg, run) && Locatable(Replay(run), id)
    requires !Stuck(MissionOf(Replay(run), id), id.effect.effectRef) && MissionOf(Replay(run), id).updated <= t
    ensures Midway(cfg, run, run, id, t, MissionOf(Replay(run), id).state, ChainConfirmedIn(Replay(run), id))
  {
    hide Legal, Replay, Stuck, Between;
    NothingBetween(Replay(run), id, t);
  }

  /** Where a recovery finds or brings the Mission before it touches the effect. */
  function OpenedState(m: MissionRecord): MissionState {
    if m.state == Completed then Completed else Reconciling
  }

  lemma OpeningPoint(cfg: Config, run: Run, pid: Pid, id: AttemptId, at: int, m: MissionRecord, n: nat)
    requires Legal(cfg, run) && Locatable(Replay(run), id) && m == MissionOf(Replay(run), id)
    requires Reconcilable(m.state) && !Stuck(m, id.effect.effectRef) && n <= |Opening(pid, m, at)|
    ensures var later := After(run, Opening(pid, m, at), n);
      && Midway(cfg, run, later, id, Clamped(at, m.updated),
           if n < |Opening(pid, m, at)| then m.state else OpenedState(m), false)
      && MissionOf(Replay(later), id).effects == m.effects
  {
    hide *;
    var t := Clamped(at, m.updated);
    OpeningIsOneStep(cfg, run, pid, id, at, m);
    if n == 0 {
      AfterNone(run, Opening(pid, m, at));
      NowherePoint(cfg, run, id, t);
      MidwayAnyway(cfg, run, run, id, t, m.state, ChainConfirmedIn(Replay(run), id));
    } else {
      var move := MoveMission(pid, id.effect.mission, Reconciling, t);
      AfterOne(run, move);
      MissionWritePoint(cfg, run, pid, id, Reconciling, t);
      MidwayAnyway(cfg, run, run + [move], id, t, Reconciling, ChainConfirmedIn(Replay(run), id));
    }
  }

  lemma OpeningIsOneStep(cfg: Config, run: Run, pid: Pid, id: AttemptId, at: int, m: MissionRecord)
    requires Legal(cfg, run) && Locatable(Replay(run), id) && m == MissionOf(Replay(run), id) && Reconcilable(m.state)
    ensures m.updated <= Clamped(at, m.updated)
    ensures if OpenedState(m) == m.state then Opening(pid, m, at) == []
      else
        && Opening(pid, m, at) == [MoveMission(pid, id.effect.mission, Reconciling, Clamped(at, m.updated))]
        && OpenedState(m) == Reconciling && TransitionMission(m, Reconciling, Clamped(at, m.updated)).Success?
  {
    hide Legal, Replay;
    SoundMission(cfg, run, id.effect.mission);
  }

  /** This process is about to move the effect on from the given state. */
  predicate MayClimb(cfg: Config, run: Run, pid: Pid, id: AttemptId, state: EffectState, t: int) {
    && Legal(cfg, run) && Locatable(Replay(run), id)
    && MissionOf(Replay(run), id).state in {Reconciling, Completed} && MissionOf(Replay(run), id).updated <= t
    && EffectBehind(Replay(run), id).state == state && state !in {EffectState.FailedFinal, EffectState.Blocked}
    && Witnessed(run, pid, id, EffectBehind(Replay(run), id))
  }

  lemma ClimbStep(cfg: Config, run: Run, pid: Pid, id: AttemptId, state: EffectState, t: int)
    requires MayClimb(cfg, run, pid, id, state, t) && state != ChainConfirmed
    ensures var later := run + [MoveEffect(pid, id.effect.mission, id.effect.effectRef, NextEffectState(state), t)];
      && MayClimb(cfg, later, pid, id, NextEffectState(state), t)
      && Midway(cfg, run, later, id, t, MissionOf(Replay(run), id).state, false)
      && MissionOf(Replay(later), id).state == MissionOf(Replay(run), id).state
  {
    var later := run + [MoveEffect(pid, id.effect.mission, id.effect.effectRef, NextEffectState(state), t)];
    hide Legal, Replay, Witnessed;
    EffectWrite(cfg, run, pid, id, NextEffectState(state), t);
    hide OnlyEffectMoved, Between;
    EffectWriteBetween(Replay(run), Replay(later), id, t);
    WitnessOnTheWay(run, later, pid, id, EffectBehind(Replay(run), id), EffectBehind(Replay(later), id));
  }

  lemma ClimberStands(cfg: Config, run: Run, pid: Pid, id: AttemptId, state: EffectState, t: int)
    requires MayClimb(cfg, run, pid, id, state, t)
    ensures id.effect.mission in Replay(run).missions
    ensures Midway(cfg, run, run, id, t, MissionOf(Replay(run), id).state, state == ChainConfirmed)
    ensures Midway(cfg, run, run, id, t, MissionOf(Replay(run), id).state, false)
    ensures state in {Planned, Reserved, Submitted, EffectState.ExecutionUnknown, ChainConfirmed}
  {
    hide Legal, Replay, Witnessed;
    NowherePoint(cfg, run, id, t);
  }

  lemma {:induction false} ClimbPoint(
    cfg: Config, run: Run, pid: Pid, id: AttemptId, state: EffectState, t: int, n: nat)
    requires MayClimb(cfg, run, pid, id, state, t)
    requires n <= |Climb(pid, id.effect.mission, id.effect.effectRef, state, t)|
    ensures var climb := Climb(pid, id.effect.mission, id.effect.effectRef, state, t);
      Midway(cfg, run, After(run, climb, n), id, t, MissionOf(Replay(run), id).state, n == |climb|)
    decreases 3 - Progress(state)
  {
    var climb := Climb(pid, id.effect.mission, id.effect.effectRef, state, t);
    hide MayClimb, Midway, Legal, Replay, After;
    ClimberStands(cfg, run, pid, id, state, t);
    if n == 0 {
      AfterNone(run, climb);
    } else {
      var next := NextEffectState(state);
      var move := MoveEffect(pid, id.effect.mission, id.effect.effectRef, next, t);
      var rest := Climb(pid, id.effect.mission, id.effect.effectRef, next, t);
      assert Joins(climb, [move], rest);
      hide Joins;
      ClimbStep(cfg, run, pid, id, state, t);
      ClimbPoint(cfg, run + [move], pid, id, next, t, n - 1);
      hide Climb;
      AfterOne(run, move);
      AfterMore(run, climb, [move], rest, n - 1);
      var mission := MissionOf(Replay(run), id).state;
      MidwayComposes(cfg, run, run + [move], After(run + [move], rest, n - 1), id, t, mission, mission, false, n == |climb|);
    }
  }

  /** Where the Mission settles is a state that can be reconciled if and only if no other effect is stuck. */
  lemma SettlesReconcilably(m: MissionRecord, m': MissionRecord, effectRef: string)
    requires OnlyEffectMoved(m, m', effectRef) && EffectIs(m', effectRef, ChainConfirmed) && DistinctRefs(m.effects)
    ensures SettledState(m') == ManualReviewRequired <==> OtherStuck(m, effectRef)
    ensures Reconcilable(SettledState(m')) <==> !OtherStuck(m, effectRef)
  {
    var k := IndexOf(m.effects, effectRef);
    if OtherStuck(m, effectRef) {
      var i :| 0 <= i < |m.effects| && m.effects[i].effectRef != effectRef
        && m.effects[i].state in {EffectState.FailedFinal, EffectState.Blocked};
      assert m'.effects[i] == m.effects[i] && m'.effects[i] in m'.effects;
    }
    if SettledState(m') == ManualReviewRequired {
      var i :| 0 <= i < |m'.effects| && m'.effects[i].state in {EffectState.FailedFinal, EffectState.Blocked};
      assert m'.effects[i] == m.effects[i] && m.effects[i].effectRef != m.effects[k].effectRef;
    }
  }

  lemma SettlingIsOpen(cfg: Config, run: Run, id: AttemptId, m: MissionRecord, t: int)
    requires Legal(cfg, run) && id.effect.mission in Replay(run).missions && m == MissionOf(Replay(run), id)
    requires m.updated <= t && m.state in {Reconciling, Completed}
    ensures m.key == id.effect.mission
    ensures SettledState(m) != m.state ==> TransitionMission(m, SettledState(m), t).Success?
  {
    hide Legal, Replay;
    SoundMission(cfg, run, id.effect.mission);
    RowIsOrdered(cfg, run, Replay(run).missions[id.effect.mission]);
    hide MissionSnapshot;
  }

  lemma SettlingPoint(cfg: Config, run: Run, pid: Pid, id: AttemptId, at: int, t: int, m: MissionRecord, n: nat)
    requires Legal(cfg, run) && Locatable(Replay(run), id) && ChainConfirmedIn(Replay(run), id)
    requires m == MissionOf(Replay(run), id) && m.updated <= t == Clamped(at, m.updated)
    requires m.state in {Reconciling, Completed} && n <= |Settling(pid, m, m.state, SettledState(m), at)|
    ensures var settling := Settling(pid, m, m.state, SettledState(m), at);
      Midway(cfg, run, After(run, settling, n), id, t, if n < |settling| then m.state else SettledState(m), true)
  {
    var settling := Settling(pid, m, m.state, SettledState(m), at);
    SettlingIsOpen(cfg, run, id, m, t);
    assert !Stuck(m, id.effect.effectRef);
    hide Legal, Replay, Between, Stuck, After, Locatable, SettledState, ChainConfirmedIn, Missions.TransitionMission;
    AfterNone(run, settling);
    NowherePoint(cfg, run, id, t);
    if n > 0 {
      AfterOne(run, MoveMission(pid, id.effect.mission, SettledState(m), t));
      MissionWritePoint(cfg, run, pid, id, SettledState(m), t);
    }
  }

  // ---- every crash point ----

  /** A recovery of this attempt by pid begins here: it has exact evidence, and there is something left to do. */
  predicate RecoveryBegins(cfg: Config, run: Run, pid: Pid, id: AttemptId) {
    && Legal(cfg, run) && Locatable(Replay(run), id) && Recoverable(Replay(run), id) && !Finished(Replay(run), id)
    && Witnessed(run, pid, id, EffectBehind(Replay(run), id))
  }

  /** Its beginning in terms of the rows it found. */
  predicate Begun(cfg: Config, run: Run, pid: Pid, id: AttemptId, a: Attempt, m: MissionRecord) {
    && RecoveryBegins(cfg, run, pid, id) && a == Replay(run).attempts[id].record && m == MissionOf(Replay(run), id)
    && a.Id() == id && m.key == id.effect.mission && HasEffect(m, id.effect.effectRef) && DistinctRefs(m.effects)
    && a.state !in {AttemptState.FailedFinal, AttemptState.Blocked, Verified}
    && Reconcilable(m.state) && !Stuck(m, id.effect.effectRef)
  }

  lemma RowsOfRecovery(cfg: Config, run: Run, pid: Pid, id: AttemptId)
    requires RecoveryBegins(cfg, run, pid, id)
    ensures Begun(cfg, run, pid, id, Replay(run).attempts[id].record, MissionOf(Replay(run), id))
  {
    ProtocolSafety.VerifiedImpliesConfirmed(cfg, run);
    MissionRowsStaySound(cfg, run);
    AttemptRowsStaySound(cfg, run);
    hide Legal, Replay, Witnessed;
  }

  lemma WhatHasBegun(cfg: Config, run: Run, pid: Pid, id: AttemptId, a: Attempt, m: MissionRecord)
    requires Begun(cfg, run, pid, id, a, m)
    ensures Legal(cfg, run) && Locatable(Replay(run), id) && m == MissionOf(Replay(run), id)
    ensures Reconcilable(m.state) && !Stuck(m, id.effect.effectRef) && HasEffect(m, id.effect.effectRef)
    ensures m.key == id.effect.mission
  {
    hide Legal, Replay;
  }

  lemma OpenedMayClimb(
    cfg: Config, run: Run, later: Run, pid: Pid, id: AttemptId, a: Attempt, m: MissionRecord, t: int)
    requires Begun(cfg, run, pid, id, a, m) && Midway(cfg, run, later, id, t, OpenedState(m), false)
    requires MissionOf(Replay(later), id).effects == m.effects
    ensures MayClimb(cfg, later, pid, id, EffectOf(m, id.effect.effectRef).state, t)
  {
    hide Legal, Replay, Witnessed;
    var e := EffectOf(m, id.effect.effectRef);
    WitnessOnTheWay(run, later, pid, id, e, e);
  }

  lemma ClimbingPoint(
    cfg: Config, run: Run, pid: Pid, id: AttemptId, at: int, a: Attempt, m: MissionRecord, n: nat)
    requires Begun(cfg, run, pid, id, a, m)
    requires n <= |Climb(pid, m.key, id.effect.effectRef, EffectOf(m, id.effect.effectRef).state, Clamped(at, m.updated))|
    ensures var (t, opening) := (Clamped(at, m.updated), Opening(pid, m, at));
      var climb := Climb(pid, m.key, id.effect.effectRef, EffectOf(m, id.effect.effectRef).state, t);
      Midway(cfg, run, After(After(run, opening, |opening|), climb, n), id, t, OpenedState(m), n == |climb|)
  {
    hide *;
    WhatHasBegun(cfg, run, pid, id, a, m);
    var (t, opening) := (Clamped(at, m.updated), Opening(pid, m, at));
    var climb := Climb(pid, m.key, id.effect.effectRef, EffectOf(m, id.effect.effectRef).state, t);
    var more := After(run, opening, |opening|);
    OpeningPoint(cfg, run, pid, id, at, m, |opening|);
    OpenedMayClimb(cfg, run, more, pid, id, a, m, t);
    ClimbPoint(cfg, more, pid, id, EffectOf(m, id.effect.effectRef).state, t, n);
    MidwayState(cfg, run, more, id, t, OpenedState(m), false);
    MidwayComposes(cfg, run, more, After(more, climb, n), id, t, OpenedState(m), OpenedState(m), false, n == |climb|);
  }

  lemma AscentJoins(pid: Pid, m: MissionRecord, effectRef: string, at: int)
    requires HasEffect(m, effectRef)
    ensures Joins(Ascent(pid, m, effectRef, at), Opening(pid, m, at),
      Climb(pid, m.key, effectRef, EffectOf(m, effectRef).state, Clamped(at, m.updated)))
  {
    hide Opening, Climb;
  }

  /** The ascent, crash point by crash point. */
  lemma AscentPoint(
    cfg: Config, run: Run, pid: Pid, id: AttemptId, at: int, a: Attempt, m: MissionRecord, n: nat)
    requires Begun(cfg, run, pid, id, a, m) && n <= |Ascent(pid, m, id.effect.effectRef, at)|
    ensures var ascent := Ascent(pid, m, id.effect.effectRef, at);
      Midway(cfg, run, After(run, ascent, n), id, Clamped(at, m.updated),
        if n < |Opening(pid, m, at)| then m.state else OpenedState(m), n == |ascent|)
  {
    hide *;
    WhatHasBegun(cfg, run, pid, id, a, m);
    var (t, opening) := (Clamped(at, m.updated), Opening(pid, m, at));
    var climb := Climb(pid, m.key, id.effect.effectRef, EffectOf(m, id.effect.effectRef).state, t);
    var ascent := Ascent(pid, m, id.effect.effectRef, at);
    AscentJoins(pid, m, id.effect.effectRef, at);
    if n < |opening| {
      AfterFewer(run, ascent, opening, climb, n);
      OpeningPoint(cfg, run, pid, id, at, m, n);
    } else {
      AfterMore(run, ascent, opening, climb, 0);
      AfterMore(run, ascent, opening, climb, n - |opening|);
      ClimbingPoint(cfg, run, pid, id, at, a, m, n - |opening|);
    }
  }

  /** The Mission's state after the first n writes of a projection. */
  function StateAfter(pid: Pid, m: MissionRecord, effectRef: string, at: int, n: nat): MissionState
    requires HasEffect(m, effectRef)
  {
    if n < |Opening(pid, m, at)| then m.state
    else if n < |ProjectionSteps(pid, m, effectRef, at)| then OpenedState(m)
    else SettledState(WithConfirmed(m, effectRef))
  }

  lemma StateAfterIs(pid: Pid, m: MissionRecord, effectRef: string, at: int, n: nat)
    requires HasEffect(m, effectRef)
    ensures var settled := SettledState(WithConfirmed(m, effectRef));
      var (ascent, settling) := (|Ascent(pid, m, effectRef, at)|, |Settling(pid, m, OpenedState(m), settled, at)|);
      StateAfter(pid, m, effectRef, at, n) ==
        if n < ascent then if n < |Opening(pid, m, at)| then m.state else OpenedState(m)
        else if n < ascent + settling then OpenedState(m) else settled
    ensures |Opening(pid, m, at)| <= |Ascent(pid, m, effectRef, at)|
  {
    hide Climb, SettledState, WithConfirmed, EffectOf;
  }

  lemma ProjectionJoins(pid: Pid, m: MissionRecord, effectRef: string, at: int)
    requires HasEffect(m, effectRef)
    ensures Joins(ProjectionSteps(pid, m, effectRef, at), Ascent(pid, m, effectRef, at),
      Settling(pid, m, OpenedState(m), SettledState(WithConfirmed(m, effectRef)), at))
  {
    hide Ascent, Settling, SettledState, WithConfirmed;
  }

  lemma SettlingAgrees(
    cfg: Config, run: Run, more: Run, pid: Pid, id: AttemptId, at: int, a: Attempt, m: MissionRecord, m': MissionRecord)
    requires Begun(cfg, run, pid, id, a, m)
    requires Midway(cfg, run, more, id, Clamped(at, m.updated), OpenedState(m), true) && m' == MissionOf(Replay(more), id)
    ensures Legal(cfg, more) && Locatable(Replay(more), id) && ChainConfirmedIn(Replay(more), id)
    ensures m'.updated <= Clamped(at, m.updated) == Clamped(at, m'.updated) && m'.state == OpenedState(m)
    ensures var settled := SettledState(WithConfirmed(m, id.effect.effectRef));
      SettledState(m') == settled && Settling(pid, m', m'.state, settled, at) == Settling(pid, m, OpenedState(m), settled, at)
  {
    hide Legal, Replay, SettledState, WithConfirmed;
    BetweenIsLocatable(Replay(run), Replay(more), id, Clamped(at, m.updated));
    ClimbedIsConfirmed(m, m', id.effect.effectRef);
  }

  lemma SettlingPointAfter(
    cfg: Config, run: Run, more: Run, pid: Pid, id: AttemptId, at: int, a: Attempt, m: MissionRecord, n: nat)
    requires Begun(cfg, run, pid, id, a, m)
    requires Midway(cfg, run, more, id, Clamped(at, m.updated), OpenedState(m), true)
    requires n <= |Settling(pid, m, OpenedState(m), SettledState(WithConfirmed(m, id.effect.effectRef)), at)|
    ensures var settled := SettledState(WithConfirmed(m, id.effect.effectRef));
      var settling := Settling(pid, m, OpenedState(m), settled, at);
      Midway(cfg, run, After(more, settling, n), id, Clamped(at, m.updated),
        if n < |settling| then OpenedState(m) else settled, true)
  {
    var (m', t) := (MissionOf(Replay(more), id), Clamped(at, m.updated));
    var settled := SettledState(WithConfirmed(m, id.effect.effectRef));
    var settling := Settling(pid, m, OpenedState(m), settled, at);
    SettlingAgrees(cfg, run, more, pid, id, at, a, m, m');
    assert OpenedState(m) in {Reconciling, Completed};
    hide *;
    SettlingPoint(cfg, more, pid, id, at, t, m', n);
    MidwayComposes(cfg, run, more, After(more, settling, n), id, t, OpenedState(m),
      if n < |settling| then OpenedState(m) else settled, true, true);
  }

  /** The projection, crash point by crash point. */
  lemma ProjectionPoint(
    cfg: Config, run: Run, pid: Pid, id: AttemptId, at: int, a: Attempt, m: MissionRecord, n: nat)
    requires Begun(cfg, run, pid, id, a, m) && n <= |ProjectionSteps(pid, m, id.effect.effectRef, at)|
    ensures var steps := ProjectionSteps(pid, m, id.effect.effectRef, at);
      Midway(cfg, run, After(run, steps, n), id, Clamped(at, m.updated),
        StateAfter(pid, m, id.effect.effectRef, at, n), n == |steps|)
  {
    hide *;
    WhatHasBegun(cfg, run, pid, id, a, m);
    var settled := SettledState(WithConfirmed(m, id.effect.effectRef));
    var (ascent, settling) := (Ascent(pid, m, id.effect.effectRef, at), Settling(pid, m, OpenedState(m), settled, at));
    var steps := ProjectionSteps(pid, m, id.effect.effectRef, at);
    ProjectionJoins(pid, m, id.effect.effectRef, at);
    AfterFewer(run, steps, ascent, settling, 0);
    StateAfterIs(pid, m, id.effect.effectRef, at, n);
    if n < |ascent| {
      AfterFewer(run, steps, ascent, settling, n);
      AscentPoint(cfg, run, pid, id, at, a, m, n);
    } else {
      AfterMore(run, steps, ascent, settling, n - |ascent|);
      AscentPoint(cfg, run, pid, id, at, a, m, |ascent|);
      SettlingPointAfter(cfg, run, After(run, ascent, |ascent|), pid, id, at, a, m, n - |ascent|);
      MidwayAnyway(cfg, run, After(After(run, ascent, |ascent|), settling, n - |ascent|), id, Clamped(at, m.updated),
        if n - |ascent| < |settling| then OpenedState(m) else settled, true);
    }
  }

  lemma MarkPoint(
    cfg: Config, run: Run, more: Run, pid: Pid, id: AttemptId, at: int, t: int, a: Attempt, m: MissionRecord,
    state: MissionState)
    requires Begun(cfg, run, pid, id, a, m) && Midway(cfg, run, more, id, t, state, true)
    ensures var later := After(more, Marking(pid, a, at), 1);
      && Legal(cfg, later) && Salvageable(Replay(later), id)
      && Finished(Replay(later), id) && ChainConfirmedIn(Replay(later), id)
  {
    hide Legal, Replay, Witnessed, Between, After, Recoverable;
    BetweenIsLocatable(Replay(run), Replay(more), id, t);
    WitnessOnTheWay(run, more, pid, id, EffectBehind(Replay(run), id), EffectBehind(Replay(more), id));
    MarkWrite(cfg, more, pid, id, Clamped(at, a.updated));
    AfterOne(more, MoveAttempt(pid, id, Verified, Clamped(at, a.updated)));
  }

  lemma PointIsSalvageable(
    cfg: Config, run: Run, later: Run, pid: Pid, id: AttemptId, at: int, a: Attempt, m: MissionRecord, n: nat)
    requires Begun(cfg, run, pid, id, a, m) && n <= |ProjectionSteps(pid, m, id.effect.effectRef, at)|
    requires Midway(cfg, run, later, id, Clamped(at, m.updated), StateAfter(pid, m, id.effect.effectRef, at, n),
      n == |ProjectionSteps(pid, m, id.effect.effectRef, at)|)
    ensures Legal(cfg, later) && Locatable(Replay(later), id)
    ensures n == |ProjectionSteps(pid, m, id.effect.effectRef, at)| ==> ChainConfirmedIn(Replay(later), id)
    ensures Salvageable(Replay(later), id) <==>
      !(OtherStuck(m, id.effect.effectRef) && n == |ProjectionSteps(pid, m, id.effect.effectRef, at)|)
  {
    hide Legal, Replay, SettledState, WithConfirmed, ProjectionSteps, OtherStuck;
    BetweenIsLocatable(Replay(run), Replay(later), id, Clamped(at, m.updated));
    if n == |ProjectionSteps(pid, m, id.effect.effectRef, at)| {
      var m' := MissionOf(Replay(later), id);
      ClimbedIsConfirmed(m, m', id.effect.effectRef);
      SettlesReconcilably(m, m', id.effect.effectRef);
      OpeningIsFirst(pid, m, id.effect.effectRef, at);
    }
  }

  lemma OpeningIsFirst(pid: Pid, m: MissionRecord, effectRef: string, at: int)
    requires HasEffect(m, effectRef)
    ensures |Opening(pid, m, at)| <= |ProjectionSteps(pid, m, effectRef, at)|
  {
    hide Climb, SettledState, WithConfirmed;
  }

  lemma BeginningIsLocatable(cfg: Config, run: Run, pid: Pid, id: AttemptId)
    requires RecoveryBegins(cfg, run, pid, id)
    ensures Locatable(Replay(run), id) && id in Replay(run).attempts && id.effect.mission in Replay(run).missions
  {
    hide Legal, Replay;
  }

  lemma RecoveryJoins(cfg: Config, run: Run, pid: Pid, id: AttemptId, at: int, a: Attempt, m: MissionRecord)
    requires Begun(cfg, run, pid, id, a, m)
    ensures Joins(RecoveryOf(Replay(run), pid, id, at), ProjectionSteps(pid, m, id.effect.effectRef, at), Marking(pid, a, at))
    ensures |Marking(pid, a, at)| == 1
    ensures OthersStuck(Replay(run), id) <==> OtherStuck(m, id.effect.effectRef)
  {
    hide Legal, Replay, ProjectionSteps;
  }

  /** After each number of writes of a recovery the run is legal, and exact evidence can still finish the attempt,
      except in one place: after the last write but one, the attempt's mark still missing, if another effect of the
      Mission was FAILED_FINAL or BLOCKED from the start. */
  lemma CrashPoint(cfg: Config, run: Run, pid: Pid, id: AttemptId, at: int, n: nat)
    requires RecoveryBegins(cfg, run, pid, id)
    ensures var steps := RecoveryOf(Replay(run), pid, id, at);
      && 1 <= |steps|
      && (n <= |steps| ==>
            && Legal(cfg, After(run, steps, n))
            && (n >= |steps| - 1 ==> ChainConfirmedIn(Replay(After(run, steps, n)), id))
            && (Salvageable(Replay(After(run, steps, n)), id) <==>
                  !(OthersStuck(Replay(run), id) && n == |steps| - 1)))
  {
    hide *;
    BeginningIsLocatable(cfg, run, pid, id);
    var (m, a) := (MissionOf(Replay(run), id), Replay(run).attempts[id].record);
    RowsOfRecovery(cfg, run, pid, id);
    WhatHasBegun(cfg, run, pid, id, a, m);
    var (projection, mark) := (ProjectionSteps(pid, m, id.effect.effectRef, at), Marking(pid, a, at));
    var steps := RecoveryOf(Replay(run), pid, id, at);
    RecoveryJoins(cfg, run, pid, id, at, a, m);
    AfterFewer(run, steps, projection, mark, 0);
    if n <= |projection| {
      AfterFewer(run, steps, projection, mark, n);
      ProjectionPoint(cfg, run, pid, id, at, a, m, n);
      PointIsSalvageable(cfg, run, After(run, projection, n), pid, id, at, a, m, n);
    } else if n == |steps| {
      AfterMore(run, steps, projection, mark, 1);
      ProjectionPoint(cfg, run, pid, id, at, a, m, |projection|);
      MarkPoint(cfg, run, After(run, projection, |projection|), pid, id, at, Clamped(at, m.updated), a, m,
        StateAfter(pid, m, id.effect.effectRef, at, |projection|));
    }
  }

  /** Every crash point of a recovery can still be recovered from if and only if, when it begins, no other effect of
      the Mission is FAILED_FINAL or BLOCKED. */
  lemma EveryCrashPointIsSalvageable(cfg: Config, run: Run, pid: Pid, id: AttemptId, at: int)
    requires RecoveryBegins(cfg, run, pid, id)
    ensures var steps := RecoveryOf(Replay(run), pid, id, at);
      (forall n :: 0 <= n <= |steps| ==> Salvageable(Replay(After(run, steps, n)), id))
        <==> !OthersStuck(Replay(run), id)
  {
    var steps := RecoveryOf(Replay(run), pid, id, at);
    hide *;
    CrashPoint(cfg, run, pid, id, at, 0);
    CrashPoint(cfg, run, pid, id, at, |steps| - 1);
    forall n: nat | n <= |steps|
      ensures Salvageable(Replay(After(run, steps, n)), id) <==> !(OthersStuck(Replay(run), id) && n == |steps| - 1)
    {
      CrashPoint(cfg, run, pid, id, at, n);
    }
  }

  // ---- when the Mission is put up for review meanwhile ----

  /** An undisturbed reconciliation of one attempt that meets a mismatching transfer ends the recovery of every other
      attempt of the Mission, unless that one is finished or the Mission is COMPLETED. */
  lemma MismatchStrandsSiblings(s: Stores, s': Stores, id: AttemptId, sibling: AttemptId, r: Result<Reconciled>)
    requires Locatable(s, id) && Undisturbed(s, s', id, Mismatch, r)
    requires sibling != id && sibling.effect.mission == id.effect.mission && Salvageable(s, sibling)
    ensures Salvageable(s', sibling) <==>
      Finished(s, sibling) || s.missions[id.effect.mission].record.state == Completed
    ensures Reconcilable(s.missions[id.effect.mission].record.state) && !Salvageable(s', sibling) ==>
      r.Success? && r.value.outcome == OutcomeBlocked && WrittenOff(s', sibling)
  {
    var (m, m') := (s.missions[id.effect.mission].record, s'.missions[id.effect.mission].record);
    assert s'.attempts[sibling] == s.attempts[sibling];
    assert EffectBehind(s', sibling) == EffectBehind(s, sibling);
    hide IndexOf;
  }

  /** What a Mission under review, in conflict or blocked is written off for, it is written off for good. */
  lemma WrittenOffForGood(cfg: Config, run: Run, n: nat, id: AttemptId)
    requires Legal(cfg, run) && n <= |run| && WrittenOff(Replay(run[..n]), id)
    ensures WrittenOff(Replay(run), id)
    ensures Salvageable(Replay(run), id) <==> Locatable(Replay(run), id) && Finished(Replay(run), id)
  {
    RunEvolves(cfg, run, n);
    hide Legal, Replay;
    WrittenOffStays(Replay(run[..n]), Replay(run), id);
  }

  lemma WrittenOffStays(s: Stores, s': Stores, id: AttemptId)
    requires StoresEvolve(s, s') && WrittenOff(s, id)
    ensures WrittenOff(s', id)
  {
    RowEvolves(s, s', id.effect.mission);
    FinalMissionStates(s.missions[id.effect.mission].record.state);
    hide StoresEvolve;
  }

  /** The two in a row: reconcile one attempt on a mismatching transfer, then its sibling on exact evidence. */
  method MismatchThenRecover(
    sys: System, pid: Pid, again: Pid, id: AttemptId, sibling: AttemptId, expected: string, minimum: int,
    mismatch: Observation, exact: Observation, at: int)
    returns (first: Result<Reconciled>, second: Result<Reconciled>)
    requires sys.Valid() && sys.quiet && minimum >= 1 && IsAddress(expected)
    requires sys.cfg.Ordered? ==> id in sys.references.rows && sibling in sys.references.rows
    requires sibling != id && sibling.effect.mission == id.effect.mission
    requires Locatable(sys.Now(), id) && !Finished(sys.Now(), id)
    requires Locatable(sys.Now(), sibling) && Recoverable(sys.Now(), sibling) && !Finished(sys.Now(), sibling)
    requires sys.missions.rows[id.effect.mission].record.state != Completed
    requires WellFormedObservation(mismatch) && mismatch.VerifiedTransfer?
    requires !EconomicMatch(EffectBehind(sys.Now(), id), Lower(expected), mismatch.transfer)
    requires Proven(sys.Now(), sibling, Lower(expected), minimum, Some(exact))
    modifies sys, sys.missions, sys.attempts, sys.ledger, sys.references
    ensures sys.Valid() && old(sys.log) <= sys.log
    ensures first.Success? && first.value.outcome == OutcomeBlocked
    ensures second == Failure(MissionNotReconcilable)
    ensures WrittenOff(sys.Now(), sibling)
  {
    ghost var (s, before) := (sys.Now(), sys.log);
    assert EffectInMission(s, id);
    assert Replay(before) == s && Delivered(Some(mismatch)) == Some(mismatch) && s.references == sys.references.rows;
    assert id.effect.mission in s.missions && s.missions[id.effect.mission] == sys.missions.rows[id.effect.mission];
    hide *;
    first := Reconcile(sys, pid, id, expected, minimum, Some(mismatch), at);
    FindsMismatch(s, id, Lower(expected), minimum, mismatch);
    StrandedSibling(s, sys.Now(), id, sibling, first, Lower(expected), minimum, exact);
    sys.Evolved(before);
    RowsRemain(s, sys.Now(), sibling);
    sys.Shows();
    ghost var (mid, between) := (sys.Now(), sys.log);
    assert Replay(between) == mid by { ValidShows(sys); }
    second := Reconcile(sys, again, sibling, expected, minimum, Some(exact), at);
    RefusedForReview(mid, sys.Now(), sibling, Lower(expected), minimum, exact, second);
    sys.Evolved(between);
    WrittenOffStays(mid, sys.Now(), sibling);
  }

  lemma ValidShows(sys: System)
    requires sys.Valid()
    ensures Replay(sys.log) == sys.Now()
  {
  }

  lemma FindsMismatch(s: Stores, id: AttemptId, sender: string, minimum: int, mismatch: Observation)
    requires EffectInMission(s, id) && minimum >= 1
    requires mismatch.VerifiedTransfer? && !EconomicMatch(EffectBehind(s, id), sender, mismatch.transfer)
    ensures Weigh(EffectBehind(s, id), sender, minimum, mismatch) == Mismatch
  {
  }

  lemma RefusedForReview(
    s: Stores, s': Stores, id: AttemptId, sender: string, minimum: int, exact: Observation, r: Result<Reconciled>)
    requires Locatable(s, id) && minimum >= 1 && Proven(s, id, sender, minimum, Some(exact))
    requires Undisturbed(s, s', id, Weigh(EffectBehind(s, id), sender, minimum, exact), r)
    requires !Reconcilable(s.missions[id.effect.mission].record.state)
    requires s.attempts[id].record.state !in {AttemptState.FailedFinal, AttemptState.Blocked}
    ensures r == Failure(MissionNotReconcilable)
  {
  }

  lemma StrandedSibling(
    s: Stores, s': Stores, id: AttemptId, sibling: AttemptId, r: Result<Reconciled>, sender: string, minimum: int,
    exact: Observation)
    requires Locatable(s, id) && Undisturbed(s, s', id, Mismatch, r)
    requires sibling != id && sibling.effect.mission == id.effect.mission
    requires Locatable(s, sibling) && Recoverable(s, sibling) && !Finished(s, sibling)
    requires s.missions[id.effect.mission].record.state != Completed && Proven(s, sibling, sender, minimum, Some(exact))
    ensures Locatable(s', sibling) && !Finished(s', sibling) && Proven(s', sibling, sender, minimum, Some(exact))
    ensures !Reconcilable(s'.missions[sibling.effect.mission].record.state)
    ensures s'.attempts[sibling].record.state !in {AttemptState.FailedFinal, AttemptState.Blocked}
    ensures r.Success? && r.value.outcome == OutcomeBlocked && WrittenOff(s', sibling)
  {
    assert s'.attempts[sibling] == s.attempts[sibling];
    assert EffectBehind(s', sibling) == EffectBehind(s, sibling);
  }
}
