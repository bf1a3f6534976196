/** Projection of chain evidence into the Mission store first and the attempt store second. */
module Projection {
  import opened Outcomes
  import opened MissionIdentity
  import opened Missions
  import opened Protocol
  import opened ProtocolInvariants
  import opened Deployment
  import opened CasSteps
  import opened CasLoops
  import MissionStore

  /** The states from which _ensure_reconciling does not give up. */
  predicate Reconcilable(state: MissionState) {
    state in {Reconciling, Completed, Persisted, ReadyForExecution, Executing, Verifying,
              MissionState.ExecutionUnknown, VerificationFailed}
  }

  /** They are RECONCILING itself, COMPLETED, and the states from which the table leads to RECONCILING. */
  lemma ReconcilableExactly(state: MissionState)
    ensures Reconcilable(state) <==>
      state == Reconciling || state == Completed || Reconciling in MissionTargets(state)
  {
  }

  const MISSION_FAILURES: set<Code> :=
    {DatabaseError, MissionNotReconcilable, MissionTransitionNotAllowed, MissionCompletionRequiresConfirmedEffects,
     MissionCasExhausted}

  function Moved(first: StoredMission, target: MissionState, at: int): StoredMission {
    StoredMission(first.record.(state := target, updated := Clamped(at, first.record.updated)), first.revision + 1)
  }

  // ---- towards RECONCILING and MANUAL_REVIEW_REQUIRED ----

  /** Undisturbed, a loop towards a state that the Mission may enter takes one turn. */
  lemma OneTurn(pid: Pid, first: StoredMission, target: MissionState, at: int)
    requires target in MissionTargets(first.record.state) && target != first.record.state
    requires target == Completed ==> AllConfirmed(first.record)
    ensures Driven(first, MissionAim(target), at) == Success(Moved(first, target, at))
    ensures StepTaken(pid, first, MissionAim(target), at)
      == [MoveMission(pid, first.record.key, target, Clamped(at, first.record.updated))]
  {
  }

  /** What bringing a Mission to RECONCILING adds to the run. */
  function Opening(pid: Pid, m: MissionRecord, at: int): Run {
    if Reconcilable(m.state) && m.state !in {Reconciling, Completed}
    then [MoveMission(pid, m.key, Reconciling, Clamped(at, m.updated))] else []
  }

  method EnsureReconciling(sys: System, pid: Pid, first: StoredMission, at: int) returns (r: Result<StoredMission>)
    requires sys.Valid() && MissionSnapshot(sys.Now(), first)
    modifies sys, sys.missions, sys.attempts, sys.ledger, sys.references
    ensures sys.Valid() && old(sys.log) <= sys.log && StoresEvolve(old(sys.Now()), sys.Now())
    ensures forall a :: a in sys.log && a.pid == pid && a !in old(sys.log) ==> a.MoveMission?
    ensures r.Success? ==>
      r.value.record.state in {Reconciling, Completed} && MissionEvolves(first, r.value) && MissionSnapshot(sys.Now(), r.value)
    ensures r.Failure? ==> r.code in MISSION_FAILURES
    ensures !Reconcilable(first.record.state) ==> r == Failure(MissionNotReconcilable)
    ensures sys.quiet && first == old(sys.missions.rows)[first.record.key] ==>
      && (r.Success? <==> Reconcilable(first.record.state))
      && (r.Success? ==>
            r.value == if first.record.state in {Reconciling, Completed} then first else Moved(first, Reconciling, at))
      && (r.Failure? ==> r == Failure(MissionNotReconcilable))
      && sys.Now() == old(sys.Now()).(missions := MissionStore.Written(old(sys.missions.rows), first.record.key, r))
      && sys.log == old(sys.log) + Opening(pid, first.record, at)
  {
    hide Legal, Replay, MissionEvolves, Missions.TransitionMission, Explained;
    if first.record.state in {Reconciling, Completed} {
      sys.Evolved(sys.log);
      UnchangedMissionEvolves(first);
      return Success(first);
    }
    if !Reconcilable(first.record.state) {
      sys.Evolved(sys.log);
      return Failure(MissionNotReconcilable);
    }
    OneTurn(pid, first, Reconciling, at);
    hide StoresEvolve, Reconcilable, Driven, StepTaken;
    r := DriveMission(sys, pid, first, Reconciling, at);
  }

  method Review(sys: System, pid: Pid, current: StoredMission, at: int) returns (r: Result<StoredMission>)
    requires sys.Valid() && MissionSnapshot(sys.Now(), current) && current.record.state == Reconciling
    modifies sys, sys.missions, sys.attempts, sys.ledger, sys.references
    ensures sys.Valid() && old(sys.log) <= sys.log && StoresEvolve(old(sys.Now()), sys.Now())
    ensures forall a :: a in sys.log && a.pid == pid && a !in old(sys.log) ==> a.MoveMission?
    ensures r.Success? ==>
      && r.value.record.state == ManualReviewRequired
      && MissionEvolves(current, r.value) && MissionSnapshot(sys.Now(), r.value)
    ensures r.Failure? ==> r.code in MISSION_FAILURES
    ensures sys.quiet && current == old(sys.missions.rows)[current.record.key] ==>
      && r == Success(Moved(current, ManualReviewRequired, at))
      && sys.Now() == old(sys.Now()).(missions := old(sys.missions.rows)[current.record.key := r.value])
      && sys.log == old(sys.log)
           + [MoveMission(pid, current.record.key, ManualReviewRequired, Clamped(at, current.record.updated))]
  {
    hide Legal, Replay, MissionEvolves, Missions.TransitionMission, Explained, StoresEvolve;
    OneTurn(pid, current, ManualReviewRequired, at);
    hide Driven, StepTaken;
    r := DriveMission(sys, pid, current, ManualReviewRequired, at);
  }

  method MarkManualReview(sys: System, pid: Pid, first: StoredMission, at: int) returns (r: Result<StoredMission>)
    requires sys.Valid() && MissionSnapshot(sys.Now(), first)
    modifies sys, sys.missions, sys.attempts, sys.ledger, sys.references
    ensures sys.Valid() && old(sys.log) <= sys.log && StoresEvolve(old(sys.Now()), sys.Now())
    ensures forall a :: a in sys.log && a.pid == pid && a !in old(sys.log) ==> a.MoveMission?
    ensures r.Success? ==>
      && r.value.record.state in {ManualReviewRequired, Completed}
      && MissionEvolves(first, r.value) && MissionSnapshot(sys.Now(), r.value)
    ensures r.Failure? ==> r.code in MISSION_FAILURES
    ensures sys.quiet && first == old(sys.missions.rows)[first.record.key] ==>
      && (r.Success? <==> Reconcilable(first.record.state) || first.record.state == ManualReviewRequired)
      && (r.Success? ==>
            && r.value.record == first.record.(state := r.value.record.state, updated := r.value.record.updated)
            && r.value.record.state == (if first.record.state == Completed then Completed else ManualReviewRequired))
      && (r.Failure? ==> sys.Now() == old(sys.Now()) && r == Failure(MissionNotReconcilable))
      && sys.Now() == old(sys.Now()).(missions := sys.missions.rows)
      && (r.Success? ==> sys.missions.rows == old(sys.missions.rows)[first.record.key := r.value])
      && (first.record.state == Reconciling ==>
            sys.log == old(sys.log)
              + [MoveMission(pid, first.record.key, ManualReviewRequired, Clamped(at, first.record.updated))])
  {
    hide Legal, Replay, MissionEvolves, Missions.TransitionMission, Explained;
    if first.record.state == ManualReviewRequired {
      sys.Evolved(sys.log);
      UnchangedMissionEvolves(first);
      return Success(first);
    }
    hide StoresEvolve, Reconcilable, MissionSnapshot, Clamped, Explained;
    ghost var before := sys.log;
    r := EnsureReconciling(sys, pid, first, at);
    if r.Failure? || r.value.record.state == Completed { return; }
    var current := r.value;
    KeyStays(first, current);
    r := Review(sys, pid, current, at);
    sys.Evolved(before);
    if r.Success? {
      WrittenTwice(old(sys.missions.rows), first.record.key, current, r.value);
      MissionEvolutionIsTransitive(first, current, r.value);
    }
  }

  // ---- the effect ----

  function Progress(state: EffectState): nat {
    match state
    case Planned => 0
    case Reserved => 1
    case Submitted => 2
    case ExecutionUnknown => 2
    case ChainConfirmed => 3
    case _ => 0
  }

  function NextEffectState(state: EffectState): EffectState {
    match state
    case Planned => Reserved
    case Reserved => Submitted
    case _ => ChainConfirmed
  }

  /** m' differs from m at most in its state, its time, and the state and time of one effect. */
  predicate OnlyEffectMoved(m: MissionRecord, m': MissionRecord, effectRef: string) {
    && HasEffect(m, effectRef) && IndexOf(m'.effects, effectRef) == IndexOf(m.effects, effectRef)
    && |m'.effects| == |m.effects|
    && m' == m.(state := m'.state, updated := m'.updated,
                effects := m.effects[IndexOf(m.effects, effectRef) := EffectOf(m', effectRef)])
    && SameEconomics(EffectOf(m, effectRef), EffectOf(m', effectRef))
  }

  lemma MovingOneEffect(m: MissionRecord, m': MissionRecord, effectRef: string, target: EffectState, at: int)
    requires HasEffect(m, effectRef) && TimesInOrder(m)
    requires EffectOf(m, effectRef).state in {Planned, Reserved, Submitted, EffectState.ExecutionUnknown}
    requires target == NextEffectState(EffectOf(m, effectRef).state)
    ensures TransitionMissionEffect(m, effectRef, target, Clamped(at, m.updated)).Success?
    ensures TransitionMissionEffect(m, effectRef, target, Clamped(at, m.updated)) == Success(m') ==>
      && OnlyEffectMoved(m, m', effectRef) && m'.state == m.state && m'.updated == Clamped(at, m.updated)
      && EffectIs(m', effectRef, target)
  {
    EffectNeverTooEarly(m, effectRef, target, at);
    if TransitionMissionEffect(m, effectRef, target, Clamped(at, m.updated)) == Success(m') {
      SameIdentityKeepsLookup(m, m', effectRef);
    }
  }

  lemma MovesCompose(m: MissionRecord, m': MissionRecord, m'': MissionRecord, effectRef: string)
    requires OnlyEffectMoved(m, m', effectRef) && OnlyEffectMoved(m', m'', effectRef)
    ensures OnlyEffectMoved(m, m'', effectRef)
  {
  }

  predicate WitnessedEffect(run: Run, pid: Pid, m: MissionRecord, effectRef: string) {
    HasEffect(m, effectRef) && Witnessed(run, pid, AttemptFor(m.key, effectRef), EffectOf(m, effectRef))
  }

  lemma WitnessFollows(run: Run, later: Run, pid: Pid, known: StoredMission, row: StoredMission, effectRef: string)
    requires run <= later && MissionEvolves(known, row) && WitnessedEffect(run, pid, known.record, effectRef)
    ensures WitnessedEffect(later, pid, row.record, effectRef)
  {
    hide Witnessed, KeepsFinalEffects;
    LookupEvolves(known, row, effectRef);
    WitnessStands(run, later, pid, AttemptFor(known.record.key, effectRef),
      EffectOf(known.record, effectRef), EffectOf(row.record, effectRef));
  }

  lemma ReconcilingIsAdmitted(known: StoredMission, row: StoredMission)
    requires MissionEvolves(known, row) && known.record.state in {Reconciling, Completed}
    ensures row.record.state !in {Received, Validated}
  {
  }

  lemma RowIsOrdered(cfg: Config, run: Run, current: StoredMission)
    requires Legal(cfg, run) && current.record.key in Replay(run).missions
    ensures Replay(run).missions[current.record.key] == current ==>
      TimesInOrder(current.record) && CompletionJustified(current.record)
  {
    MissionRowsStaySound(cfg, run);
  }

  /** The effect is in a final state that is not CHAIN_CONFIRMED. */
  predicate Stuck(m: MissionRecord, effectRef: string) {
    EffectIs(m, effectRef, EffectState.FailedFinal) || EffectIs(m, effectRef, EffectState.Blocked)
  }

  /** What stepping an effect up to CHAIN_CONFIRMED adds to the run. */
  function Climb(pid: Pid, key: MissionKey, effectRef: string, state: EffectState, at: int): Run
    decreases 3 - Progress(state)
  {
    if state !in {Planned, Reserved, Submitted, EffectState.ExecutionUnknown} then []
    else
      [MoveEffect(pid, key, effectRef, NextEffectState(state), at)]
        + Climb(pid, key, effectRef, NextEffectState(state), at)
  }

  /** Some step of the climb was overtaken: the Mission's row came to refuse it. */
  ghost predicate StepOvertaken(before: Run, later: Run, first: StoredMission, effectRef: string) {
    exists target: EffectState :: target in {Reserved, Submitted, ChainConfirmed}
      && Overtaken(before, later, first, effectRef, target)
  }

  lemma OvertakenSince(
    before: Run, mid: Run, end: Run, later: Run, first: StoredMission, current: StoredMission, effectRef: string,
    target: EffectState)
    requires before <= mid && Overtaken(mid, end, current, effectRef, target) && end <= later
    requires current.record.key == first.record.key && first.revision <= current.revision
    requires target in {Reserved, Submitted, ChainConfirmed}
    ensures StepOvertaken(before, later, first, effectRef)
  {
    hide Occurs, Refuses;
    var row :| Occurs(mid, end, row) && row.record.key == current.record.key && current.revision < row.revision
      && Refuses(row.record, effectRef, target);
    OccursLater(mid, end, later, row);
    OccursSince(before, mid, later, row);
    assert Overtaken(before, later, first, effectRef, target);
  }

  lemma StepOvertakenSince(
    before: Run, mid: Run, end: Run, later: Run, first: StoredMission, current: StoredMission, effectRef: string)
    requires before <= mid && StepOvertaken(mid, end, current, effectRef) && end <= later
    requires current.record.key == first.record.key && first.revision <= current.revision
    ensures StepOvertaken(before, later, first, effectRef)
  {
    hide Overtaken;
    var target: EffectState :| target in {Reserved, Submitted, ChainConfirmed}
      && Overtaken(mid, end, current, effectRef, target);
    OvertakenSince(before, mid, end, later, first, current, effectRef, target);
  }

  lemma EvolutionRaisesRevision(known: StoredMission, row: StoredMission)
    requires MissionEvolves(known, row)
    ensures known.revision <= row.revision
  {
  }

  method AdvanceOnce(sys: System, pid: Pid, current: StoredMission, effectRef: string, at: int)
    returns (r: Result<StoredMission>)
    requires sys.Valid() && MissionSnapshot(sys.Now(), current) && current.record.state !in {Received, Validated}
    requires WitnessedEffect(sys.log, pid, current.record, effectRef)
    requires !Stuck(current.record, effectRef) && !EffectIs(current.record, effectRef, ChainConfirmed)
    modifies sys, sys.missions, sys.attempts, sys.ledger, sys.references
    ensures sys.Valid() && old(sys.log) <= sys.log && StoresEvolve(old(sys.Now()), sys.Now())
    ensures forall a :: a in sys.log && a.pid == pid && a !in old(sys.log) ==> a.MoveEffect?
    ensures r.Success? ==>
      && MissionEvolves(current, r.value) && MissionSnapshot(sys.Now(), r.value)
      && WitnessedEffect(sys.log, pid, r.value.record, effectRef) && HasEffect(r.value.record, effectRef)
      && !Stuck(r.value.record, effectRef)
      && Progress(EffectOf(current.record, effectRef).state) < Progress(EffectOf(r.value.record, effectRef).state)
    ensures r.Failure? ==> r.code in {DatabaseError, EffectTransitionNotAllowed, EffectCasExhausted}
    ensures r == Failure(EffectTransitionNotAllowed) ==>
      Overtaken(old(sys.log), sys.log, current, effectRef, NextEffectState(EffectOf(current.record, effectRef).state))
    ensures sys.quiet && current == old(sys.missions.rows)[current.record.key] ==>
      && r.Success? && OnlyEffectMoved(current.record, r.value.record, effectRef)
      && r.value.record.state == current.record.state
      && r.value.record.updated == Clamped(at, current.record.updated)
      && EffectIs(r.value.record, effectRef, NextEffectState(EffectOf(current.record, effectRef).state))
      && sys.log == old(sys.log) + [MoveEffect(pid, current.record.key, effectRef,
           NextEffectState(EffectOf(current.record, effectRef).state), Clamped(at, current.record.updated))]
      && sys.Now() == old(sys.Now()).(missions := old(sys.missions.rows)[current.record.key := r.value])
  {
    hide Legal, Replay, StoresEvolve, MissionEvolves, TransitionMissionEffect, Witnessed, OnlyEffectMoved, TimesInOrder;
    hide Explained, Overtaken;
    ghost var mid := sys.log;
    var target := NextEffectState(EffectOf(current.record, effectRef).state);
    RowIsOrdered(sys.cfg, sys.log, current);
    r := DriveEffect(sys, pid, current, effectRef, target, at);
    if r.Success? {
      WitnessFollows(mid, sys.log, pid, current, r.value, effectRef);
    }
    if sys.quiet && current == old(sys.missions.rows)[current.record.key] {
      var m' := if r.Success? then r.value.record else current.record;
      MovingOneEffect(current.record, m', effectRef, target, at);
    }
  }

  /** An undisturbed climb has come from first to current, and run lacks of it what is left to climb. */
  predicate OnTheWay(
    pid: Pid, before: Run, run: Run, first: MissionRecord, current: MissionRecord, effectRef: string, at: int)
  {
    && OnlyEffectMoved(first, current, effectRef) && current.state == first.state
    && (Stuck(first, effectRef) <==> Stuck(current, effectRef))
    && Clamped(at, current.updated) == Clamped(at, first.updated)
    && run + Climb(pid, first.key, effectRef, EffectOf(current, effectRef).state, Clamped(at, first.updated))
         == before + Climb(pid, first.key, effectRef, EffectOf(first, effectRef).state, Clamped(at, first.updated))
  }

  lemma OneStepUp(
    pid: Pid, before: Run, run: Run, first: MissionRecord, current: MissionRecord, next: MissionRecord,
    effectRef: string, at: int)
    requires OnTheWay(pid, before, run, first, current, effectRef, at)
    requires !Stuck(current, effectRef) && !EffectIs(current, effectRef, ChainConfirmed)
    requires OnlyEffectMoved(current, next, effectRef) && next.state == current.state
    requires next.updated == Clamped(at, current.updated)
    requires EffectIs(next, effectRef, NextEffectState(EffectOf(current, effectRef).state))
    ensures OnTheWay(pid, before, run + [MoveEffect(pid, first.key, effectRef,
      NextEffectState(EffectOf(current, effectRef).state), Clamped(at, current.updated))], first, next, effectRef, at)
  {
    MovesCompose(first, current, next, effectRef);
    var (state, t) := (EffectOf(current, effectRef).state, Clamped(at, first.updated));
    var move := MoveEffect(pid, first.key, effectRef, NextEffectState(state), t);
    hide OnlyEffectMoved;
    var rest := Climb(pid, first.key, effectRef, NextEffectState(state), t);
    assert Climb(pid, first.key, effectRef, state, t) == [move] + rest;
    assert run + ([move] + rest) == (run + [move]) + rest;
  }

  lemma AtTheTop(pid: Pid, before: Run, run: Run, first: MissionRecord, current: MissionRecord, effectRef: string, at: int)
    requires OnTheWay(pid, before, run, first, current, effectRef, at) && EffectIs(current, effectRef, ChainConfirmed)
    ensures OnlyEffectMoved(first, current, effectRef) && current.state == first.state && !Stuck(first, effectRef)
    ensures Clamped(at, current.updated) == Clamped(at, first.updated)
    ensures run == before
      + Climb(pid, first.key, effectRef, EffectOf(first, effectRef).state, Clamped(at, first.updated))
  {
    hide OnlyEffectMoved;
  }

  lemma StillStuck(pid: Pid, before: Run, run: Run, first: MissionRecord, current: MissionRecord, effectRef: string, at: int)
    requires OnTheWay(pid, before, run, first, current, effectRef, at)
    ensures Stuck(first, effectRef) <==> Stuck(current, effectRef)
  {
  }

  lemma AtTheFoot(pid: Pid, before: Run, first: MissionRecord, effectRef: string, at: int)
    requires HasEffect(first, effectRef)
    ensures OnTheWay(pid, before, before, first, first, effectRef, at)
  {
  }

  /** The effect's final state contradicts the evidence. */
  method GiveUp(sys: System, pid: Pid, current: StoredMission, at: int) returns (r: Result<StoredMission>)
    requires sys.Valid() && MissionSnapshot(sys.Now(), current)
    modifies sys, sys.missions, sys.attempts, sys.ledger, sys.references
    ensures sys.Valid() && old(sys.log) <= sys.log
    ensures forall a :: a in sys.log && a.pid == pid && a !in old(sys.log) ==> a.MoveMission?
    ensures r.Failure? && r.code in MISSION_FAILURES + {EffectTerminalContradiction}
    ensures sys.quiet && current == old(sys.missions.rows)[current.record.key] ==>
      sys.Now() == old(sys.Now()).(missions := sys.missions.rows)
  {
    hide Legal, Replay, StoresEvolve, MissionEvolves;
    var reviewed := MarkManualReview(sys, pid, current, at);
    r := Failure(if reviewed.Failure? then reviewed.code else EffectTerminalContradiction);
  }

  /** Step the effect up to CHAIN_CONFIRMED.  Each turn moves it at least one state on, so twelve turns are
      never used up whatever the contention. */
  method AdvanceEffect(sys: System, pid: Pid, first: StoredMission, effectRef: string, at: int)
    returns (r: Result<StoredMission>)
    requires sys.Valid() && MissionSnapshot(sys.Now(), first) && first.record.state in {Reconciling, Completed}
    requires WitnessedEffect(sys.log, pid, first.record, effectRef)
    modifies sys, sys.missions, sys.attempts, sys.ledger, sys.references
    ensures sys.Valid() && old(sys.log) <= sys.log && StoresEvolve(old(sys.Now()), sys.Now())
    ensures forall a :: a in sys.log && a.pid == pid && a !in old(sys.log) ==> a.MoveMission? || a.MoveEffect?
    ensures r.Success? ==>
      && EffectIs(r.value.record, effectRef, ChainConfirmed)
      && MissionEvolves(first, r.value) && MissionSnapshot(sys.Now(), r.value)
    ensures r.Failure? ==>
      r.code in MISSION_FAILURES + {EffectTransitionNotAllowed, EffectCasExhausted, EffectTerminalContradiction}
    ensures r == Failure(EffectTransitionNotAllowed) ==> StepOvertaken(old(sys.log), sys.log, first, effectRef)
    ensures sys.quiet && first == old(sys.missions.rows)[first.record.key] ==>
      && (r.Success? <==> !Stuck(first.record, effectRef))
      && sys.Now() == old(sys.Now()).(missions := sys.missions.rows)
      && (r.Success? ==>
            && sys.log == old(sys.log) + Climb(pid, first.record.key, effectRef,
                 EffectOf(first.record, effectRef).state, Clamped(at, first.record.updated))
            && Clamped(at, r.value.record.updated) == Clamped(at, first.record.updated)
            && sys.missions.rows == old(sys.missions.rows)[first.record.key := r.value]
            && OnlyEffectMoved(first.record, r.value.record, effectRef) && r.value.record.state == first.record.state)
  {
    hide Legal, Replay, StoresEvolve, MissionEvolves, TransitionMissionEffect, Witnessed, Overtaken, StepOvertaken;
    ghost var before := sys.log;
    assert HasEffect(first.record, effectRef);
    hide OnTheWay, OnlyEffectMoved, Climb, NextEffectState, Clamped, MissionSnapshot, WitnessedEffect;
    UnchangedMissionEvolves(first);
    AtTheFoot(pid, before, first.record, effectRef, at);
    var current := first;
    var i := 0;
    while i < CasLoops.MAX_CAS_STEPS
      invariant sys.Valid() && before <= sys.log && MissionSnapshot(sys.Now(), current)
      invariant MissionEvolves(first, current) && current.record.key == first.record.key
      invariant WitnessedEffect(sys.log, pid, current.record, effectRef) && HasEffect(current.record, effectRef)
      invariant i <= Progress(EffectOf(current.record, effectRef).state)
      invariant forall a :: a in sys.log && a.pid == pid && a !in before ==> a.MoveMission? || a.MoveEffect?
      invariant sys.quiet && first == old(sys.missions.rows)[first.record.key] ==>
        && OnTheWay(pid, before, sys.log, first.record, current.record, effectRef, at)
        && sys.Now() == old(sys.Now()).(missions := old(sys.missions.rows)[first.record.key := current])
    {
      var state := EffectOf(current.record, effectRef).state;
      if state == ChainConfirmed {
        sys.Evolved(before);
        if sys.quiet && first == old(sys.missions.rows)[first.record.key] {
          AtTheTop(pid, before, sys.log, first.record, current.record, effectRef, at);
        }
        return Success(current);
      }
      if Stuck(current.record, effectRef) {
        if sys.quiet && first == old(sys.missions.rows)[first.record.key] {
          StillStuck(pid, before, sys.log, first.record, current.record, effectRef, at);
        }
        r := GiveUp(sys, pid, current, at);
        sys.Evolved(before);
        return;
      }
      ReconcilingIsAdmitted(first, current);
      ghost var mid := sys.log;
      r := AdvanceOnce(sys, pid, current, effectRef, at);
      if r.Failure? {
        sys.Evolved(before);
        EvolutionRaisesRevision(first, current);
        if r.code == EffectTransitionNotAllowed {
          OvertakenSince(before, mid, sys.log, sys.log, first, current, effectRef, NextEffectState(state));
        }
        return;
      }
      if sys.quiet && first == old(sys.missions.rows)[first.record.key] {
        WrittenTwice(old(sys.missions.rows), first.record.key, current, r.value);
        OneStepUp(pid, before, mid, first.record, current.record, r.value.record, effectRef, at);
      }
      MissionEvolutionIsTransitive(first, current, r.value);
      KeyStays(first, r.value);
      current := r.value;
      i := i + 1;
    }
    r := Failure(EffectCasExhausted);
  }

  // ---- where the other effects leave the Mission ----

  predicate SomeEffect(m: MissionRecord, states: set<EffectState>) {
    exists i :: 0 <= i < |m.effects| && m.effects[i].state in states
  }

  function SettledState(m: MissionRecord): MissionState {
    if AllConfirmed(m) then Completed
    else if SomeEffect(m, {EffectState.FailedFinal, EffectState.Blocked}) then ManualReviewRequired
    else if SomeEffect(m, {Reserved, Submitted, EffectState.ExecutionUnknown}) then Reconciling
    else ReadyForExecution
  }

  /** Nothing is left to classify once the first three cases are excluded. */
  lemma SettlingIsComplete(m: MissionRecord)
    requires SettledState(m) == ReadyForExecution
    ensures forall e :: e in m.effects ==> e.state in {Planned, ChainConfirmed}
  {
    forall e | e in m.effects ensures e.state in {Planned, ChainConfirmed} {
      var i :| 0 <= i < |m.effects| && m.effects[i] == e;
    }
  }

  /** The Mission's state is the one its effects call for: COMPLETED if and only if all are CHAIN_CONFIRMED,
      MANUAL_REVIEW_REQUIRED if and only if one has failed or is blocked, READY_FOR_EXECUTION if and only if all are
      PLANNED or CHAIN_CONFIRMED and one is PLANNED, and RECONCILING if and only if none has failed or is blocked and
      one is under way. */
  predicate StandsByEffects(m: MissionRecord) {
    && (m.state == Completed <==> forall e :: e in m.effects ==> e.state == ChainConfirmed)
    && (m.state == ManualReviewRequired <==>
          exists e :: e in m.effects && e.state in {EffectState.FailedFinal, EffectState.Blocked})
    && (m.state == ReadyForExecution <==>
          && (forall e :: e in m.effects ==> e.state in {Planned, ChainConfirmed})
          && exists e :: e in m.effects && e.state == Planned)
    && (m.state == Reconciling <==>
          && (forall e :: e in m.effects ==> e.state !in {EffectState.FailedFinal, EffectState.Blocked})
          && exists e :: e in m.effects && e.state in {Reserved, Submitted, EffectState.ExecutionUnknown})
  }

  lemma SomeEffectIs(m: MissionRecord, states: set<EffectState>)
    ensures SomeEffect(m, states) <==> exists e :: e in m.effects && e.state in states
  {
    if e :| e in m.effects && e.state in states {
      var i :| 0 <= i < |m.effects| && m.effects[i] == e;
      assert SomeEffect(m, states);
    }
  }

  /** Settling brings a Mission to the one state its effects call for. */
  lemma SettlingIsExact(m: MissionRecord)
    ensures m.state == SettledState(m) <==> StandsByEffects(m)
  {
    SomeEffectIs(m, {EffectState.FailedFinal, EffectState.Blocked});
    SomeEffectIs(m, {Reserved, Submitted, EffectState.ExecutionUnknown});
    SomeEffectIs(m, {Planned});
    hide SomeEffect;
    if !AllConfirmed(m) && forall e :: e in m.effects ==> e.state in {Planned, ChainConfirmed} {
      var e :| e in m.effects && e.state != ChainConfirmed;
      assert e.state == Planned;
    }
  }

  lemma SettledStands(m: MissionRecord, m': MissionRecord)
    requires m' == m.(state := SettledState(m), updated := m'.updated)
    ensures StandsByEffects(m')
  {
    SettlingFollowsStates(m, m');
    SettlingIsExact(m');
  }

  /** What settling a Mission adds to the run. */
  function Settling(pid: Pid, m: MissionRecord, from: MissionState, target: MissionState, at: int): Run {
    if from == target then [] else [MoveMission(pid, m.key, target, Clamped(at, m.updated))]
  }

  method SettleMission(sys: System, pid: Pid, first: StoredMission, at: int) returns (r: Result<StoredMission>)
    requires sys.Valid() && MissionSnapshot(sys.Now(), first)
    modifies sys, sys.missions, sys.attempts, sys.ledger, sys.references
    ensures sys.Valid() && old(sys.log) <= sys.log && StoresEvolve(old(sys.Now()), sys.Now())
    ensures forall a :: a in sys.log && a.pid == pid && a !in old(sys.log) ==> a.MoveMission?
    ensures r.Success? ==> MissionEvolves(first, r.value) && MissionSnapshot(sys.Now(), r.value)
    ensures r.Failure? ==> r.code in MISSION_FAILURES
    ensures (sys.quiet && first == old(sys.missions.rows)[first.record.key]
        && first.record.state in {Reconciling, Completed}) ==>
      && r.Success? && StandsByEffects(r.value.record) && r.value.record.state == SettledState(first.record)
      && r.value.record == first.record.(state := r.value.record.state, updated := r.value.record.updated)
      && sys.Now() == old(sys.Now()).(missions := old(sys.missions.rows)[first.record.key := r.value])
      && sys.log == old(sys.log) + Settling(pid, first.record, first.record.state, SettledState(first.record), at)
  {
    hide Legal, Replay, MissionEvolves, Missions.TransitionMission, AllConfirmed, SomeEffect, Explained, StandsByEffects;
    ghost var before := sys.log;
    RowIsOrdered(sys.cfg, sys.log, first);
    UnchangedMissionEvolves(first);
    sys.Evolved(before);
    hide StoresEvolve;
    if first.record.state == Reconciling && SettledState(first.record) in {Completed, ReadyForExecution} {
      OneTurn(pid, first, SettledState(first.record), at);
    }
    if AllConfirmed(first.record) {
      r := DriveMission(sys, pid, first, Completed, at);
    } else if SomeEffect(first.record, {EffectState.FailedFinal, EffectState.Blocked}) {
      r := MarkManualReview(sys, pid, first, at);
    } else if SomeEffect(first.record, {Reserved, Submitted, EffectState.ExecutionUnknown}) {
      r := Success(first);
    } else {
      r := DriveMission(sys, pid, first, ReadyForExecution, at);
    }
    if r.Success? && r.value.record == first.record.(state := SettledState(first.record), updated := r.value.record.updated) {
      SettledStands(first.record, r.value.record);
    }
  }

  // ---- the whole projection ----

  /** What an undisturbed projection makes of a Mission: the effect is CHAIN_CONFIRMED, every other effect is
      as it was, and the Mission is where its effects leave it. */
  predicate Projected(m: MissionRecord, m': MissionRecord, effectRef: string) {
    && OnlyEffectMoved(m, m', effectRef) && EffectIs(m', effectRef, ChainConfirmed)
    && StandsByEffects(m')
  }

  lemma SettlingIgnoresState(m: MissionRecord, m': MissionRecord, effectRef: string)
    requires m' == m.(state := m'.state, updated := m'.updated)
    ensures SettledState(m') == SettledState(m)
    ensures Stuck(m', effectRef) <==> Stuck(m, effectRef)
    ensures HasEffect(m, effectRef) ==> OnlyEffectMoved(m, m', effectRef)
    ensures EffectIs(m, effectRef, ChainConfirmed) ==> EffectIs(m', effectRef, ChainConfirmed)
  {
  }

  /** The Mission with this effect CHAIN_CONFIRMED and all others as they are. */
  function WithConfirmed(m: MissionRecord, effectRef: string): MissionRecord
    requires HasEffect(m, effectRef)
  {
    m.(effects := m.effects[IndexOf(m.effects, effectRef) := EffectOf(m, effectRef).(state := ChainConfirmed)])
  }

  /** To RECONCILING, and the effect up to CHAIN_CONFIRMED. */
  function Ascent(pid: Pid, m: MissionRecord, effectRef: string, at: int): Run
    requires HasEffect(m, effectRef)
  {
    Opening(pid, m, at) + Climb(pid, m.key, effectRef, EffectOf(m, effectRef).state, Clamped(at, m.updated))
  }

  /** Every write of an undisturbed projection, in order: the ascent, and the Mission to where its effects leave
      it. */
  function ProjectionSteps(pid: Pid, m: MissionRecord, effectRef: string, at: int): Run
    requires HasEffect(m, effectRef)
  {
    Ascent(pid, m, effectRef, at)
      + Settling(pid, m, if m.state == Completed then Completed else Reconciling,
          SettledState(WithConfirmed(m, effectRef)), at)
  }

  /** Where a Mission settles depends on the states of its effects alone. */
  lemma SettlingFollowsStates(m: MissionRecord, m': MissionRecord)
    requires |m'.effects| == |m.effects|
    requires forall i :: 0 <= i < |m.effects| ==> m'.effects[i].state == m.effects[i].state
    ensures SettledState(m') == SettledState(m)
  {
    forall states: set<EffectState> ensures SomeEffect(m', states) <==> SomeEffect(m, states) {
      if SomeEffect(m, states) {
        var i :| 0 <= i < |m.effects| && m.effects[i].state in states;
        assert m'.effects[i].state in states;
      }
      if SomeEffect(m', states) {
        var i :| 0 <= i < |m'.effects| && m'.effects[i].state in states;
        assert m.effects[i].state in states;
      }
    }
    assert AllConfirmed(m') <==> AllConfirmed(m) by {
      assert AllConfirmed(m) <==> forall i :: 0 <= i < |m.effects| ==> m.effects[i].state == ChainConfirmed;
      assert AllConfirmed(m') <==> forall i :: 0 <= i < |m'.effects| ==> m'.effects[i].state == ChainConfirmed;
    }
  }

  lemma ClimbedIsConfirmed(m: MissionRecord, m': MissionRecord, effectRef: string)
    requires OnlyEffectMoved(m, m', effectRef) && EffectIs(m', effectRef, ChainConfirmed)
    ensures SettledState(m') == SettledState(WithConfirmed(m, effectRef))
  {
    SettlingFollowsStates(m', WithConfirmed(m, effectRef));
  }

  /** The Mission after an undisturbed EnsureReconciling. */
  function Opened(first: StoredMission, at: int): StoredMission {
    if first.record.state in {Reconciling, Completed} then first else Moved(first, Reconciling, at)
  }

  /** The Mission has been opened and the effect has climbed to the top, alone. */
  predicate Ascended(first: StoredMission, advanced: StoredMission, effectRef: string, at: int) {
    && OnlyEffectMoved(Opened(first, at).record, advanced.record, effectRef)
    && EffectIs(advanced.record, effectRef, ChainConfirmed) && advanced.record.key == first.record.key
    && advanced.record.state == Opened(first, at).record.state
    && Clamped(at, advanced.record.updated) == Clamped(at, Opened(first, at).record.updated)
  }

  lemma OpeningKeepsEffects(pid: Pid, first: StoredMission, effectRef: string, at: int)
    requires HasEffect(first.record, effectRef)
    ensures var m := Opened(first, at).record;
      && HasEffect(m, effectRef) && EffectOf(m, effectRef) == EffectOf(first.record, effectRef)
      && m.key == first.record.key && Clamped(at, m.updated) == Clamped(at, first.record.updated)
      && (Stuck(m, effectRef) <==> Stuck(first.record, effectRef))
      && (Reconcilable(first.record.state) ==> m.state in {Reconciling, Completed})
  {
  }

  method Ascend(sys: System, pid: Pid, first: StoredMission, effectRef: string, at: int)
    returns (r: Result<StoredMission>)
    requires sys.Valid() && MissionSnapshot(sys.Now(), first)
    requires WitnessedEffect(sys.log, pid, first.record, effectRef)
    modifies sys, sys.missions, sys.attempts, sys.ledger, sys.references
    ensures sys.Valid() && old(sys.log) <= sys.log && StoresEvolve(old(sys.Now()), sys.Now())
    ensures forall a :: a in sys.log && a.pid == pid && a !in old(sys.log) ==> a.MoveMission? || a.MoveEffect?
    ensures r.Success? ==>
      && EffectIs(r.value.record, effectRef, ChainConfirmed)
      && MissionEvolves(first, r.value) && MissionSnapshot(sys.Now(), r.value)
    ensures r.Failure? ==>
      r.code in MISSION_FAILURES + {EffectTransitionNotAllowed, EffectCasExhausted, EffectTerminalContradiction}
    ensures r == Failure(EffectTransitionNotAllowed) ==> StepOvertaken(old(sys.log), sys.log, first, effectRef)
    ensures !Reconcilable(first.record.state) ==> r == Failure(MissionNotReconcilable)
    ensures sys.quiet && first == old(sys.missions.rows)[first.record.key] ==>
      && (r.Success? <==> Reconcilable(first.record.state) && !Stuck(first.record, effectRef))
      && sys.Now() == old(sys.Now()).(missions := sys.missions.rows)
      && (r.Success? ==>
            && Ascended(first, r.value, effectRef, at)
            && sys.log == old(sys.log) + Ascent(pid, first.record, effectRef, at)
            && sys.missions.rows == old(sys.missions.rows)[first.record.key := r.value])
  {
    hide Legal, Replay, StoresEvolve, MissionEvolves, Witnessed, OnlyEffectMoved, Reconcilable;
    hide EffectIs, Stuck, Climb, StepOvertaken, Opening, MissionSnapshot, Clamped;
    ghost var before := sys.log;
    OpeningKeepsEffects(pid, first, effectRef, at);
    r := EnsureReconciling(sys, pid, first, at);
    if r.Failure? { return; }
    var reconciling := r.value;
    ghost var begun := sys.log;
    WitnessFollows(before, sys.log, pid, first, reconciling, effectRef);
    KeyStays(first, reconciling);
    hide Moved;
    r := AdvanceEffect(sys, pid, reconciling, effectRef, at);
    sys.Evolved(before);
    if r.Failure? {
      EvolutionRaisesRevision(first, reconciling);
      if r.code == EffectTransitionNotAllowed {
        StepOvertakenSince(before, begun, sys.log, sys.log, first, reconciling, effectRef);
      }
      return;
    }
    KeyStays(reconciling, r.value);
    MissionEvolutionIsTransitive(first, reconciling, r.value);
  }

  /** The parts of an undisturbed projection fit together. */
  lemma PartsOfProjection(
    pid: Pid, first: StoredMission, advanced: StoredMission, last: MissionRecord, effectRef: string, at: int)
    requires HasEffect(first.record, effectRef) && Reconcilable(first.record.state)
    requires Ascended(first, advanced, effectRef, at)
    requires last == advanced.record.(state := SettledState(advanced.record), updated := last.updated)
    ensures Projected(first.record, last, effectRef)
    ensures Ascent(pid, first.record, effectRef, at)
        + Settling(pid, advanced.record, advanced.record.state, SettledState(advanced.record), at)
      == ProjectionSteps(pid, first.record, effectRef, at)
  {
    var settling := Opened(first, at).record;
    SettlingIgnoresState(first.record, settling, effectRef);
    MovesCompose(first.record, settling, advanced.record, effectRef);
    ClimbedIsConfirmed(first.record, advanced.record, effectRef);
    SettlingIgnoresState(advanced.record, last, effectRef);
    SettledStands(advanced.record, last);
    MovesCompose(first.record, advanced.record, last, effectRef);
    hide StandsByEffects, SettledState, Climb, WithConfirmed, Reconcilable;
  }

  method ProjectConfirmedEffect(sys: System, pid: Pid, first: StoredMission, effectRef: string, at: int)
    returns (r: Result<StoredMission>)
    requires sys.Valid() && MissionSnapshot(sys.Now(), first)
    requires WitnessedEffect(sys.log, pid, first.record, effectRef)
    modifies sys, sys.missions, sys.attempts, sys.ledger, sys.references
    ensures sys.Valid() && old(sys.log) <= sys.log && StoresEvolve(old(sys.Now()), sys.Now())
    ensures forall a :: a in sys.log && a.pid == pid && a !in old(sys.log) ==> a.MoveMission? || a.MoveEffect?
    ensures r.Success? ==>
      && EffectIs(r.value.record, effectRef, ChainConfirmed)
      && MissionEvolves(first, r.value) && MissionSnapshot(sys.Now(), r.value)
    ensures r.Failure? ==>
      r.code in MISSION_FAILURES + {EffectTransitionNotAllowed, EffectCasExhausted, EffectTerminalContradiction}
    ensures r == Failure(EffectTransitionNotAllowed) ==> StepOvertaken(old(sys.log), sys.log, first, effectRef)
    ensures !Reconcilable(first.record.state) ==> r == Failure(MissionNotReconcilable)
    ensures sys.quiet && first == old(sys.missions.rows)[first.record.key] ==>
      && (r.Success? <==> Reconcilable(first.record.state) && !Stuck(first.record, effectRef))
      && sys.Now() == old(sys.Now()).(missions := sys.missions.rows)
      && (r.Success? ==>
            && sys.log == old(sys.log) + ProjectionSteps(pid, first.record, effectRef, at)
            && Projected(first.record, r.value.record, effectRef)
            && sys.missions.rows == old(sys.missions.rows)[first.record.key := r.value])
  {
    ghost var alone := sys.quiet && first == sys.missions.rows[first.record.key];
    ghost var before := sys.log;
    sys.Shows();
    assert sys.Now() == Replay(before) && HasEffect(first.record, effectRef);
    assert EffectTransitionNotAllowed !in MISSION_FAILURES;
    hide *;
    r := Ascend(sys, pid, first, effectRef, at);
    if r.Failure? { return; }
    var advanced := r.value;
    AscendedState(first, advanced, effectRef, at);
    sys.Shows();
    r := SettleMission(sys, pid, advanced, at);
    sys.Shows();
    sys.Evolved(before);
    if r.Failure? { return; }
    MissionEvolutionIsTransitive(first, advanced, r.value);
    LookupEvolves(advanced, r.value, effectRef);
    KeyStays(first, advanced);
    if alone {
      PartsOfProjection(pid, first, advanced, r.value.record, effectRef, at);
      WrittenTwice(old(sys.missions.rows), first.record.key, advanced, r.value);
      Joined(before, Ascent(pid, first.record, effectRef, at),
        Settling(pid, advanced.record, advanced.record.state, SettledState(advanced.record), at));
    }
  }

  lemma WrittenTwice(rows: MissionStore.MissionRows, key: MissionKey, r: StoredMission, r': StoredMission)
    ensures rows[key := r][key := r'] == rows[key := r']
  {
  }

  lemma Joined(a: Run, b: Run, c: Run)
    ensures (a + b) + c == a + (b + c)
  {
  }

  lemma AscendedState(first: StoredMission, advanced: StoredMission, effectRef: string, at: int)
    ensures Ascended(first, advanced, effectRef, at) ==>
      advanced.record.state in {Reconciling, Completed} && advanced.record.key == first.record.key
  {
  }
}
