/** Admission of a Mission before any execution boundary: a bounded compare-and-swap loop. */
module Admission {
  import opened Outcomes
  import opened MissionIdentity
  import opened Missions
  import opened Protocol
  import opened ProtocolInvariants
  import opened Deployment
  import opened CasSteps
  import MissionStore

  const MAX_CAS_STEPS := 4

  predicate Admitted(state: MissionState) {
    state in {Persisted, Reconciling, ReadyForExecution, Executing, Verifying, Completed,
              MissionState.ExecutionUnknown, VerificationFailed, ManualReviewRequired}
  }

  /** Somebody has decided against the Mission for good. */
  predicate Refused(state: MissionState) {
    state in {MissionState.MissionConflict, MissionState.Blocked}
  }

  // ---- create ----

  /** Admission knows four other states: the two before it is done, and the two of a refusal. */
  lemma AdmissionIsDecided(state: MissionState)
    ensures Refused(state) <==> state == MissionState.MissionConflict || state == MissionState.Blocked
    ensures Admitted(state) <==> state != Received && state != Validated && !Refused(state)
  {
  }

  lemma CreatingDecides(cfg: Config, s: Stores, run: Run, pid: Pid, request: Document, at: int)
    requires Acceptable(request) && MissionRowsSound(s)
    ensures var initial := InitialRecord(request, at);
      var r := MissionStore.CreateIn(s.missions, initial);
      if KeyOf(request) in s.missions then
        && (r.Success? <==> s.missions[KeyOf(request)].record.fingerprint == initial.fingerprint)
        && (r.Success? ==> r.value == s.missions[KeyOf(request)])
        && (r.Failure? ==> r.code == MissionConflictError)
        && MissionStore.Written(s.missions, KeyOf(request), r) == s.missions
      else
        && r == Success(StoredMission(initial, 1)) && Enabled(cfg, s, run, AdmitMission(pid, initial))
        && Apply(s, AdmitMission(pid, initial)) == s.(missions := MissionStore.Written(s.missions, KeyOf(request), r))
    ensures var r := MissionStore.CreateIn(s.missions, InitialRecord(request, at));
      r.Success? ==> r.value.record.key == KeyOf(request)
  {
    InitialFacts(request, at);
    assert KeyOf(request) in s.missions ==> s.missions[KeyOf(request)].record.key == KeyOf(request);
    hide *;
    AdmittingDecides(cfg, s, run, pid, InitialRecord(request, at));
  }

  lemma InitialFacts(request: Document, at: int)
    requires Acceptable(request)
    ensures var m := InitialRecord(request, at);
      && WellFormed(m) && m.state == Received && AllPlanned(m)
      && m.key == KeyOf(request) && m.fingerprint == ContentFingerprint(Canonical(request))
  {
    InitialRecordIsWellFormed(request, at);
  }

  lemma AdmittingDecides(cfg: Config, s: Stores, run: Run, pid: Pid, initial: MissionRecord)
    requires WellFormed(initial) && initial.state == Received && AllPlanned(initial) && MissionRowsSound(s)
    ensures var r := MissionStore.CreateIn(s.missions, initial);
      if initial.key in s.missions then
        && (r.Success? <==> s.missions[initial.key].record.fingerprint == initial.fingerprint)
        && (r.Success? ==> r.value == s.missions[initial.key])
        && (r.Failure? ==> r.code == MissionConflictError)
        && MissionStore.Written(s.missions, initial.key, r) == s.missions
      else
        && r == Success(StoredMission(initial, 1)) && Enabled(cfg, s, run, AdmitMission(pid, initial))
        && Apply(s, AdmitMission(pid, initial)) == s.(missions := MissionStore.Written(s.missions, initial.key, r))
  {
    hide WellFormed, AllPlanned, MissionRowsSound;
  }

  method CreateOnce(sys: System, pid: Pid, request: Document, at: int) returns (r: Result<StoredMission>)
    requires sys.Valid() && Acceptable(request)
    modifies sys, sys.missions, sys.attempts, sys.ledger, sys.references
    ensures sys.Valid() && old(sys.log) <= sys.log && StoresEvolve(old(sys.Now()), sys.Now())
    ensures r.Success? ==>
      && r.value.record.key == KeyOf(request) && r.value.record.fingerprint == ContentFingerprint(Canonical(request))
      && MissionSnapshot(sys.Now(), r.value) && sys.missions.rows[KeyOf(request)] == r.value
    ensures r.Failure? ==> r.code in {DatabaseError, MissionConflictError}
    ensures r == Failure(MissionConflictError) ==>
      && KeyOf(request) in sys.missions.rows
      && sys.missions.rows[KeyOf(request)].record.fingerprint != ContentFingerprint(Canonical(request))
    ensures sys.quiet ==>
      if KeyOf(request) in old(sys.missions.rows) then
        && sys.Now() == old(sys.Now())
        && (r.Success? <==>
              old(sys.missions.rows)[KeyOf(request)].record.fingerprint == ContentFingerprint(Canonical(request)))
      else r == Success(StoredMission(InitialRecord(request, at), 1))
  {
    hide Legal, Replay, Enabled, Apply, StoresEvolve;
    hide MissionStore.CreateIn, Acceptable, InitialRecord, KeyOf, Canonical;
    hide WellFormed, MissionSnapshot, MissionEvolves, MissionRowsSound, AllPlanned;
    ghost var before := sys.log;
    var fault := sys.Yield(pid);
    MissionRowsStaySound(sys.cfg, sys.log);
    InitialFacts(request, at);
    ghost var s := sys.Now();
    CreatingDecides(sys.cfg, s, sys.log, pid, request, at);
    var initial := InitialRecord(request, at);
    var known := initial.key in sys.missions.rows;
    r := sys.missions.Create(initial, fault);
    if r.Success? {
      if !known {
        sys.Commit(AdmitMission(pid, initial));
      } else {
        assert sys.Now() == s;
      }
      assert MissionSnapshot(sys.Now(), r.value) by { OwnSnapshot(sys.Now(), r.value); }
    }
    sys.Evolved(before);
  }

  lemma OwnSnapshot(s: Stores, row: StoredMission)
    requires row.record.key in s.missions && s.missions[row.record.key] == row
    ensures MissionSnapshot(s, row)
  {
    UnchangedMissionEvolves(row);
  }

  // ---- admit ----

  function NextAdmissionState(state: MissionState): MissionState {
    if state == Received then Validated else Persisted
  }

  lemma AdmissionMoves(m: MissionRecord, at: int)
    requires m.state in {Received, Validated}
    ensures TransitionMission(m, NextAdmissionState(m.state), Clamped(at, m.updated))
      == Success(m.(state := NextAdmissionState(m.state), updated := Clamped(at, m.updated)))
    ensures AdmissionRank(m.state) < AdmissionRank(NextAdmissionState(m.state))
  {
  }

  lemma RankGrows(known: StoredMission, row: StoredMission)
    requires MissionEvolves(known, row) && known.revision < row.revision && known.record.state in {Received, Validated}
    ensures AdmissionRank(known.record.state) < AdmissionRank(row.record.state)
  {
  }

  /** One turn of the loop: a swap or, if somebody was faster, a fresh read.  Either way the Mission is
      strictly closer to being admitted. */
  method AdmissionStep(sys: System, pid: Pid, current: StoredMission, at: int) returns (r: Result<StoredMission>)
    requires sys.Valid() && MissionSnapshot(sys.Now(), current) && current.record.state in {Received, Validated}
    modifies sys, sys.missions, sys.attempts, sys.ledger, sys.references
    ensures sys.Valid() && old(sys.log) <= sys.log && StoresEvolve(old(sys.Now()), sys.Now())
    ensures r.Success? ==>
      && MissionSnapshot(sys.Now(), r.value) && MissionEvolves(current, r.value)
      && AdmissionRank(current.record.state) < AdmissionRank(r.value.record.state)
    ensures r.Failure? ==> r.code == DatabaseError
    ensures sys.quiet && current == old(sys.missions.rows)[current.record.key] ==>
      && r == Success(StoredMission(
           current.record.(state := NextAdmissionState(current.record.state), updated := Clamped(at, current.record.updated)),
           current.revision + 1))
      && sys.missions.rows[current.record.key] == r.value
  {
    ghost var before := sys.log;
    AdmissionMoves(current.record, at);
    hide Legal, Replay, StoresEvolve, MissionEvolves;
    hide Missions.TransitionMission, NextAdmissionState, AdmissionRank, Clamped;
    var target := NextAdmissionState(current.record.state);
    r := TryMoveMission(sys, pid, current, target, Clamped(at, current.record.updated));
    if r == Failure(StaleRevision) {
      r := CatchUp(sys, pid, current);
    }
    sys.Evolved(before);
  }

  /** Somebody was faster: read the row again. */
  method CatchUp(sys: System, pid: Pid, current: StoredMission) returns (r: Result<StoredMission>)
    requires sys.Valid() && MissionSnapshot(sys.Now(), current) && current.record.state in {Received, Validated}
    requires current.revision < sys.missions.rows[current.record.key].revision
    modifies sys, sys.missions, sys.attempts, sys.ledger, sys.references
    ensures sys.Valid() && old(sys.log) <= sys.log
    ensures r.Success? ==>
      && MissionSnapshot(sys.Now(), r.value) && MissionEvolves(current, r.value)
      && AdmissionRank(current.record.state) < AdmissionRank(r.value.record.state)
    ensures r.Failure? ==> r.code == DatabaseError
  {
    hide Legal, Replay, StoresEvolve, MissionEvolves, AdmissionRank;
    r := RereadMission(sys, pid, current);
    if r.Success? { RankGrows(current, r.value); }
  }

  /** Admit or resume one Mission.  Under any contention at most two swaps are tried, the loop bound is never
      what ends it, the only failures are a database fault, a content conflict and a Mission somebody refused,
      and success means the row of the caller's own content is in an admitted state.  Alone, a new Mission
      ends PERSISTED. */
  method Admit(sys: System, pid: Pid, request: Document, at: int) returns (r: Result<StoredMission>, tries: nat)
    requires sys.Valid() && Acceptable(request)
    modifies sys, sys.missions, sys.attempts, sys.ledger, sys.references
    ensures sys.Valid() && old(sys.log) <= sys.log && StoresEvolve(old(sys.Now()), sys.Now())
    ensures tries <= 2
    ensures r.Failure? ==> r.code in {DatabaseError, MissionConflictError, AdmissionNotPersisted}
    ensures r == Failure(AdmissionNotPersisted) ==>
      KeyOf(request) in sys.missions.rows && Refused(sys.missions.rows[KeyOf(request)].record.state)
    ensures r == Failure(MissionConflictError) ==>
      && KeyOf(request) in sys.missions.rows
      && sys.missions.rows[KeyOf(request)].record.fingerprint != ContentFingerprint(Canonical(request))
    ensures r.Success? ==>
      && KeyOf(request) in sys.missions.rows && sys.missions.rows[KeyOf(request)] == r.value
      && r.value.record.key == KeyOf(request)
      && r.value.record.fingerprint == ContentFingerprint(Canonical(request)) && Admitted(r.value.record.state)
    ensures sys.quiet && KeyOf(request) !in old(sys.missions.rows) ==>
      r == Success(StoredMission(InitialRecord(request, at).(state := Persisted), 3))
    ensures sys.quiet && KeyOf(request) in old(sys.missions.rows) ==>
      (r.Success? <==>
         && old(sys.missions.rows)[KeyOf(request)].record.fingerprint == ContentFingerprint(Canonical(request))
         && !Refused(old(sys.missions.rows)[KeyOf(request)].record.state))
  {
    hide Legal, Replay, StoresEvolve, MissionEvolves, Acceptable, Canonical;
    ghost var before := sys.log;
    tries := 0;
    r := CreateOnce(sys, pid, request, at);
    if r.Failure? { return; }
    var current := r.value;
    var exhausted := true;
    var i := 0;
    while i < MAX_CAS_STEPS
      invariant exhausted && i == tries <= AdmissionRank(current.record.state) && tries <= MAX_CAS_STEPS
      invariant sys.Valid() && before <= sys.log && MissionSnapshot(sys.Now(), current)
      invariant current.record.key == KeyOf(request)
      invariant current.record.fingerprint == ContentFingerprint(Canonical(request))
      invariant sys.quiet ==>
        && sys.missions.rows[KeyOf(request)] == current
        && (KeyOf(request) !in old(sys.missions.rows) ==>
              && current.record == InitialRecord(request, at).(state := current.record.state)
              && current.record.state in {Received, Validated, Persisted}
              && current.revision == 1 + AdmissionRank(current.record.state))
        && (KeyOf(request) in old(sys.missions.rows) ==>
              (Refused(current.record.state) <==> Refused(old(sys.missions.rows)[KeyOf(request)].record.state)))
    {
      if current.record.state !in {Received, Validated} {
        exhausted := false;
        break;
      }
      ghost var known := current;
      r := AdmissionStep(sys, pid, current, at);
      tries := tries + 1;
      if r.Failure? { sys.Evolved(before); return; }
      current := r.value;
      SameIdentityIn(known, current);
      i := i + 1;
    }
    if exhausted { return Failure(AdmissionCasExhausted), tries; }
    r := RereadMission(sys, pid, current);
    sys.Evolved(before);
    if r.Failure? { return; }
    SameIdentityIn(current, r.value);
    AdmittedOrRefused(current, r.value);
    if r.value.record.fingerprint != ContentFingerprint(Canonical(request)) { return Failure(MissionConflictError), tries; }
    if !Admitted(r.value.record.state) { return Failure(AdmissionNotPersisted), tries; }
  }

  lemma SameIdentityIn(known: StoredMission, row: StoredMission)
    requires MissionEvolves(known, row)
    ensures row.record.key == known.record.key && row.record.fingerprint == known.record.fingerprint
  {
  }

  lemma AdmittedOrRefused(known: StoredMission, row: StoredMission)
    requires MissionEvolves(known, row) && known.record.state !in {Received, Validated}
    ensures row.record.key == known.record.key && row.record.fingerprint == known.record.fingerprint
    ensures Admitted(row.record.state) || Refused(row.record.state)
  {
  }

  // ---- the runner's admission up to READY_FOR_EXECUTION ----

  predicate OnlyPlannedOrConfirmed(m: MissionRecord) {
    forall e :: e in m.effects ==> e.state in {Planned, ChainConfirmed}
  }

  /** Admit, then move to RECONCILING and on to READY_FOR_EXECUTION.  These two swaps are tried once, at the
      caller's own time.  Alone, a new Mission ends READY_FOR_EXECUTION. */
  method AdmitReady(sys: System, pid: Pid, request: Document, at: int) returns (r: Result<()>)
    requires sys.Valid() && Acceptable(request)
    modifies sys, sys.missions, sys.attempts, sys.ledger, sys.references
    ensures sys.Valid() && old(sys.log) <= sys.log
    ensures r.Failure? ==>
      r.code in {DatabaseError, MissionConflictError, AdmissionNotPersisted, StaleRevision, TimestampBeforeCurrent}
    ensures r.Success? ==>
      && KeyOf(request) in sys.missions.rows
      && sys.missions.rows[KeyOf(request)].record.fingerprint == ContentFingerprint(Canonical(request))
      && AdmissionRank(sys.missions.rows[KeyOf(request)].record.state) == 2
    ensures sys.quiet && KeyOf(request) !in old(sys.missions.rows) ==>
      && r.Success?
      && sys.missions.rows[KeyOf(request)] == StoredMission(InitialRecord(request, at).(state := ReadyForExecution), 5)
  {
    InitialIsPlanned(request, at);
    hide Legal, Replay, StoresEvolve, MissionEvolves, Acceptable, Canonical, OnlyPlannedOrConfirmed, InitialRecord;
    hide Missions.TransitionMission, MissionSnapshot, KeyOf;
    var admitted, _ := Admit(sys, pid, request, at);
    if admitted.Failure? { return Failure(admitted.code); }
    var current := admitted.value;
    OwnSnapshot(sys.Now(), current);
    if current.record.state == Persisted {
      var moved := MoveOn(sys, pid, current, Reconciling, at);
      if moved.Failure? { return Failure(moved.code); }
      current := moved.value;
    }
    r := MakeReady(sys, pid, current, at);
  }

  method MakeReady(sys: System, pid: Pid, current: StoredMission, at: int) returns (r: Result<()>)
    requires sys.Valid() && MissionSnapshot(sys.Now(), current)
    requires current.record.key in sys.missions.rows && sys.missions.rows[current.record.key] == current
    modifies sys, sys.missions, sys.attempts, sys.ledger, sys.references
    ensures sys.Valid() && old(sys.log) <= sys.log
    ensures r.Failure? ==> r.code in {DatabaseError, StaleRevision, TimestampBeforeCurrent}
    ensures r.Success? ==>
      && current.record.key in sys.missions.rows
      && sys.missions.rows[current.record.key] ==
           if current.record.state == Reconciling && OnlyPlannedOrConfirmed(current.record)
           then StoredMission(current.record.(state := ReadyForExecution, updated := at), current.revision + 1) else current
    ensures sys.quiet && current.record.updated <= at ==> r.Success?
  {
    hide Legal, Replay, StoresEvolve, MissionEvolves, OnlyPlannedOrConfirmed;
    if current.record.state == Reconciling && OnlyPlannedOrConfirmed(current.record) {
      var moved := MoveOn(sys, pid, current, ReadyForExecution, at);
      if moved.Failure? { return Failure(moved.code); }
    }
    r := Success(());
  }

  /** One swap at the caller's own time, along an edge of the Mission graph. */
  method MoveOn(sys: System, pid: Pid, current: StoredMission, target: MissionState, at: int)
    returns (r: Result<StoredMission>)
    requires sys.Valid() && MissionSnapshot(sys.Now(), current)
    requires target in MissionTargets(current.record.state) && target in {Reconciling, ReadyForExecution}
    modifies sys, sys.missions, sys.attempts, sys.ledger, sys.references
    ensures sys.Valid() && old(sys.log) <= sys.log
    ensures r.Failure? ==> r.code in {DatabaseError, StaleRevision, TimestampBeforeCurrent}
    ensures r.Success? ==>
      && r.value == StoredMission(current.record.(state := target, updated := at), current.revision + 1)
      && current.record.key in sys.missions.rows && sys.missions.rows[current.record.key] == r.value
      && MissionSnapshot(sys.Now(), r.value)
    ensures sys.quiet && current == old(sys.missions.rows)[current.record.key] && current.record.updated <= at ==> r.Success?
  {
    hide Legal, Replay, StoresEvolve, MissionEvolves;
    r := TryMoveMission(sys, pid, current, target, at);
  }

  lemma InitialIsPlanned(request: Document, at: int)
    requires Acceptable(request)
    ensures OnlyPlannedOrConfirmed(InitialRecord(request, at).(state := Reconciling))
    ensures InitialRecord(request, at).updated == at
  {
    InitialRecordIsWellFormed(request, at);
  }
}
