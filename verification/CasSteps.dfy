/** Single compare-and-swap writes and re-reads, the steps every bounded retry loop is made of. */
module CasSteps {
  import opened Outcomes
  import opened MissionIdentity
  import opened Missions
  import opened Attempts
  import opened Evidence
  import opened Protocol
  import opened ProtocolInvariants
  import opened Deployment
  import MissionStore
  import AttemptStore
  import ProtocolSafety

  /** current is a snapshot that was once the Mission's row. */
  predicate MissionSnapshot(s: Stores, current: StoredMission) {
    current.record.key in s.missions && MissionEvolves(current, s.missions[current.record.key])
  }

  predicate AttemptSnapshot(s: Stores, current: StoredAttempt) {
    current.record.Id() in s.attempts && AttemptEvolves(current, s.attempts[current.record.Id()])
  }

  lemma SnapshotsPersist(s: Stores, s': Stores)
    requires StoresEvolve(s, s')
    ensures forall m :: MissionSnapshot(s, m) ==> MissionSnapshot(s', m)
    ensures forall a :: AttemptSnapshot(s, a) ==> AttemptSnapshot(s', a)
  {
    forall m | MissionSnapshot(s, m) ensures MissionSnapshot(s', m) {
      hide MissionEvolves;
      MissionEvolutionIsTransitive(m, s.missions[m.record.key], s'.missions[m.record.key]);
    }
    forall a | AttemptSnapshot(s, a) ensures AttemptSnapshot(s', a) {
      assert AttemptEvolves(s.attempts[a.record.Id()], s'.attempts[a.record.Id()]);
    }
  }

  function Clamped(at: int, updated: int): (c: int)
    ensures at <= c && updated <= c && (c == at || c == updated)
  {
    if at < updated then updated else at
  }

  // ---- Mission state ----

  method TryMoveMission(sys: System, pid: Pid, current: StoredMission, target: MissionState, at: int)
    returns (r: Result<StoredMission>)
    requires sys.Valid() && MissionSnapshot(sys.Now(), current)
    modifies sys, sys.missions, sys.attempts, sys.ledger, sys.references
    ensures sys.Valid() && old(sys.log) <= sys.log && StoresEvolve(old(sys.Now()), sys.Now())
    ensures forall a :: a in sys.log && a.pid == pid && a !in old(sys.log) ==> a.MoveMission?
    ensures MissionSnapshot(sys.Now(), current)
    ensures r.Success? ==>
      && TransitionMission(current.record, target, at) == Success(r.value.record)
      && r.value.revision == current.revision + 1
      && MissionSnapshot(sys.Now(), r.value) && sys.missions.rows[current.record.key] == r.value
      && MissionEvolves(current, r.value)
    ensures r == Failure(StaleRevision) ==> current.revision < sys.missions.rows[current.record.key].revision
    ensures r.Failure? ==>
      r.code in {DatabaseError, StaleRevision} || TransitionMission(current.record, target, at) == Failure(r.code)
    ensures sys.quiet && current == old(sys.missions.rows)[current.record.key] ==>
      && (r.Success? <==> TransitionMission(current.record, target, at).Success?)
      && sys.Now() == old(sys.Now()).(missions :=
           MissionStore.Written(old(sys.missions.rows), current.record.key, r))
      && sys.log == old(sys.log) + (if r.Success? then [MoveMission(pid, current.record.key, target, at)] else [])
      && (r.Failure? ==> TransitionMission(current.record, target, at) == Failure(r.code))
  {
    hide Legal, Replay, Enabled, Apply, StoresEvolve, MissionEvolves, AttemptEvolves, MissionSnapshot, AttemptSnapshot;
    hide MissionStore.MoveMissionIn, Missions.TransitionMission;
    ghost var before := sys.log;
    var fault := sys.Yield(pid);
    SnapshotsPersist(old(sys.Now()), sys.Now());
    ghost var (s, mid) := (sys.Now(), sys.log);
    MissionSwap(sys.cfg, s, sys.log, pid, current, target, at);
    r := sys.missions.TransitionMission(current.record.key, current.revision, target, at, fault);
    if r.Success? {
      sys.Commit(MoveMission(pid, current.record.key, target, at));
    }
    sys.Evolved(mid);
    sys.Evolved(before);
    MissionSwapped(s, sys.Now(), current, r);
  }

  lemma MissionSwap(cfg: Config, s: Stores, run: Run, pid: Pid, current: StoredMission, target: MissionState, at: int)
    requires MissionSnapshot(s, current)
    ensures var key := current.record.key;
      var r := MissionStore.MoveMissionIn(s.missions, key, current.revision, target, at);
      if s.missions[key].revision != current.revision then
        r == Failure(StaleRevision) && current.revision < s.missions[key].revision
      else
        && s.missions[key] == current
        && (r.Failure? ==> TransitionMission(current.record, target, at) == Failure(r.code))
        && (r.Failure? ==> r.code != StaleRevision)
        && (r.Success? ==>
              && TransitionMission(current.record, target, at) == Success(r.value.record)
              && r.value.revision == current.revision + 1
              && Enabled(cfg, s, run, MoveMission(pid, key, target, at))
              && Apply(s, MoveMission(pid, key, target, at))
                   == s.(missions := MissionStore.Written(s.missions, key, r)))
  {
  }

  lemma MissionSwapped(s: Stores, s': Stores, current: StoredMission, r: Result<StoredMission>)
    requires MissionSnapshot(s, current) && StoresEvolve(s, s')
    requires r.Success? ==>
      s.missions[current.record.key] == current && current.record.key in s'.missions
      && s'.missions[current.record.key] == r.value
    ensures MissionSnapshot(s', current)
    ensures r.Success? ==> MissionEvolves(current, r.value) && MissionSnapshot(s', r.value)
  {
    SnapshotsPersist(s, s');
    if r.Success? {
      assert MissionEvolves(s.missions[current.record.key], s'.missions[current.record.key]);
    }
  }

  // ---- effect state ----

  /** This process may move the effect of the snapshot to the target. */
  predicate EffectLicensed(run: Run, pid: Pid, m: MissionRecord, effectRef: string, target: EffectState) {
    && m.state !in {Received, Validated} && HasEffect(m, effectRef)
    && EffectMoveWarranted(run, pid, AttemptFor(m.key, effectRef), EffectOf(m, effectRef), target)
  }

  method TryMoveEffect(
    sys: System, pid: Pid, current: StoredMission, effectRef: string, target: EffectState, at: int)
    returns (r: Result<StoredMission>)
    requires sys.Valid() && MissionSnapshot(sys.Now(), current)
    requires EffectLicensed(sys.log, pid, current.record, effectRef, target)
    modifies sys, sys.missions, sys.attempts, sys.ledger, sys.references
    ensures sys.Valid() && old(sys.log) <= sys.log && StoresEvolve(old(sys.Now()), sys.Now())
    ensures forall a :: a in sys.log && a.pid == pid && a !in old(sys.log) ==> a.MoveEffect?
    ensures MissionSnapshot(sys.Now(), current)
    ensures r.Success? ==>
      && TransitionMissionEffect(current.record, effectRef, target, at) == Success(r.value.record)
      && r.value.revision == current.revision + 1
      && MissionSnapshot(sys.Now(), r.value) && sys.missions.rows[current.record.key] == r.value
      && MissionEvolves(current, r.value)
    ensures r == Failure(StaleRevision) ==> current.revision < sys.missions.rows[current.record.key].revision
    ensures r.Failure? ==>
      r.code in {DatabaseError, StaleRevision}
      || (TransitionMissionEffect(current.record, effectRef, target, at) == Failure(r.code) && TimesInOrder(current.record))
    ensures sys.quiet && current == old(sys.missions.rows)[current.record.key] ==>
      && (r.Success? <==> TransitionMissionEffect(current.record, effectRef, target, at).Success?)
      && sys.Now() == old(sys.Now()).(missions :=
           MissionStore.Written(old(sys.missions.rows), current.record.key, r))
      && sys.log == old(sys.log) + (if r.Success? then [MoveEffect(pid, current.record.key, effectRef, target, at)] else [])
      && (r.Failure? ==> TransitionMissionEffect(current.record, effectRef, target, at) == Failure(r.code))
  {
    hide Legal, Replay, Enabled, Apply, StoresEvolve, MissionEvolves, AttemptEvolves, MissionSnapshot, AttemptSnapshot;
    hide MissionStore.MoveEffectIn, TransitionMissionEffect, EffectLicensed, MissionRowsSound, TimesInOrder;
    ghost var before := sys.log;
    var fault := sys.Yield(pid);
    EffectLicensePersists(before, sys.log, pid, current.record, effectRef, target);
    SnapshotsPersist(old(sys.Now()), sys.Now());
    ghost var (s, mid) := (sys.Now(), sys.log);
    RowIsInOrder(sys.cfg, sys.log, current.record.key);
    SnapshotRow(s, current);
    EffectSwap(sys.cfg, s, sys.log, pid, current, effectRef, target, at);
    r := sys.missions.TransitionEffect(current.record.key, effectRef, current.revision, target, at, fault);
    if r.Success? {
      sys.Commit(MoveEffect(pid, current.record.key, effectRef, target, at));
    }
    sys.Evolved(mid);
    sys.Evolved(before);
    MissionSwapped(s, sys.Now(), current, r);
  }

  lemma WitnessStands(run: Run, later: Run, pid: Pid, id: AttemptId, e: EffectRecord, e': EffectRecord)
    requires run <= later && SameEconomics(e, e')
    ensures Witnessed(run, pid, id, e) ==> Witnessed(later, pid, id, e')
    ensures Contradicted(run, pid, id, e) ==> Contradicted(later, pid, id, e')
  {
    if Witnessed(run, pid, id, e) {
      var b :| b in run && b.Observe? && b.pid == pid && b.id == id && Confirms(e, b.sender, b.minimum, b.observation);
      assert b in later && Confirms(e', b.sender, b.minimum, b.observation);
    }
    if Contradicted(run, pid, id, e) {
      var b :| b in run && b.Observe? && b.pid == pid && b.id == id
        && b.observation.VerifiedTransfer? && !EconomicMatch(e, b.sender, b.observation.transfer);
      assert b in later && !EconomicMatch(e', b.sender, b.observation.transfer);
    }
  }

  lemma EffectLicensePersists(run: Run, later: Run, pid: Pid, m: MissionRecord, effectRef: string, target: EffectState)
    requires run <= later && EffectLicensed(run, pid, m, effectRef, target)
    ensures EffectLicensed(later, pid, m, effectRef, target)
  {
    WitnessStands(run, later, pid, AttemptFor(m.key, effectRef), EffectOf(m, effectRef), EffectOf(m, effectRef));
  }

  lemma RowIsInOrder(cfg: Config, run: Run, key: MissionKey)
    requires Legal(cfg, run)
    ensures key in Replay(run).missions ==> TimesInOrder(Replay(run).missions[key].record)
  {
    MissionRowsStaySound(cfg, run);
  }

  lemma SnapshotRow(s: Stores, current: StoredMission)
    requires MissionSnapshot(s, current)
    ensures current.record.key in s.missions
    ensures var row := s.missions[current.record.key];
      current.revision <= row.revision && (current.revision == row.revision ==> row == current)
  {
  }

  lemma EffectSwap(
    cfg: Config, s: Stores, run: Run, pid: Pid, current: StoredMission, effectRef: string, target: EffectState, at: int)
    requires MissionSnapshot(s, current) && EffectLicensed(run, pid, current.record, effectRef, target)
    requires TimesInOrder(s.missions[current.record.key].record)
    ensures var key := current.record.key;
      var r := MissionStore.MoveEffectIn(s.missions, key, effectRef, current.revision, target, at);
      if s.missions[key].revision != current.revision then
        r == Failure(StaleRevision) && current.revision < s.missions[key].revision
      else
        && s.missions[key] == current && TimesInOrder(current.record)
        && (r.Failure? ==> TransitionMissionEffect(current.record, effectRef, target, at) == Failure(r.code))
        && (r.Failure? ==> r.code != StaleRevision)
        && (r.Success? ==>
              && TransitionMissionEffect(current.record, effectRef, target, at) == Success(r.value.record)
              && r.value.revision == current.revision + 1
              && Enabled(cfg, s, run, MoveEffect(pid, key, effectRef, target, at))
              && Apply(s, MoveEffect(pid, key, effectRef, target, at))
                   == s.(missions := MissionStore.Written(s.missions, key, r)))
  {
    hide EffectMoveWarranted, MissionEvolves, TimesInOrder;
    SnapshotRow(s, current);
  }

  // ---- attempt state ----

  method TryMoveAttempt(sys: System, pid: Pid, current: StoredAttempt, target: AttemptState, at: int)
    returns (r: Result<StoredAttempt>)
    requires sys.Valid() && AttemptSnapshot(sys.Now(), current)
    requires AttemptMoveWarranted(sys.Now(), sys.log, pid, current.record.Id(), target)
    modifies sys, sys.missions, sys.attempts, sys.ledger, sys.references
    ensures sys.Valid() && old(sys.log) <= sys.log && StoresEvolve(old(sys.Now()), sys.Now())
    ensures forall a :: a in sys.log && a.pid == pid && a !in old(sys.log) ==> a.MoveAttempt?
    ensures AttemptSnapshot(sys.Now(), current)
    ensures AttemptMoveWarranted(sys.Now(), sys.log, pid, current.record.Id(), target)
    ensures r.Success? ==>
      && TransitionAttempt(current.record, target, at) == Success(r.value.record)
      && r.value.revision == current.revision + 1
      && AttemptSnapshot(sys.Now(), r.value) && sys.attempts.rows[current.record.Id()] == r.value
    ensures r == Failure(StaleRevision) ==> current.revision < sys.attempts.rows[current.record.Id()].revision
    ensures r.Failure? ==>
      r.code in {DatabaseError, StaleRevision} || TransitionAttempt(current.record, target, at) == Failure(r.code)
    ensures sys.quiet && current == old(sys.attempts.rows)[current.record.Id()] ==>
      && (r.Success? <==> TransitionAttempt(current.record, target, at).Success?)
      && sys.Now() == old(sys.Now()).(attempts :=
           AttemptStore.Written(old(sys.attempts.rows), current.record.Id(), r))
      && sys.log == old(sys.log) + (if r.Success? then [MoveAttempt(pid, current.record.Id(), target, at)] else [])
      && (r.Failure? ==> TransitionAttempt(current.record, target, at) == Failure(r.code))
  {
    hide Legal, Replay, Enabled, Apply, StoresEvolve, MissionEvolves, AttemptEvolves, MissionSnapshot, AttemptSnapshot;
    hide AttemptStore.MoveIn, TransitionAttempt, AttemptMoveWarranted;
    ghost var before := sys.log;
    var id := current.record.Id();
    var fault := sys.Yield(pid);
    SnapshotsPersist(old(sys.Now()), sys.Now());
    WarrantPersists(old(sys.Now()), sys.Now(), before, sys.log, pid, id, target);
    ghost var (s, mid) := (sys.Now(), sys.log);
    AttemptSwap(sys.cfg, s, sys.log, pid, current, target, at);
    r := sys.attempts.Transition(id, current.revision, target, at, fault);
    if r.Success? {
      sys.Commit(MoveAttempt(pid, id, target, at));
    }
    sys.Evolved(mid);
    sys.Evolved(before);
    WarrantPersists(s, sys.Now(), mid, sys.log, pid, id, target);
    AttemptSwapped(s, sys.Now(), current, r);
  }

  lemma EffectPersists(s: Stores, s': Stores, id: AttemptId)
    requires StoresEvolve(s, s') && EffectInMission(s, id)
    ensures EffectInMission(s', id) && SameEconomics(EffectBehind(s, id), EffectBehind(s', id))
  {
    LookupEvolves(s.missions[id.effect.mission], s'.missions[id.effect.mission], id.effect.effectRef);
  }

  lemma WarrantPersists(
    s: Stores, s': Stores, run: Run, later: Run, pid: Pid, id: AttemptId, target: AttemptState)
    requires StoresEvolve(s, s') && run <= later && AttemptMoveWarranted(s, run, pid, id, target)
    ensures AttemptMoveWarranted(s', later, pid, id, target)
  {
    assert AnswerPort(pid, id, true) in run ==> AnswerPort(pid, id, true) in later;
    assert AnswerPort(pid, id, false) in run ==> AnswerPort(pid, id, false) in later;
    hide StoresEvolve, Witnessed, Contradicted;
    if target == Verified || target == AttemptState.Blocked {
      EffectPersists(s, s', id);
      WitnessStands(run, later, pid, id, EffectBehind(s, id), EffectBehind(s', id));
      if target == Verified { ProtocolSafety.ConfirmationPersists(s, s', id); }
    }
  }

  lemma AttemptSwap(
    cfg: Config, s: Stores, run: Run, pid: Pid, current: StoredAttempt, target: AttemptState, at: int)
    requires AttemptSnapshot(s, current) && AttemptMoveWarranted(s, run, pid, current.record.Id(), target)
    ensures var id := current.record.Id();
      var r := AttemptStore.MoveIn(s.attempts, id, current.revision, target, at);
      if s.attempts[id].revision != current.revision then
        r == Failure(StaleRevision) && current.revision < s.attempts[id].revision
      else
        && s.attempts[id] == current
        && (r.Failure? ==> TransitionAttempt(current.record, target, at) == Failure(r.code))
        && (r.Failure? ==> r.code != StaleRevision)
        && (r.Success? ==>
              && TransitionAttempt(current.record, target, at) == Success(r.value.record)
              && r.value.revision == current.revision + 1 && r.value.record.plan == current.record.plan
              && Enabled(cfg, s, run, MoveAttempt(pid, id, target, at))
              && Apply(s, MoveAttempt(pid, id, target, at))
                   == s.(attempts := AttemptStore.Written(s.attempts, id, r)))
  {
    hide AttemptMoveWarranted;
  }

  lemma AttemptSwapped(s: Stores, s': Stores, current: StoredAttempt, r: Result<StoredAttempt>)
    requires AttemptSnapshot(s, current) && StoresEvolve(s, s')
    requires r.Success? ==>
      current.record.Id() in s'.attempts && s'.attempts[current.record.Id()] == r.value
      && r.value.record.plan == current.record.plan
    ensures AttemptSnapshot(s', current)
    ensures r.Success? ==> AttemptSnapshot(s', r.value)
  {
    SnapshotsPersist(s, s');
  }

  // ---- re-reads ----

  method RereadMission(sys: System, pid: Pid, known: StoredMission) returns (r: Result<StoredMission>)
    requires sys.Valid() && MissionSnapshot(sys.Now(), known)
    modifies sys, sys.missions, sys.attempts, sys.ledger, sys.references
    ensures sys.Valid() && ContinuedByOthers(pid, old(sys.log), sys.log) && StoresEvolve(old(sys.Now()), sys.Now())
    ensures r == Success(sys.missions.rows[known.record.key]) || r == Failure(DatabaseError)
    ensures r.Success? ==> MissionEvolves(known, r.value) && MissionSnapshot(sys.Now(), r.value)
    ensures r.Success? ==> old(sys.missions.rows)[known.record.key].revision <= r.value.revision
    ensures sys.quiet ==> r.Success? && sys.log == old(sys.log) && sys.Now() == old(sys.Now())
  {
    var fault := sys.Yield(pid);
    SnapshotsPersist(old(sys.Now()), sys.Now());
    assert MissionEvolves(old(sys.Now()).missions[known.record.key], sys.Now().missions[known.record.key]);
    hide StoresEvolve, Legal, Replay;
    var found := sys.missions.Get(known.record.key, fault);
    if found.Failure? { return Failure(found.code); }
    if found.value.None? { return Failure(MissionNotFound); }
    r := Success(found.value.value);
    RowIsSnapshot(sys.Now(), known);
  }

  lemma RowIsSnapshot(s: Stores, known: StoredMission)
    requires MissionSnapshot(s, known)
    ensures MissionSnapshot(s, s.missions[known.record.key])
  {
    UnchangedMissionEvolves(s.missions[known.record.key]);
  }

  method RereadAttempt(sys: System, pid: Pid, known: StoredAttempt) returns (r: Result<StoredAttempt>)
    requires sys.Valid() && AttemptSnapshot(sys.Now(), known)
    modifies sys, sys.missions, sys.attempts, sys.ledger, sys.references
    ensures sys.Valid() && ContinuedByOthers(pid, old(sys.log), sys.log) && StoresEvolve(old(sys.Now()), sys.Now())
    ensures r == Success(sys.attempts.rows[known.record.Id()]) || r == Failure(DatabaseError)
    ensures r.Success? ==> AttemptEvolves(known, r.value) && AttemptSnapshot(sys.Now(), r.value)
    ensures r.Success? ==> old(sys.attempts.rows)[known.record.Id()].revision <= r.value.revision
    ensures sys.quiet ==> r.Success? && sys.log == old(sys.log) && sys.Now() == old(sys.Now())
  {
    var fault := sys.Yield(pid);
    SnapshotsPersist(old(sys.Now()), sys.Now());
    assert AttemptEvolves(old(sys.Now()).attempts[known.record.Id()], sys.Now().attempts[known.record.Id()]);
    hide StoresEvolve, Legal, Replay;
    var found := sys.attempts.Get(known.record.Id(), fault);
    if found.Failure? { return Failure(found.code); }
    if found.value.None? { return Failure(AttemptNotFound); }
    r := Success(found.value.value);
  }
}
