/** The reconciler's three bounded compare-and-swap loops. */
module CasLoops {
  import opened Outcomes
  import opened MissionIdentity
  import opened Missions
  import opened Attempts
  import opened Protocol
  import opened ProtocolInvariants
  import opened Deployment
  import opened CasSteps
  import MissionStore
  import AttemptStore

  const MAX_CAS_STEPS := 12

  // ---- attempts ----

  function AttemptDriven(first: StoredAttempt, target: AttemptState, at: int): Result<StoredAttempt> {
    if first.record.state == target then Success(first)
    else
      match TransitionAttempt(first.record, target, Clamped(at, first.record.updated))
      case Failure(code) => Failure(code)
      case Success(record) => Success(StoredAttempt(record, first.revision + 1))
  }

  /** Under any contention the loop ends with the attempt in the target state, a database fault or a
      transition the state machine forbids: the bound of twelve is never what stops it, because a row can
      overtake a snapshot at most four times. */
  method DriveAttempt(sys: System, pid: Pid, first: StoredAttempt, target: AttemptState, at: int)
    returns (r: Result<StoredAttempt>)
    requires sys.Valid() && AttemptSnapshot(sys.Now(), first)
    requires AttemptMoveWarranted(sys.Now(), sys.log, pid, first.record.Id(), target)
    modifies sys, sys.missions, sys.attempts, sys.ledger, sys.references
    ensures sys.Valid() && old(sys.log) <= sys.log && StoresEvolve(old(sys.Now()), sys.Now())
    ensures forall a :: a in sys.log && a.pid == pid && a !in old(sys.log) ==> a.MoveAttempt?
    ensures r.Success? ==>
      r.value.record.state == target && r.value.record.plan == first.record.plan && AttemptSnapshot(sys.Now(), r.value)
    ensures r.Failure? ==> r.code in {DatabaseError, AttemptTransitionNotAllowed}
    ensures sys.quiet && first == old(sys.attempts.rows)[first.record.Id()] ==>
      && r == AttemptDriven(first, target, at)
      && sys.log == old(sys.log) + (if first.record.state == target || r.Failure? then []
                                    else [MoveAttempt(pid, first.record.Id(), target, Clamped(at, first.record.updated))])
      && sys.Now() == old(sys.Now()).(attempts := AttemptStore.Written(old(sys.attempts.rows), first.record.Id(), r))
  {
    hide Legal, Replay, StoresEvolve, AttemptMoveWarranted;
    ghost var before := sys.log;
    var current := first;
    var i := 0;
    while i < MAX_CAS_STEPS
      invariant i <= current.revision && i <= MAX_CAS_STEPS
      invariant sys.Valid() && before <= sys.log && AttemptSnapshot(sys.Now(), current)
      invariant current.record.plan == first.record.plan
      invariant AttemptMoveWarranted(sys.Now(), sys.log, pid, first.record.Id(), target)
      invariant forall a :: a in sys.log && a.pid == pid && a !in before ==> a.MoveAttempt?
      invariant sys.quiet && first == old(sys.attempts.rows)[first.record.Id()] ==>
        i == 0 && current == first && sys.Now() == old(sys.Now()) && sys.log == before
    {
      if current.record.state == target {
        sys.Evolved(before);
        return Success(current);
      }
      r := TryMoveAttempt(sys, pid, current, target, Clamped(at, current.record.updated));
      if r != Failure(StaleRevision) {
        sys.Evolved(before);
        return;
      }
      label stale:
      ghost var mid := sys.log;
      r := RereadAttempt(sys, pid, current);
      WarrantPersists(old@stale(sys.Now()), sys.Now(), mid, sys.log, pid, first.record.Id(), target);
      if r.Failure? {
        sys.Evolved(before);
        return;
      }
      current := r.value;
      i := i + 1;
    }
    r := Failure(AttemptCasExhausted);
    RevisionIsBounded(sys.cfg, sys.log, current);
  }

  lemma RevisionIsBounded(cfg: Config, run: Run, current: StoredAttempt)
    requires Legal(cfg, run) && AttemptSnapshot(Replay(run), current)
    ensures current.revision <= 5
  {
    AttemptRowsStaySound(cfg, run);
  }

  // ---- what a loop over Mission rows comes to ----

  /** What a loop wants the Mission's row to show. */
  datatype Aim = MissionAim(missionTarget: MissionState) | EffectAim(effectRef: string, effectTarget: EffectState)

  predicate Reached(m: MissionRecord, aim: Aim) {
    match aim
    case MissionAim(target) => m.state == target
    case EffectAim(effectRef, target) => EffectIs(m, effectRef, target)
  }

  function Attempted(m: MissionRecord, aim: Aim, at: int): Result<MissionRecord> {
    match aim
    case MissionAim(target) => TransitionMission(m, target, at)
    case EffectAim(effectRef, target) => TransitionMissionEffect(m, effectRef, target, at)
  }

  /** One turn on a row that nobody changes meanwhile. */
  function Driven(first: StoredMission, aim: Aim, at: int): Result<StoredMission> {
    if Reached(first.record, aim) then Success(first)
    else
      match Attempted(first.record, aim, Clamped(at, first.record.updated))
      case Failure(code) => Failure(code)
      case Success(record) => Success(StoredMission(record, first.revision + 1))
  }

  function MoveTowards(pid: Pid, key: MissionKey, aim: Aim, at: int): Action {
    match aim
    case MissionAim(target) => MoveMission(pid, key, target, at)
    case EffectAim(effectRef, target) => MoveEffect(pid, key, effectRef, target, at)
  }

  /** What such a turn adds to the run. */
  function StepTaken(pid: Pid, first: StoredMission, aim: Aim, at: int): Run {
    if Reached(first.record, aim) || Driven(first, aim, at).Failure? then []
    else [MoveTowards(pid, first.record.key, aim, Clamped(at, first.record.updated))]
  }

  function ExhaustedCode(aim: Aim): Code {
    if aim.MissionAim? then MissionCasExhausted else EffectCasExhausted
  }

  predicate RowAt(run: Run, k: nat, row: StoredMission) {
    k <= |run| && row.record.key in Replay(run[..k]).missions && Replay(run[..k]).missions[row.record.key] == row
  }

  /** row was the Mission's row at some point of the run since before. */
  predicate Occurs(before: Run, later: Run, row: StoredMission) {
    before <= later && exists k :: |before| <= k <= |later| && RowAt(later, k, row)
  }

  /** The rows a loop worked from: the caller's snapshot and, after each stale swap, the newer row it read then. */
  predicate Reads(before: Run, later: Run, first: StoredMission, aim: Aim, rows: seq<StoredMission>) {
    && before <= later && 1 <= |rows| <= MAX_CAS_STEPS + 1 && rows[0] == first
    && (forall i :: 0 <= i < |rows| - 1 ==> !Reached(rows[i].record, aim) && rows[i].revision < rows[i + 1].revision)
    && (forall i :: 1 <= i < |rows| ==> rows[i].record.key == first.record.key && Occurs(before, later, rows[i]))
  }

  /** Twelve stale swaps exhaust the loop; otherwise the last row read decides. */
  function OutcomeOf(rows: seq<StoredMission>, aim: Aim, at: int): Result<StoredMission>
    requires rows != []
  {
    if |rows| > MAX_CAS_STEPS then Failure(ExhaustedCode(aim)) else Driven(rows[|rows| - 1], aim, at)
  }

  ghost predicate Explained(
    before: Run, later: Run, first: StoredMission, aim: Aim, at: int, r: Result<StoredMission>)
  {
    exists rows :: Reads(before, later, first, aim, rows) && r == OutcomeOf(rows, aim, at)
  }

  lemma OccursLater(before: Run, mid: Run, later: Run, row: StoredMission)
    requires Occurs(before, mid, row) && mid <= later
    ensures Occurs(before, later, row)
  {
    var k :| |before| <= k <= |mid| && RowAt(mid, k, row);
    assert later[..k] == mid[..k];
    assert RowAt(later, k, row);
  }

  lemma OccursSince(before: Run, mid: Run, later: Run, row: StoredMission)
    requires before <= mid && Occurs(mid, later, row)
    ensures Occurs(before, later, row)
  {
  }

  lemma FirstRead(before: Run, first: StoredMission, aim: Aim)
    ensures Reads(before, before, first, aim, [first])
  {
  }

  lemma ReadsLater(before: Run, mid: Run, later: Run, first: StoredMission, aim: Aim, rows: seq<StoredMission>)
    requires Reads(before, mid, first, aim, rows) && mid <= later
    ensures Reads(before, later, first, aim, rows)
  {
    hide Occurs;
    forall i | 1 <= i < |rows| ensures Occurs(before, later, rows[i]) {
      OccursLater(before, mid, later, rows[i]);
    }
  }

  lemma OccursNow(before: Run, later: Run, row: StoredMission)
    requires before <= later && row.record.key in Replay(later).missions && Replay(later).missions[row.record.key] == row
    ensures Occurs(before, later, row)
  {
    assert later[..|later|] == later;
    assert RowAt(later, |later|, row);
  }

  lemma ReadOneMore(
    before: Run, mid: Run, later: Run, first: StoredMission, aim: Aim, rows: seq<StoredMission>, row: StoredMission)
    requires Reads(before, mid, first, aim, rows) && |rows| <= MAX_CAS_STEPS && mid <= later
    requires !Reached(rows[|rows| - 1].record, aim) && rows[|rows| - 1].revision < row.revision
    requires row.record.key == first.record.key && row.record.key in Replay(later).missions
    requires Replay(later).missions[row.record.key] == row
    ensures Reads(before, later, first, aim, rows + [row])
  {
    hide Replay, Reached, RowAt, Occurs;
    ReadsLater(before, mid, later, first, aim, rows);
    OccursNow(before, later, row);
    var more := rows + [row];
    forall i | 1 <= i < |more| ensures more[i].record.key == first.record.key && Occurs(before, later, more[i]) {
      if i < |rows| { assert more[i] == rows[i]; }
    }
  }

  lemma ItIsExplained(
    before: Run, mid: Run, later: Run, first: StoredMission, aim: Aim, at: int, rows: seq<StoredMission>,
    r: Result<StoredMission>)
    requires Reads(before, mid, first, aim, rows) && mid <= later && r == OutcomeOf(rows, aim, at)
    ensures Explained(before, later, first, aim, at, r)
  {
    ReadsLater(before, mid, later, first, aim, rows);
  }

  lemma {:induction false} RevisionsClimb(
    before: Run, later: Run, first: StoredMission, aim: Aim, rows: seq<StoredMission>, i: nat)
    requires Reads(before, later, first, aim, rows) && i < |rows|
    ensures first.revision + i <= rows[i].revision
  {
    if i > 0 { RevisionsClimb(before, later, first, aim, rows, i - 1); }
  }

  /** A loop is exhausted exactly when it has read twelve newer rows, none before the last of which it wanted; so
      it takes at least twelve swaps by others. */
  lemma ExhaustionTakesTwelve(
    before: Run, later: Run, first: StoredMission, aim: Aim, at: int, rows: seq<StoredMission>)
    requires Reads(before, later, first, aim, rows)
    ensures OutcomeOf(rows, aim, at) == Failure(ExhaustedCode(aim)) <==> |rows| == MAX_CAS_STEPS + 1
    ensures OutcomeOf(rows, aim, at) == Failure(ExhaustedCode(aim)) ==>
      first.revision + MAX_CAS_STEPS <= rows[MAX_CAS_STEPS].revision && Occurs(before, later, rows[MAX_CAS_STEPS])
  {
    RevisionsClimb(before, later, first, aim, rows, |rows| - 1);
    OneTurnNeverExhausts(rows[|rows| - 1], aim, at);
  }

  lemma OneTurnNeverExhausts(row: StoredMission, aim: Aim, at: int)
    ensures Driven(row, aim, at) != Failure(ExhaustedCode(aim))
  {
  }

  // ---- Mission state ----

  /** Mission revisions are not bounded, so this loop can be starved; the rows it reads determine what it returns. */
  method DriveMission(sys: System, pid: Pid, first: StoredMission, target: MissionState, at: int)
    returns (r: Result<StoredMission>)
    requires sys.Valid() && MissionSnapshot(sys.Now(), first)
    modifies sys, sys.missions, sys.attempts, sys.ledger, sys.references
    ensures sys.Valid() && old(sys.log) <= sys.log && StoresEvolve(old(sys.Now()), sys.Now())
    ensures forall a :: a in sys.log && a.pid == pid && a !in old(sys.log) ==> a.MoveMission?
    ensures r == Failure(DatabaseError) || Explained(old(sys.log), sys.log, first, MissionAim(target), at, r)
    ensures r.Success? ==>
      r.value.record.state == target && MissionEvolves(first, r.value) && MissionSnapshot(sys.Now(), r.value)
    ensures r.Failure? ==>
      r.code in {DatabaseError, MissionTransitionNotAllowed, MissionCompletionRequiresConfirmedEffects, MissionCasExhausted}
    ensures sys.quiet && first == old(sys.missions.rows)[first.record.key] ==>
      && r == Driven(first, MissionAim(target), at)
      && sys.Now() == old(sys.Now()).(missions := MissionStore.Written(old(sys.missions.rows), first.record.key, r))
      && sys.log == old(sys.log) + StepTaken(pid, first, MissionAim(target), at)
  {
    hide Legal, Replay, StoresEvolve, MissionEvolves, Reads, Explained;
    ghost var before := sys.log;
    UnchangedMissionEvolves(first);
    var current := first;
    var i := 0;
    ghost var rows := [first];
    FirstRead(before, first, MissionAim(target));
    while i < MAX_CAS_STEPS
      invariant sys.Valid() && before <= sys.log && MissionSnapshot(sys.Now(), current)
      invariant MissionEvolves(first, current) && current.record.key == first.record.key
      invariant i <= MAX_CAS_STEPS && |rows| == i + 1 && rows[i] == current
      invariant Reads(before, sys.log, first, MissionAim(target), rows)
      invariant forall a :: a in sys.log && a.pid == pid && a !in before ==> a.MoveMission?
      invariant sys.quiet && first == old(sys.missions.rows)[first.record.key] ==>
        i == 0 && current == first && sys.Now() == old(sys.Now()) && sys.log == before
    {
      ghost var mid := sys.log;
      if current.record.state == target {
        sys.Evolved(before);
        ItIsExplained(before, mid, sys.log, first, MissionAim(target), at, rows, Success(current));
        return Success(current);
      }
      r := TryMoveMission(sys, pid, current, target, Clamped(at, current.record.updated));
      if r != Failure(StaleRevision) {
        sys.Evolved(before);
        if r != Failure(DatabaseError) {
          ItIsExplained(before, mid, sys.log, first, MissionAim(target), at, rows, r);
        }
        if r.Success? { MissionEvolutionIsTransitive(first, current, r.value); }
        return;
      }
      r := RereadMission(sys, pid, current);
      if r.Failure? {
        sys.Evolved(before);
        return;
      }
      MissionEvolutionIsTransitive(first, current, r.value);
      KeyStays(first, r.value);
      ReadOneMore(before, mid, sys.log, first, MissionAim(target), rows, r.value);
      current := r.value;
      rows := rows + [current];
      i := i + 1;
    }
    sys.Evolved(before);
    r := Failure(MissionCasExhausted);
    ItIsExplained(before, sys.log, sys.log, first, MissionAim(target), at, rows, r);
  }

  lemma KeyStays(known: StoredMission, row: StoredMission)
    requires MissionEvolves(known, row)
    ensures row.record.key == known.record.key
  {
  }

  // ---- effect state ----

  lemma LicenseFollowsEvolution(
    run: Run, pid: Pid, known: StoredMission, row: StoredMission, effectRef: string, target: EffectState)
    requires MissionEvolves(known, row) && EffectLicensed(run, pid, known.record, effectRef, target)
    ensures EffectLicensed(run, pid, row.record, effectRef, target)
  {
    hide Witnessed, KeepsFinalEffects;
    LookupEvolves(known, row, effectRef);
    WitnessStands(run, run, pid, AttemptFor(known.record.key, effectRef),
      EffectOf(known.record, effectRef), EffectOf(row.record, effectRef));
  }

  lemma EffectNeverTooEarly(m: MissionRecord, effectRef: string, target: EffectState, at: int)
    requires TimesInOrder(m)
    ensures TransitionMissionEffect(m, effectRef, target, Clamped(at, m.updated)) != Failure(TimestampBeforeCurrent)
  {
    if HasEffect(m, effectRef) { assert EffectOf(m, effectRef) in m.effects; }
  }

  /** The effect is neither where the loop wants it nor in a state from which it can get there. */
  predicate Refuses(m: MissionRecord, effectRef: string, target: EffectState) {
    && HasEffect(m, effectRef)
    && EffectOf(m, effectRef).state != target && target !in EffectTargets(EffectOf(m, effectRef).state)
  }

  /** On a sound row a turn fails exactly when the row refuses, and then with EFFECT_TRANSITION_NOT_ALLOWED. */
  lemma TurnFailsExactly(row: StoredMission, effectRef: string, target: EffectState, at: int)
    requires HasEffect(row.record, effectRef) && TimesInOrder(row.record)
    ensures var r := Driven(row, EffectAim(effectRef, target), at);
      && (r.Failure? <==> Refuses(row.record, effectRef, target))
      && (r.Failure? <==> r == Failure(EffectTransitionNotAllowed))
  {
    EffectNeverTooEarly(row.record, effectRef, target, at);
  }

  /** Since before, the Mission's row came to refuse what this loop, which began with first, is after. */
  ghost predicate Overtaken(before: Run, later: Run, first: StoredMission, effectRef: string, target: EffectState) {
    exists row :: Occurs(before, later, row) && row.record.key == first.record.key && first.revision < row.revision
      && Refuses(row.record, effectRef, target)
  }

  /** An effect loop is refused exactly when fewer than twelve swaps were stale and the last row read refuses. */
  lemma RefusalIsExact(
    before: Run, later: Run, first: StoredMission, effectRef: string, target: EffectState, at: int,
    rows: seq<StoredMission>)
    requires Reads(before, later, first, EffectAim(effectRef, target), rows)
    requires HasEffect(rows[|rows| - 1].record, effectRef) && TimesInOrder(rows[|rows| - 1].record)
    ensures OutcomeOf(rows, EffectAim(effectRef, target), at) == Failure(EffectTransitionNotAllowed) <==>
      |rows| <= MAX_CAS_STEPS && Refuses(rows[|rows| - 1].record, effectRef, target)
    ensures OutcomeOf(rows, EffectAim(effectRef, target), at) == Failure(EffectTransitionNotAllowed) ==>
      Refuses(first.record, effectRef, target) || Overtaken(before, later, first, effectRef, target)
  {
    TurnFailsExactly(rows[|rows| - 1], effectRef, target, at);
    hide Refuses, Occurs, Driven;
    if |rows| > 1 { RevisionsClimb(before, later, first, EffectAim(effectRef, target), rows, |rows| - 1); }
  }

  lemma RefusalFromRow(
    before: Run, later: Run, first: StoredMission, effectRef: string, target: EffectState, at: int,
    rows: seq<StoredMission>, code: Code)
    requires Reads(before, later, first, EffectAim(effectRef, target), rows) && |rows| <= MAX_CAS_STEPS
    requires HasEffect(rows[|rows| - 1].record, effectRef) && TimesInOrder(rows[|rows| - 1].record)
    requires Driven(rows[|rows| - 1], EffectAim(effectRef, target), at) == Failure(code)
    ensures code == EffectTransitionNotAllowed
    ensures Refuses(first.record, effectRef, target) || Overtaken(before, later, first, effectRef, target)
  {
    TurnFailsExactly(rows[|rows| - 1], effectRef, target, at);
    RefusalIsExact(before, later, first, effectRef, target, at, rows);
  }

  method DriveEffect(sys: System, pid: Pid, first: StoredMission, effectRef: string, target: EffectState, at: int)
    returns (r: Result<StoredMission>)
    requires sys.Valid() && MissionSnapshot(sys.Now(), first)
    requires EffectLicensed(sys.log, pid, first.record, effectRef, target)
    modifies sys, sys.missions, sys.attempts, sys.ledger, sys.references
    ensures sys.Valid() && old(sys.log) <= sys.log && StoresEvolve(old(sys.Now()), sys.Now())
    ensures forall a :: a in sys.log && a.pid == pid && a !in old(sys.log) ==> a.MoveEffect?
    ensures r == Failure(DatabaseError) || Explained(old(sys.log), sys.log, first, EffectAim(effectRef, target), at, r)
    ensures r.Success? ==>
      && EffectIs(r.value.record, effectRef, target)
      && MissionEvolves(first, r.value) && MissionSnapshot(sys.Now(), r.value)
    ensures r.Failure? ==> r.code in {DatabaseError, EffectTransitionNotAllowed, EffectCasExhausted}
    ensures r == Failure(EffectTransitionNotAllowed) ==>
      Refuses(first.record, effectRef, target) || Overtaken(old(sys.log), sys.log, first, effectRef, target)
    ensures sys.quiet && first == old(sys.missions.rows)[first.record.key] ==>
      && r == Driven(first, EffectAim(effectRef, target), at)
      && sys.Now() == old(sys.Now()).(missions := MissionStore.Written(old(sys.missions.rows), first.record.key, r))
      && sys.log == old(sys.log) + StepTaken(pid, first, EffectAim(effectRef, target), at)
  {
    hide Legal, Replay, StoresEvolve, MissionEvolves, TimesInOrder, EffectMoveWarranted, TransitionMissionEffect;
    hide Reads, Explained, Refuses, Overtaken;
    ghost var before := sys.log;
    UnchangedMissionEvolves(first);
    var current := first;
    var i := 0;
    ghost var rows := [first];
    FirstRead(before, first, EffectAim(effectRef, target));
    while i < MAX_CAS_STEPS
      invariant sys.Valid() && before <= sys.log && MissionSnapshot(sys.Now(), current)
      invariant MissionEvolves(first, current) && current.record.key == first.record.key
      invariant EffectLicensed(sys.log, pid, current.record, effectRef, target)
      invariant i <= MAX_CAS_STEPS && |rows| == i + 1 && rows[i] == current
      invariant Reads(before, sys.log, first, EffectAim(effectRef, target), rows)
      invariant forall a :: a in sys.log && a.pid == pid && a !in before ==> a.MoveEffect?
      invariant sys.quiet && first == old(sys.missions.rows)[first.record.key] ==>
        i == 0 && current == first && sys.Now() == old(sys.Now()) && sys.log == before
    {
      ghost var mid := sys.log;
      if EffectOf(current.record, effectRef).state == target {
        sys.Evolved(before);
        ItIsExplained(before, mid, sys.log, first, EffectAim(effectRef, target), at, rows, Success(current));
        return Success(current);
      }
      r := TryMoveEffect(sys, pid, current, effectRef, target, Clamped(at, current.record.updated));
      if r != Failure(StaleRevision) {
        sys.Evolved(before);
        if r != Failure(DatabaseError) {
          ItIsExplained(before, mid, sys.log, first, EffectAim(effectRef, target), at, rows, r);
        }
        if r.Success? {
          MissionEvolutionIsTransitive(first, current, r.value);
          EffectReached(current.record, effectRef, target, Clamped(at, current.record.updated), r.value.record);
        } else if r.code != DatabaseError {
          ReadsLater(before, mid, sys.log, first, EffectAim(effectRef, target), rows);
          RefusalFromRow(before, sys.log, first, effectRef, target, at, rows, r.code);
        }
        return;
      }
      r := RereadMission(sys, pid, current);
      if r.Failure? {
        sys.Evolved(before);
        return;
      }
      EffectLicensePersists(mid, sys.log, pid, current.record, effectRef, target);
      LicenseFollowsEvolution(sys.log, pid, current, r.value, effectRef, target);
      MissionEvolutionIsTransitive(first, current, r.value);
      KeyStays(first, r.value);
      ReadOneMore(before, mid, sys.log, first, EffectAim(effectRef, target), rows, r.value);
      current := r.value;
      rows := rows + [current];
      i := i + 1;
    }
    sys.Evolved(before);
    r := Failure(EffectCasExhausted);
    ItIsExplained(before, sys.log, sys.log, first, EffectAim(effectRef, target), at, rows, r);
  }

  lemma EffectReached(m: MissionRecord, effectRef: string, target: EffectState, at: int, m': MissionRecord)
    requires TransitionMissionEffect(m, effectRef, target, at) == Success(m')
    ensures EffectIs(m', effectRef, target)
  {
    SameIdentityKeepsLookup(m, m', effectRef);
  }
}
