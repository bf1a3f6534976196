/** The sequential runner: which effect may be dispatched next, one gated broadcast, the Mission's advance after
    an acknowledgement, and verification of one effect. */
module SequentialRunner {
  import opened Outcomes
  import opened MissionIdentity
  import opened Missions
  import opened Attempts
  import opened Authorizations
  import opened Evidence
  import opened Protocol
  import opened ProtocolInvariants
  import opened Deployment
  import opened AuthorizedPosts
  import opened CasSteps
  import CasLoops
  import Dispatch
  import Simulation
  import Projection
  import Reconciliation
  import RunnerSafety

  // ---- the gate ----

  predicate Distinct(sequence: seq<string>) {
    forall i, j :: 0 <= i < j < |sequence| ==> sequence[i] != sequence[j]
  }

  /** The first effect of the sequence that is not CHAIN_CONFIRMED. */
  function NextEffect(m: MissionRecord, sequence: seq<string>): (r: Result<Option<string>>)
    ensures r.Failure? ==> r.code == EffectNotFound
  {
    if sequence == [] then Success(None)
    else if !HasEffect(m, sequence[0]) then Failure(EffectNotFound)
    else if EffectOf(m, sequence[0]).state != ChainConfirmed then Success(Some(sequence[0]))
    else NextEffect(m, sequence[1..])
  }

  datatype Gate = Dispatchable | SkipConfirmed

  function GateEffect(m: MissionRecord, sequence: seq<string>, effectRef: string): Result<Gate> {
    if effectRef !in sequence then Failure(InvalidEffectRef)
    else if !HasEffect(m, effectRef) then Failure(EffectNotFound)
    else if EffectOf(m, effectRef).state == ChainConfirmed then Success(SkipConfirmed)
    else
      var next := NextEffect(m, sequence);
      if next.Failure? then Failure(next.code)
      else if next.value != Some(effectRef) then Failure(OutOfSequenceEffect)
      else if m.state != ReadyForExecution then Failure(MissionNotReadyForExecution)
      else if EffectOf(m, effectRef).state != Planned then Failure(EffectNotDispatchable)
      else if !PredecessorsConfirmed(m, sequence, effectRef) then Failure(PredecessorNotChainConfirmed)
      else Success(Dispatchable)
  }

  /** The sequence names this effect, and everything before it is confirmed. */
  predicate PredecessorsConfirmed(m: MissionRecord, sequence: seq<string>, effectRef: string) {
    exists k :: 0 <= k < |sequence| && sequence[k] == effectRef
      && forall i :: 0 <= i < k ==> EffectIs(m, sequence[i], ChainConfirmed)
  }

  lemma {:induction false} NextEffectFollowsConfirmed(m: MissionRecord, sequence: seq<string>)
    ensures NextEffect(m, sequence).Success? && NextEffect(m, sequence).value.Some? ==>
      PredecessorsConfirmed(m, sequence, NextEffect(m, sequence).value.value)
  {
    if sequence != [] {
      if HasEffect(m, sequence[0]) && EffectOf(m, sequence[0]).state == ChainConfirmed {
        NextEffectFollowsConfirmed(m, sequence[1..]);
        var next := NextEffect(m, sequence);
        if next.Success? && next.value.Some? {
          var rest := sequence[1..];
          var k :| 0 <= k < |rest| && rest[k] == next.value.value
            && forall i :: 0 <= i < k ==> EffectIs(m, rest[i], ChainConfirmed);
          assert sequence[k + 1] == rest[k];
          forall i | 0 <= i < k + 1 ensures EffectIs(m, sequence[i], ChainConfirmed) {
            if i > 0 { assert sequence[i] == rest[i - 1]; }
          }
        }
      } else {
        assert sequence[0] == sequence[0];
      }
    }
  }

  lemma {:induction false} FirstUnconfirmedIsNext(m: MissionRecord, sequence: seq<string>, effectRef: string)
    requires Distinct(sequence) && PredecessorsConfirmed(m, sequence, effectRef)
    requires HasEffect(m, effectRef) && EffectOf(m, effectRef).state != ChainConfirmed
    ensures NextEffect(m, sequence) == Success(Some(effectRef))
  {
    var k :| 0 <= k < |sequence| && sequence[k] == effectRef
      && forall i :: 0 <= i < k ==> EffectIs(m, sequence[i], ChainConfirmed);
    if k > 0 {
      var rest := sequence[1..];
      assert EffectIs(m, sequence[0], ChainConfirmed);
      assert rest[k - 1] == effectRef;
      forall i | 0 <= i < k - 1 ensures EffectIs(m, rest[i], ChainConfirmed) {
        assert rest[i] == sequence[i + 1];
      }
      forall i, j | 0 <= i < j < |rest| ensures rest[i] != rest[j] {
        assert sequence[i + 1] != sequence[j + 1];
      }
      FirstUnconfirmedIsNext(m, rest, effectRef);
    }
  }

  /** The gate opens exactly for a planned effect of a ready Mission all of whose predecessors in the sequence
      are confirmed; its own predecessor check never fires. */
  lemma GateOpensExactly(m: MissionRecord, sequence: seq<string>, effectRef: string)
    requires Distinct(sequence)
    ensures GateEffect(m, sequence, effectRef) == Success(Dispatchable) <==>
      m.state == ReadyForExecution && EffectIs(m, effectRef, Planned) && PredecessorsConfirmed(m, sequence, effectRef)
    ensures GateEffect(m, sequence, effectRef) == Success(SkipConfirmed) <==>
      effectRef in sequence && EffectIs(m, effectRef, ChainConfirmed)
    ensures GateEffect(m, sequence, effectRef) != Failure(PredecessorNotChainConfirmed)
  {
    NextEffectFollowsConfirmed(m, sequence);
    if PredecessorsConfirmed(m, sequence, effectRef) && HasEffect(m, effectRef)
      && EffectOf(m, effectRef).state != ChainConfirmed {
      FirstUnconfirmedIsNext(m, sequence, effectRef);
    }
  }

  // ---- what the gate means for the protocol ----

  /** The validated action sheet ties a step of the sequence to its plan and intent. */
  predicate SheetBinds(cfg: Config, s: Stores, effectRef: string, intent: Intent, plan: Plan)
    requires cfg.Ordered?
  {
    && WellFormedPlan(plan)
    && plan.missionKey == cfg.mission && plan.effectId == EffectId(cfg.mission, effectRef)
    && ValidIntent(intent) && IntentIsPlanned(cfg, s, plan.Id(), intent)
  }

  /** The gate was passed on a snapshot; confirmations only accumulate, so the runner's condition holds now. */
  lemma GatePermits(cfg: Config, s: Stores, m: StoredMission, effectRef: string, pid: Pid, plan: Plan, at: int)
    requires cfg.Ordered? && MissionSnapshot(s, m) && m.record.key == cfg.mission
    requires PredecessorsConfirmed(m.record, cfg.sequence, effectRef)
    requires plan.effectId == EffectId(cfg.mission, effectRef)
    ensures RunnerAllows(cfg, s, TakeAttempt(pid, plan.Id(), at))
  {
    hide MissionSnapshot;
    var k :| 0 <= k < |cfg.sequence| && cfg.sequence[k] == effectRef
      && forall i :: 0 <= i < k ==> EffectIs(m.record, cfg.sequence[i], ChainConfirmed);
    forall i | 0 <= i < k ensures ChainConfirmedIn(s, AttemptFor(cfg.mission, cfg.sequence[i])) {
      Reconciliation.SnapshotEffect(s, m, AttemptFor(cfg.mission, cfg.sequence[i]));
    }
    assert EarlierConfirmed(s, cfg, effectRef);
  }

  // ---- after the acknowledgement ----

  method AdvanceMission(sys: System, pid: Pid, current: StoredMission, from: MissionState, target: MissionState, at: int)
    returns (r: Result<StoredMission>)
    requires sys.Valid() && MissionSnapshot(sys.Now(), current)
    modifies sys, sys.missions, sys.attempts, sys.ledger, sys.references
    ensures sys.Valid() && old(sys.log) <= sys.log && StoresEvolve(old(sys.Now()), sys.Now())
    ensures r.Success? ==> MissionEvolves(current, r.value) && MissionSnapshot(sys.Now(), r.value)
    ensures r.Success? ==> r.value.record == if current.record.state == from
      then current.record.(state := target, updated := at) else current.record
    ensures (sys.quiet && current == old(sys.missions.rows)[current.record.key]) ==>
      && (r.Success? <==> current.record.state == from ==>
            TransitionMission(current.record, target, at).Success?)
      && (r.Success? ==> sys.missions.rows[current.record.key] == r.value)
      && sys.Now() == old(sys.Now()).(missions := sys.missions.rows)
  {
    hide Legal, Replay, MissionEvolves;
    if current.record.state != from {
      sys.Evolved(sys.log);
      UnchangedMissionEvolves(current);
      return Success(current);
    }
    hide StoresEvolve;
    r := TryMoveMission(sys, pid, current, target, at);
  }

  predicate Acknowledged(run: Run, pid: Pid, m: MissionRecord, effectRef: string) {
    && m.state !in {Received, Validated} && HasEffect(m, effectRef)
    && AnswerPort(pid, AttemptFor(m.key, effectRef), true) in run
  }

  lemma AcknowledgementFollows(run: Run, later: Run, pid: Pid, known: StoredMission, row: StoredMission, effectRef: string)
    requires run <= later && MissionEvolves(known, row) && Acknowledged(run, pid, known.record, effectRef)
    ensures Acknowledged(later, pid, row.record, effectRef)
  {
    LookupEvolves(known, row, effectRef);
  }

  method AdvanceEffect(
    sys: System, pid: Pid, current: StoredMission, effectRef: string, from: EffectState, target: EffectState, at: int)
    returns (r: Result<StoredMission>)
    requires sys.Valid() && MissionSnapshot(sys.Now(), current) && Acknowledged(sys.log, pid, current.record, effectRef)
    requires target in {Reserved, Submitted} && target in EffectTargets(from)
    modifies sys, sys.missions, sys.attempts, sys.ledger, sys.references
    ensures sys.Valid() && old(sys.log) <= sys.log && StoresEvolve(old(sys.Now()), sys.Now())
    ensures r.Success? ==>
      && MissionEvolves(current, r.value) && MissionSnapshot(sys.Now(), r.value)
      && Acknowledged(sys.log, pid, r.value.record, effectRef)
    ensures r.Success? && EffectIs(current.record, effectRef, from) ==>
      && EffectIs(r.value.record, effectRef, target) && r.value.record.state == current.record.state
      && r.value.record.updated == at
    ensures r.Success? && !EffectIs(current.record, effectRef, from) ==> r.value == current
    ensures (sys.quiet && current == old(sys.missions.rows)[current.record.key]) ==>
      && (r.Success? ==> sys.missions.rows[current.record.key] == r.value)
      && (current.record.updated <= at ==> r.Success?)
  {
    hide Legal, Replay, MissionEvolves, TransitionMissionEffect;
    if EffectOf(current.record, effectRef).state != from {
      sys.Evolved(sys.log);
      UnchangedMissionEvolves(current);
      return Success(current);
    }
    hide StoresEvolve;
    ghost var before := sys.log;
    EffectStepSucceeds(sys.cfg, sys.log, current, effectRef, target, at);
    r := TryMoveEffect(sys, pid, current, effectRef, target, at);
    if r.Success? {
      AcknowledgementFollows(before, sys.log, pid, current, r.value, effectRef);
      CasLoops.EffectReached(current.record, effectRef, target, at, r.value.record);
      EffectStepKeeps(current.record, effectRef, target, at, r.value.record);
    }
  }

  lemma EffectStepKeeps(m: MissionRecord, effectRef: string, target: EffectState, at: int, m': MissionRecord)
    requires TransitionMissionEffect(m, effectRef, target, at) == Success(m')
    ensures m'.state == m.state && m'.updated == at
  {
  }

  lemma EffectStepSucceeds(
    cfg: Config, run: Run, current: StoredMission, effectRef: string, target: EffectState, at: int)
    requires Legal(cfg, run) && current.record.key in Replay(run).missions
    requires HasEffect(current.record, effectRef) && target in EffectTargets(EffectOf(current.record, effectRef).state)
    ensures Replay(run).missions[current.record.key] == current && current.record.updated <= at ==>
      TransitionMissionEffect(current.record, effectRef, target, at).Success?
  {
    Projection.RowIsOrdered(cfg, run, current);
    assert EffectOf(current.record, effectRef) in current.record.effects;
  }

  /** Move the Mission on after a durable acknowledgement: EXECUTING, RESERVED, SUBMITTED, VERIFYING, each tried
      once at the caller's time.  Some(row) says that all of it is done. */
  method AdvanceAfterAck(sys: System, pid: Pid, known: StoredMission, effectRef: string, at: int)
    returns (r: Option<StoredMission>)
    requires sys.Valid() && MissionSnapshot(sys.Now(), known) && Acknowledged(sys.log, pid, known.record, effectRef)
    modifies sys, sys.missions, sys.attempts, sys.ledger, sys.references
    ensures sys.Valid() && old(sys.log) <= sys.log
    ensures r.Some? ==>
      && MissionSnapshot(sys.Now(), r.value) && MissionEvolves(known, r.value)
      && r.value.record.state == Verifying && EffectIs(r.value.record, effectRef, Submitted)
    ensures (sys.quiet && known == old(sys.missions.rows)[known.record.key]
        && known.record.state == ReadyForExecution && EffectIs(known.record, effectRef, Planned)) ==>
      && (r.Some? <==> known.record.updated <= at)
      && (r.Some? ==> sys.missions.rows[known.record.key] == r.value)
  {
    hide Legal, Replay, MissionEvolves, StoresEvolve, Acknowledged;
    ghost var before := sys.log;
    var read := RereadMission(sys, pid, known);
    if read.Failure? { return None; }
    AcknowledgementFollows(before, sys.log, pid, known, read.value, effectRef);
    CasLoops.KeyStays(known, read.value);
    r := AdvanceFrom(sys, pid, read.value, effectRef, at);
    if r.Some? { MissionEvolutionIsTransitive(known, read.value, r.value); }
  }

  method AdvanceFrom(sys: System, pid: Pid, first: StoredMission, effectRef: string, at: int)
    returns (r: Option<StoredMission>)
    requires sys.Valid() && MissionSnapshot(sys.Now(), first) && Acknowledged(sys.log, pid, first.record, effectRef)
    modifies sys, sys.missions, sys.attempts, sys.ledger, sys.references
    ensures sys.Valid() && old(sys.log) <= sys.log
    ensures r.Some? ==>
      && MissionSnapshot(sys.Now(), r.value) && MissionEvolves(first, r.value)
      && r.value.record.state == Verifying && EffectIs(r.value.record, effectRef, Submitted)
    ensures (sys.quiet && first == old(sys.missions.rows)[first.record.key]
        && first.record.state == ReadyForExecution && EffectIs(first.record, effectRef, Planned)) ==>
      && (r.Some? <==> first.record.updated <= at)
      && (r.Some? ==> sys.missions.rows[first.record.key] == r.value)
  {
    hide Legal, Replay, MissionEvolves, StoresEvolve, Acknowledged;
    ghost var before := sys.log;
    var executing := AdvanceMission(sys, pid, first, ReadyForExecution, Executing, at);
    if executing.Failure? { return None; }
    AcknowledgementFollows(before, sys.log, pid, first, executing.value, effectRef);
    CasLoops.KeyStays(first, executing.value);
    var submitted := Submit(sys, pid, executing.value, effectRef, at);
    if submitted.Failure? { return None; }
    CasLoops.KeyStays(executing.value, submitted.value);
    var verifying := AdvanceMission(sys, pid, submitted.value, Executing, Verifying, at);
    if verifying.Failure? { return None; }
    MissionEvolutionIsTransitive(first, executing.value, submitted.value);
    MissionEvolutionIsTransitive(first, submitted.value, verifying.value);
    if verifying.value.record.state == Verifying && EffectIs(verifying.value.record, effectRef, Submitted) {
      r := Some(verifying.value);
    } else {
      r := None;
    }
  }

  method Submit(sys: System, pid: Pid, current: StoredMission, effectRef: string, at: int)
    returns (r: Result<StoredMission>)
    requires sys.Valid() && MissionSnapshot(sys.Now(), current) && Acknowledged(sys.log, pid, current.record, effectRef)
    modifies sys, sys.missions, sys.attempts, sys.ledger, sys.references
    ensures sys.Valid() && old(sys.log) <= sys.log
    ensures r.Success? ==> MissionEvolves(current, r.value) && MissionSnapshot(sys.Now(), r.value)
    ensures r.Success? && EffectIs(current.record, effectRef, Planned) ==>
      && EffectIs(r.value.record, effectRef, Submitted) && r.value.record.state == current.record.state
      && r.value.record.updated == at
    ensures (sys.quiet && current == old(sys.missions.rows)[current.record.key]) ==>
      && (r.Success? ==> sys.missions.rows[current.record.key] == r.value)
      && (current.record.updated <= at ==> r.Success?)
  {
    hide Legal, Replay, MissionEvolves, StoresEvolve, Acknowledged;
    r := AdvanceEffect(sys, pid, current, effectRef, Planned, Reserved, at);
    if r.Failure? { return; }
    var reserved := r.value;
    CasLoops.KeyStays(current, reserved);
    r := AdvanceEffect(sys, pid, reserved, effectRef, Reserved, Submitted, at);
    if r.Success? { MissionEvolutionIsTransitive(current, reserved, r.value); }
  }

  // ---- one gated broadcast ----

  /** Approvals are texts derived by digest from the sheet, the effect and the simulated body. */
  datatype Challenge = Challenge(sheet: string, effectRef: string, attemptId: AttemptId, body: BodyFingerprint)

  function ChallengeFor(sheet: string, effectRef: string, receipt: Receipt): Challenge {
    Challenge(sheet, effectRef, receipt.attemptId, receipt.body)
  }

  /** An approval of a broadcast is for one effect of one sheet and for the one body that was simulated. */
  lemma ChallengePinsTransfer(
    sheet: string, effectRef: string, receipt: Receipt, sheet': string, effectRef': string, receipt': Receipt)
    ensures ChallengeFor(sheet, effectRef, receipt) == ChallengeFor(sheet', effectRef', receipt') <==>
      && sheet == sheet' && effectRef == effectRef'
      && receipt.attemptId == receipt'.attemptId && receipt.body == receipt'.body
  {
  }

  datatype Order = Order(
    effectRef: string, sheet: string, simulationApproval: string, broadcastReference: string,
    intent: Intent, plan: Plan, approval: Challenge, approveWrite: bool)

  /** Five minutes, in microseconds. */
  const APPROVAL_WINDOW := 300_000_000

  function AuthorizationFor(o: Order, receipt: Receipt, at: int): Dispatch.BroadcastAuthorization {
    Dispatch.BroadcastAuthorization(o.sheet, o.broadcastReference, o.plan.Id(), o.plan.fingerprint, receipt.body,
      at, at + APPROVAL_WINDOW)
  }

  datatype Readiness = SkipIt | StopIt(referencePresent: bool) | Go(mission: StoredMission, port: Dispatch.BroadcastPort)

  /** Nothing has been started for this plan yet. */
  predicate Untouched(s: Stores, id: AttemptId) {
    id !in s.references && (id in s.attempts ==> s.attempts[id].record.state == Prepared)
  }

  function PortFor(o: Order, receipt: Receipt, at: int): Dispatch.BroadcastPort {
    Dispatch.BroadcastPort(o.intent, receipt, AuthorizationFor(o, receipt, at))
  }

  /** What the reads of a broadcast must find for it to go on to the dispatcher. */
  predicate Startable(cfg: Config, s: Stores, o: Order, at: int)
    requires cfg.Ordered?
  {
    && o.approveWrite && cfg.mission in s.missions
    && GateEffect(s.missions[cfg.mission].record, cfg.sequence, o.effectRef) == Success(Dispatchable)
    && LoadReceipt(s.ledger, o.simulationApproval).Success?
    && var receipt := LoadReceipt(s.ledger, o.simulationApproval).value;
    && o.approval == ChallengeFor(o.sheet, o.effectRef, receipt)
    && Untouched(s, o.plan.Id())
    && Dispatch.Backed(s, PortFor(o, receipt, at))
  }

  /** The plan is for the intent, and the broadcast's approval and the attempt's broadcast have not been claimed yet. */
  predicate Deliverable(s: Stores, o: Order) {
    && o.plan.namespace == PROVIDER_NAMESPACE
    && o.plan.fingerprint == RequestFingerprint(o.plan.namespace, o.plan.requestKey, o.intent)
    && o.broadcastReference !in s.ledger
    && forall a :: a in s.ledger ==> s.ledger[a].phase != Broadcast || s.ledger[a].attemptId != o.plan.Id()
  }

  /** The provider takes the transfer up under a reference that no attempt has yet. */
  ghost predicate Delivered(s: Stores, answer: Answer) {
    exists reference :: TakesUp(answer, reference)
      && forall id :: id in s.references ==>
           s.references[id].namespace != PROVIDER_NAMESPACE || s.references[id].reference != reference
  }

  /** A startable, reachable broadcast is accepted if and only if it is deliverable and delivered: nothing else, in
      particular no approval window, is in its way. */
  lemma DeliveredExactly(cfg: Config, s: Stores, o: Order, at: int, answer: Answer)
    requires cfg.Ordered? && ValidIntent(o.intent)
    ensures Startable(cfg, s, o, at) && Dispatch.DispatchReaches(s, o.plan, at) ==>
      var port := PortFor(o, LoadReceipt(s.ledger, o.simulationApproval).value, at);
      Dispatch.PortOutcome(s, port, PROVIDER_NAMESPACE, Dispatch.TakenRecord(s, o.plan, at), answer) == Some(true) <==>
        Deliverable(s, o) && Delivered(s, answer)
  {
    if Startable(cfg, s, o, at) && Dispatch.DispatchReaches(s, o.plan, at) {
      var port := PortFor(o, LoadReceipt(s.ledger, o.simulationApproval).value, at);
      var attempt := Dispatch.TakenRecord(s, o.plan, at);
      TakenAndInForce(cfg, s, o, at, port, attempt);
      VerdictsAreExact(answer);
      hide GateEffect, Dispatch.Backed, Dispatch.DispatchReaches, BroadcastBody, TakesUp, ClassifyBroadcast;
      hide Dispatch.TakenRecord, PortFor, LoadReceipt, Dispatch.PortAccepts, Dispatch.BroadcastRow, Startable;
    }
  }

  lemma TakenAndInForce(
    cfg: Config, s: Stores, o: Order, at: int, port: Dispatch.BroadcastPort, attempt: Attempt)
    requires cfg.Ordered? && ValidIntent(o.intent) && Startable(cfg, s, o, at) && Dispatch.DispatchReaches(s, o.plan, at)
    requires port == PortFor(o, LoadReceipt(s.ledger, o.simulationApproval).value, at)
    requires attempt == Dispatch.TakenRecord(s, o.plan, at)
    ensures attempt.plan == o.plan && attempt.Id() == o.plan.Id() && attempt.Id() !in s.references && port.intent == o.intent
    ensures Dispatch.PortAccepts(port, attempt) <==>
      && o.plan.namespace == PROVIDER_NAMESPACE
      && o.plan.fingerprint == RequestFingerprint(o.plan.namespace, o.plan.requestKey, o.intent)
    ensures ClaimIn(s.ledger, Dispatch.BroadcastRow(port, attempt)).Success? <==>
      && o.broadcastReference !in s.ledger
      && forall a :: a in s.ledger ==> s.ledger[a].phase != Broadcast || s.ledger[a].attemptId != o.plan.Id()
    ensures forall reference :: CreateReferenceIn(s.references, Dispatch.NewReference(attempt, reference)).Success? <==>
      forall id :: id in s.references ==>
        s.references[id].namespace != o.plan.namespace || s.references[id].reference != reference
  {
    Dispatch.AcceptedIsInForce(port, attempt);
    hide GateEffect, BroadcastBody, SimulationBody, ValidIntent, Dispatch.Dispatchable;
  }

  method ReadMission(sys: System, pid: Pid, key: MissionKey) returns (r: Result<StoredMission>)
    requires sys.Valid()
    modifies sys, sys.missions, sys.attempts, sys.ledger, sys.references
    ensures sys.Valid() && ContinuedByOthers(pid, old(sys.log), sys.log) && StoresEvolve(old(sys.Now()), sys.Now())
    ensures r.Success? ==> r.value.record.key == key && MissionSnapshot(sys.Now(), r.value)
    ensures r.Failure? ==> r.code in {DatabaseError, MissionNotFound}
    ensures sys.quiet ==>
      && sys.log == old(sys.log) && sys.Now() == old(sys.Now())
      && (r.Success? <==> key in sys.missions.rows) && (r.Success? ==> r.value == sys.missions.rows[key])
  {
    var fault := sys.Yield(pid);
    Reconciliation.SoundMission(sys.cfg, sys.log, key);
    hide Legal, Replay, StoresEvolve, MissionSnapshot;
    var found := sys.missions.Get(key, fault);
    if found.Failure? { return Failure(found.code); }
    if found.value.None? { return Failure(MissionNotFound); }
    r := Success(found.value.value);
  }

  /** Has a reference been stored or the attempt been started? */
  method ReadProgress(sys: System, pid: Pid, id: AttemptId) returns (r: Result<(bool, bool)>)
    requires sys.Valid()
    modifies sys, sys.missions, sys.attempts, sys.ledger, sys.references
    ensures sys.Valid() && ContinuedByOthers(pid, old(sys.log), sys.log) && StoresEvolve(old(sys.Now()), sys.Now())
    ensures r.Failure? ==> r.code == DatabaseError
    ensures sys.quiet ==>
      && sys.log == old(sys.log) && sys.Now() == old(sys.Now()) && r.Success?
      && (!r.value.0 && !r.value.1 <==> Untouched(sys.Now(), id))
  {
    ghost var before := sys.log;
    hide Legal, Replay, StoresEvolve;
    var fault := sys.Yield(pid);
    var reference := sys.references.Get(id, fault);
    if reference.Failure? { return Failure(reference.code); }
    fault := sys.Yield(pid);
    sys.Evolved(before);
    var attempt := sys.attempts.Get(id, fault);
    if attempt.Failure? { return Failure(attempt.code); }
    r := Success((reference.value.Some?, attempt.value.Some? && attempt.value.value.record.state != Prepared));
  }

  lemma SkippedIsConfirmed(s: Stores, m: StoredMission, effectRef: string)
    requires MissionSnapshot(s, m) && EffectIs(m.record, effectRef, ChainConfirmed)
    ensures ChainConfirmedIn(s, AttemptFor(m.record.key, effectRef))
  {
    Reconciliation.SnapshotEffect(s, m, AttemptFor(m.record.key, effectRef));
  }

  /** The Mission is there and its gate is open for this effect. */
  predicate GateOpen(cfg: Config, s: Stores, effectRef: string)
    requires cfg.Ordered?
  {
    && cfg.mission in s.missions
    && GateEffect(s.missions[cfg.mission].record, cfg.sequence, effectRef) == Success(Dispatchable)
  }

  /** Everything a broadcast reads and checks before it may dispatch. */
  method Ready(sys: System, pid: Pid, o: Order, at: int) returns (r: Result<Readiness>)
    requires sys.Valid() && sys.cfg.Ordered? && Distinct(sys.cfg.sequence) && ValidIntent(o.intent)
    modifies sys, sys.missions, sys.attempts, sys.ledger, sys.references
    ensures sys.Valid() && ContinuedByOthers(pid, old(sys.log), sys.log) && StoresEvolve(old(sys.Now()), sys.Now())
    ensures r == Success(SkipIt) ==> ChainConfirmedIn(sys.Now(), AttemptFor(sys.cfg.mission, o.effectRef))
    ensures r.Success? && r.value.Go? ==>
      && MissionSnapshot(sys.Now(), r.value.mission) && r.value.mission.record.key == sys.cfg.mission
      && r.value.mission.record.state == ReadyForExecution && EffectIs(r.value.mission.record, o.effectRef, Planned)
      && PredecessorsConfirmed(r.value.mission.record, sys.cfg.sequence, o.effectRef)
      && Dispatch.Backed(sys.Now(), r.value.port) && r.value.port.intent == o.intent
    ensures RejectedFor(old(sys.Now()), o) ==> !(r.Success? && r.value.Go?)
    ensures (sys.quiet && o.approveWrite && GateOpen(sys.cfg, old(sys.Now()), o.effectRef) && RejectedFor(old(sys.Now()), o)
        && Challenged(old(sys.Now()), o) && Untouched(old(sys.Now()), o.plan.Id())) ==>
      r == Failure(SimulationNotEligible)
    ensures sys.quiet ==>
      && sys.log == old(sys.log) && sys.Now() == old(sys.Now())
      && (r.Success? && r.value.Go? <==> Startable(sys.cfg, sys.Now(), o, at))
      && (r.Success? && r.value.Go? ==>
            && r.value.mission == sys.missions.rows[sys.cfg.mission]
            && r.value.port == PortFor(o, LoadReceipt(sys.ledger.rows, o.simulationApproval).value, at))
  {
    hide Legal, Replay, StoresEvolve, MissionSnapshot, GateEffect, PredecessorsConfirmed, Dispatch.Backed, LoadReceipt;
    hide ValidIntent, Untouched;
    ghost var (s, before) := (sys.Now(), sys.log);
    sys.Evolved(before);
    if !o.approveWrite { return Failure(BroadcastRuntimeFlagRequired); }
    var read := ReadMission(sys, pid, sys.cfg.mission);
    if read.Failure? { return Failure(read.code); }
    var mission := read.value;
    GateOpensExactly(mission.record, sys.cfg.sequence, o.effectRef);
    var gate := GateEffect(mission.record, sys.cfg.sequence, o.effectRef);
    if gate.Failure? { return Failure(gate.code); }
    if gate.value == SkipConfirmed {
      SkippedIsConfirmed(sys.Now(), mission, o.effectRef);
      return Success(SkipIt);
    }
    label gated:
    if RejectedFor(s, o) { ReceiptStays(s, sys.Now(), o.simulationApproval); }
    var begun := ReadyPort(sys, pid, o, at);
    sys.Evolved(before);
    SnapshotsPersist(old@gated(sys.Now()), sys.Now());
    if begun.Failure? { return Failure(begun.code); }
    r := Success(match begun.value
                 case (present, None) => StopIt(present)
                 case (_, Some(port)) => Go(mission, port));
  }

  /** The durable receipt of this order's simulation says that the transfer was rejected. */
  predicate RejectedFor(s: Stores, o: Order) {
    && LoadReceipt(s.ledger, o.simulationApproval).Success?
    && LoadReceipt(s.ledger, o.simulationApproval).value.verdict == SimulationRejected
  }

  /** The approval of this order was derived from the durable receipt of its simulation. */
  predicate Challenged(s: Stores, o: Order) {
    && LoadReceipt(s.ledger, o.simulationApproval).Success?
    && o.approval == ChallengeFor(o.sheet, o.effectRef, LoadReceipt(s.ledger, o.simulationApproval).value)
  }

  /** A final receipt stays as it is. */
  lemma ReceiptStays(s: Stores, s': Stores, approval: string)
    requires StoresEvolve(s, s') && LoadReceipt(s.ledger, approval).Success?
    ensures LoadReceipt(s'.ledger, approval) == LoadReceipt(s.ledger, approval)
  {
    Simulation.FinalRowStays(s, s', approval);
  }

  /** The reads after the gate: receipt, approval, progress so far, and the port built on all of it. */
  method ReadyPort(sys: System, pid: Pid, o: Order, at: int) returns (r: Result<(bool, Option<Dispatch.BroadcastPort>)>)
    requires sys.Valid() && ValidIntent(o.intent)
    modifies sys, sys.missions, sys.attempts, sys.ledger, sys.references
    ensures sys.Valid() && ContinuedByOthers(pid, old(sys.log), sys.log) && StoresEvolve(old(sys.Now()), sys.Now())
    ensures r.Success? && r.value.1.Some? ==>
      Dispatch.Backed(sys.Now(), r.value.1.value) && r.value.1.value.intent == o.intent
    ensures RejectedFor(old(sys.Now()), o) ==> !(r.Success? && r.value.1.Some?)
    ensures sys.quiet && RejectedFor(old(sys.Now()), o) && Challenged(old(sys.Now()), o) && Untouched(old(sys.Now()), o.plan.Id()) ==>
      r == Failure(SimulationNotEligible)
    ensures sys.quiet ==>
      && sys.log == old(sys.log) && sys.Now() == old(sys.Now())
      && (r.Success? && r.value.1.Some? <==>
            && LoadReceipt(sys.ledger.rows, o.simulationApproval).Success?
            && o.approval == ChallengeFor(o.sheet, o.effectRef, LoadReceipt(sys.ledger.rows, o.simulationApproval).value)
            && Untouched(sys.Now(), o.plan.Id())
            && Dispatch.Backed(sys.Now(), PortFor(o, LoadReceipt(sys.ledger.rows, o.simulationApproval).value, at)))
      && (r.Success? && r.value.1.Some? ==>
            r.value.1.value == PortFor(o, LoadReceipt(sys.ledger.rows, o.simulationApproval).value, at))
  {
    hide Legal, Replay, StoresEvolve, Dispatch.Backed, LoadReceipt, ValidIntent, Untouched;
    ghost var (s, before) := (sys.Now(), sys.log);
    var receipt := Simulation.LoadDurableReceipt(sys, pid, o.simulationApproval);
    if RejectedFor(s, o) { ReceiptStays(s, sys.Now(), o.simulationApproval); }
    if receipt.Failure? { return Failure(receipt.code); }
    if o.approval != ChallengeFor(o.sheet, o.effectRef, receipt.value) { return Failure(BroadcastApprovalMismatch); }
    var progress := ReadProgress(sys, pid, o.plan.Id());
    sys.Evolved(before);
    if progress.Failure? { return Failure(progress.code); }
    if progress.value.0 || progress.value.1 { return Success((progress.value.0, None)); }
    var port := Dispatch.OpenBroadcastPort(sys, pid, o.intent, receipt.value, AuthorizationFor(o, receipt.value, at));
    sys.Evolved(before);
    if port.Failure? { return Failure(port.code); }
    r := Success((false, Some(port.value)));
  }

  // ---- one gated simulation ----

  datatype SimulationChallenge = SimulationChallenge(sheet: string, effectRef: string, attemptId: AttemptId)

  datatype SimulationReport =
    | SimulationSkipped | AlreadySimulated(receipt: Receipt) | Simulated(receipt: Receipt)
    | RejectedOutright(receipt: Receipt) | SimulationStopped(reason: Code)

  function SimulationAuthorizationFor(o: Order, at: int): Simulation.SimulationAuthorization {
    Simulation.SimulationAuthorization(
      o.sheet, o.simulationApproval, o.plan.Id(), o.plan.fingerprint, at, at + APPROVAL_WINDOW)
  }

  /** The gate is open and the approval is the one the sheet asks for. */
  predicate SimulationOpen(cfg: Config, s: Stores, o: Order, approval: SimulationChallenge)
    requires cfg.Ordered?
  {
    GateOpen(cfg, s, o.effectRef) && approval == SimulationChallenge(o.sheet, o.effectRef, o.plan.Id())
  }

  /** Nothing final is known of this order's simulation yet. */
  predicate Unsimulated(s: Stores, o: Order) {
    LoadReceipt(s.ledger, o.simulationApproval).Failure?
  }

  /** What an undisturbed simulation reports, each outcome if and only if. */
  predicate SimulationReported(
    cfg: Config, s: Stores, o: Order, approval: SimulationChallenge, at: int, answer: Answer, r: Result<SimulationReport>)
    requires cfg.Ordered? && ValidIntent(o.intent)
  {
    var sent := Unsimulated(s, o) && Simulation.Simulable(s, o.plan, o.intent, SimulationAuthorizationFor(o, at), at);
    && (r == Success(SimulationSkipped) <==>
          && cfg.mission in s.missions
          && GateEffect(s.missions[cfg.mission].record, cfg.sequence, o.effectRef) == Success(SkipConfirmed))
    && (r.Success? && r.value.AlreadySimulated? <==> SimulationOpen(cfg, s, o, approval) && !Unsimulated(s, o))
    && (r.Success? && r.value.AlreadySimulated? ==>
          Success(r.value.receipt) == LoadReceipt(s.ledger, o.simulationApproval))
    && (r.Success? && r.value.Simulated? <==>
          SimulationOpen(cfg, s, o, approval) && sent && WouldPass(answer))
    && (r.Success? && r.value.RejectedOutright? <==>
          SimulationOpen(cfg, s, o, approval) && sent && WouldFail(answer))
    && (r.Success? && r.value.SimulationStopped? <==>
          && SimulationOpen(cfg, s, o, approval) && Unsimulated(s, o)
          && !(sent && (WouldPass(answer) || WouldFail(answer))))
  }

  /** Simulate one effect of the sequence.  Nothing is sent on a skip or when a final receipt is already durable.
      A fresh pass is an eligible durable receipt; a repeated pass hands back whatever receipt is durable, and that
      one is eligible if and only if its ledger row is, so it may be a rejection. */
  method ExecuteSimulation(sys: System, pid: Pid, o: Order, approval: SimulationChallenge, at: int, answer: Answer)
    returns (r: Result<SimulationReport>)
    requires sys.Valid() && sys.Fresh(pid) && sys.cfg.Ordered? && Distinct(sys.cfg.sequence)
    requires ValidIntent(o.intent) && WellFormedPlan(o.plan)
    modifies sys, sys.missions, sys.attempts, sys.ledger, sys.references
    ensures sys.Valid() && old(sys.log) <= sys.log
    ensures r == Success(SimulationSkipped) ==>
      ChainConfirmedIn(sys.Now(), AttemptFor(sys.cfg.mission, o.effectRef)) && sys.Fresh(pid)
    ensures r.Success? && r.value.AlreadySimulated? ==>
      && sys.Fresh(pid) && LoadReceipt(sys.ledger.rows, o.simulationApproval) == Success(r.value.receipt)
      && o.simulationApproval in sys.ledger.rows
      && (r.value.receipt.verdict == Eligible <==>
            sys.ledger.rows[o.simulationApproval].state == EligibleForBroadcastApproval)
    ensures r.Success? && r.value.Simulated? ==>
      && r.value.receipt.verdict == Eligible && r.value.receipt.body == BodyFingerprint(SimulationBody(o.intent))
      && LoadReceipt(sys.ledger.rows, o.simulationApproval) == Success(r.value.receipt)
    ensures r.Success? && r.value.RejectedOutright? ==>
      && r.value.receipt.verdict == SimulationRejected
      && LoadReceipt(sys.ledger.rows, o.simulationApproval) == Success(r.value.receipt)
    ensures r.Failure? ==> sys.Fresh(pid)
    ensures sys.quiet ==> SimulationReported(sys.cfg, old(sys.Now()), o, approval, at, answer, r)
    ensures sys.quiet && r.Success? && r.value.AlreadySimulated? ==> sys.log == old(sys.log) && sys.Now() == old(sys.Now())
  {
    hide Legal, Replay, StoresEvolve, MissionSnapshot;
    hide GateEffect, LoadReceipt, ValidIntent, SimulationBody, WouldPass, WouldFail, Simulation.Simulable;
    ghost var before := sys.log;
    var read := ReadMission(sys, pid, sys.cfg.mission);
    if read.Failure? { return Failure(read.code); }
    GateOpensExactly(read.value.record, sys.cfg.sequence, o.effectRef);
    var gate := GateEffect(read.value.record, sys.cfg.sequence, o.effectRef);
    if gate.Failure? { return Failure(gate.code); }
    if gate.value == SkipConfirmed {
      SkippedIsConfirmed(sys.Now(), read.value, o.effectRef);
      return Success(SimulationSkipped);
    }
    if approval != SimulationChallenge(o.sheet, o.effectRef, o.plan.Id()) { return Failure(SimulationApprovalMismatch); }
    r := SimulateGated(sys, pid, o, at, answer);
  }

  /** The gate has let this order through: hand back a receipt that is durable already, or simulate. */
  method SimulateGated(sys: System, pid: Pid, o: Order, at: int, answer: Answer) returns (r: Result<SimulationReport>)
    requires sys.Valid() && sys.Fresh(pid) && ValidIntent(o.intent) && WellFormedPlan(o.plan)
    modifies sys, sys.missions, sys.attempts, sys.ledger, sys.references
    ensures sys.Valid() && old(sys.log) <= sys.log
    ensures r != Success(SimulationSkipped)
    ensures r.Success? && r.value.AlreadySimulated? ==>
      && sys.Fresh(pid) && LoadReceipt(sys.ledger.rows, o.simulationApproval) == Success(r.value.receipt)
      && o.simulationApproval in sys.ledger.rows
      && (r.value.receipt.verdict == Eligible <==>
            sys.ledger.rows[o.simulationApproval].state == EligibleForBroadcastApproval)
    ensures r.Success? && r.value.Simulated? ==>
      && r.value.receipt.verdict == Eligible && r.value.receipt.body == BodyFingerprint(SimulationBody(o.intent))
      && LoadReceipt(sys.ledger.rows, o.simulationApproval) == Success(r.value.receipt)
    ensures r.Success? && r.value.RejectedOutright? ==>
      && r.value.receipt.verdict == SimulationRejected
      && LoadReceipt(sys.ledger.rows, o.simulationApproval) == Success(r.value.receipt)
    ensures r.Failure? ==> sys.Fresh(pid)
    ensures sys.quiet ==>
      var s := old(sys.Now());
      var sent := Unsimulated(s, o) && Simulation.Simulable(s, o.plan, o.intent, SimulationAuthorizationFor(o, at), at);
      && r.Success?
      && (r.value.AlreadySimulated? <==> !Unsimulated(s, o))
      && (r.value.AlreadySimulated? ==>
            && Success(r.value.receipt) == LoadReceipt(s.ledger, o.simulationApproval)
            && sys.log == old(sys.log) && sys.Now() == old(sys.Now()))
      && (r.value.Simulated? <==> sent && WouldPass(answer))
      && (r.value.RejectedOutright? <==> sent && WouldFail(answer))
      && (r.value.SimulationStopped? <==> Unsimulated(s, o) && !(sent && (WouldPass(answer) || WouldFail(answer))))
  {
    hide Legal, Replay, StoresEvolve, LoadReceipt, ValidIntent, WellFormedPlan, SimulationBody, WouldPass, WouldFail;
    hide Simulation.Simulable, Simulation.CheckSimulation;
    var existing := Simulation.LoadDurableReceipt(sys, pid, o.simulationApproval);
    LoadedExactly(sys.ledger.rows, o.simulationApproval);
    if existing.Success? { return Success(AlreadySimulated(existing.value)); }
    if existing.code !in {SimulationReceiptNotFound, SimulationReceiptNotFinal} { return Failure(existing.code); }
    var receipt := Simulation.Simulate(sys, pid, o.plan, o.intent, SimulationAuthorizationFor(o, at), at, answer);
    if receipt.Failure? { return Success(SimulationStopped(receipt.code)); }
    r := Success(if receipt.value.verdict == Eligible then Simulated(receipt.value) else RejectedOutright(receipt.value));
  }

  lemma LoadedExactly(rows: map<string, Authorization>, approval: string)
    ensures LoadReceipt(rows, approval).Success? ==>
      && approval in rows
      && (LoadReceipt(rows, approval).value.verdict == Eligible <==> rows[approval].state == EligibleForBroadcastApproval)
    ensures LoadReceipt(rows, approval).Failure? ==>
      LoadReceipt(rows, approval).code in {SimulationReceiptNotFound, SimulationReceiptNotFinal}
  {
  }

  datatype Report =
    | Skipped | ReconcileFirst(referencePresent: bool) | Stopped(reason: Code) | Incomplete | Acked(advanced: bool)

  /** Dispatch failures the runner turns into a stop report; others it passes on. */
  const STOP_CODES: set<Code> :=
    {MissionNotFound, MissionNotReadyForExecution, EffectNotFound, EffectNotDispatchable, ReconciliationRequired,
     ExecutionOutcomeUnknown}

  /** Broadcast one effect of the sequence.  The port is never entered on a skip, a reconcile-first stop or any
      stop other than an unknown outcome; an acknowledgement has its provider reference; and a skip means the
      effect is CHAIN_CONFIRMED.  Alone, the port is entered exactly when everything read is in place and the
      dispatcher reaches it, and an accepted broadcast leaves the Mission VERIFYING with the effect SUBMITTED
      unless the Mission is dated after the broadcast. */
  method ExecuteBroadcast(sys: System, pid: Pid, o: Order, at: int, answer: Answer) returns (r: Result<Report>)
    requires sys.Valid() && sys.Fresh(pid) && sys.cfg.Ordered? && Distinct(sys.cfg.sequence)
    requires SheetBinds(sys.cfg, sys.Now(), o.effectRef, o.intent, o.plan)
    modifies sys, sys.missions, sys.attempts, sys.ledger, sys.references
    ensures sys.Valid() && old(sys.log) <= sys.log
    ensures r == Success(Skipped) ==> ChainConfirmedIn(sys.Now(), o.plan.Id())
    ensures r.Success? && (r.value.Skipped? || r.value.ReconcileFirst?) ==> CallPort(pid, o.plan.Id()) !in sys.log
    ensures r.Success? && r.value.Stopped? ==>
      (CallPort(pid, o.plan.Id()) in sys.log <==> r.value.reason == ExecutionOutcomeUnknown)
    ensures r.Success? && r.value.Acked? ==>
      CallPort(pid, o.plan.Id()) in sys.log && Dispatch.HasReference(sys.Now(), o.plan)
    ensures r.Failure? && r.code != DatabaseError ==> CallPort(pid, o.plan.Id()) !in sys.log
    ensures RejectedFor(old(sys.Now()), o) ==> sys.Fresh(pid)
    ensures (sys.quiet && o.approveWrite && GateOpen(sys.cfg, old(sys.Now()), o.effectRef) && RejectedFor(old(sys.Now()), o)
        && Challenged(old(sys.Now()), o) && Untouched(old(sys.Now()), o.plan.Id())) ==>
      r == Failure(SimulationNotEligible)
    ensures sys.quiet ==>
      (CallPort(pid, o.plan.Id()) in sys.log <==>
         Startable(sys.cfg, old(sys.Now()), o, at) && Dispatch.DispatchReaches(old(sys.Now()), o.plan, at))
    ensures (sys.quiet && Startable(sys.cfg, old(sys.Now()), o, at)
        && Dispatch.DispatchReaches(old(sys.Now()), o.plan, at)) ==>
      (r.Success? && r.value.Acked? <==> Deliverable(old(sys.Now()), o) && Delivered(old(sys.Now()), answer))
    ensures sys.quiet && r.Success? && r.value.Acked? && sys.cfg.mission in old(sys.missions.rows) ==>
      && r.value.advanced == (old(sys.missions.rows)[sys.cfg.mission].record.updated <= at)
      && (r.value.advanced ==>
            && sys.cfg.mission in sys.missions.rows && sys.missions.rows[sys.cfg.mission].record.state == Verifying
            && EffectIs(sys.missions.rows[sys.cfg.mission].record, o.effectRef, Submitted))
  {
    hide Legal, Replay, StoresEvolve, MissionSnapshot;
    hide Startable, Dispatch.DispatchReaches, Dispatch.Backed, IntentIsPlanned;
    hide Dispatch.HasReference, PredecessorsConfirmed, RejectedFor, Challenged, GateOpen, Untouched;
    hide Dispatch.PortOutcome, Dispatch.TakenRecord, Deliverable, Delivered;
    DeliveredExactly(sys.cfg, sys.Now(), o, at, answer);
    var readied := Ready(sys, pid, o, at);
    if readied.Failure? { return Failure(readied.code); }
    match readied.value
    case SkipIt => r := Success(Skipped);
    case StopIt(present) => r := Success(ReconcileFirst(present));
    case Go(mission, port) =>
      PlannedIntentPersists(sys.cfg, old(sys.Now()), sys.Now(), o.plan.Id(), o.intent);
      GatePermits(sys.cfg, sys.Now(), mission, o.effectRef, pid, o.plan, at);
      assert Dispatch.Permitted(sys.cfg, sys.Now(), pid, o.plan, port, at);
      hide Dispatch.Permitted;
      r := DispatchAndAdvance(sys, pid, o, mission, port, at, answer);
  }

  method DispatchAndAdvance(
    sys: System, pid: Pid, o: Order, mission: StoredMission, port: Dispatch.BroadcastPort, at: int, answer: Answer)
    returns (r: Result<Report>)
    requires sys.Valid() && sys.Fresh(pid) && Dispatch.Permitted(sys.cfg, sys.Now(), pid, o.plan, port, at)
    requires MissionSnapshot(sys.Now(), mission) && o.plan.Id() == AttemptFor(mission.record.key, o.effectRef)
    requires WellFormedPlan(o.plan)
    requires mission.record.state == ReadyForExecution && EffectIs(mission.record, o.effectRef, Planned)
    modifies sys, sys.missions, sys.attempts, sys.ledger, sys.references
    ensures sys.Valid() && old(sys.log) <= sys.log
    ensures r.Success? ==> !r.value.Skipped? && !r.value.ReconcileFirst?
    ensures r.Success? && r.value.Stopped? ==>
      (CallPort(pid, o.plan.Id()) in sys.log <==> r.value.reason == ExecutionOutcomeUnknown)
    ensures r.Success? && r.value.Acked? ==>
      CallPort(pid, o.plan.Id()) in sys.log && Dispatch.HasReference(sys.Now(), o.plan)
    ensures r.Failure? && r.code != DatabaseError ==> CallPort(pid, o.plan.Id()) !in sys.log
    ensures sys.quiet ==>
      (CallPort(pid, o.plan.Id()) in sys.log <==> Dispatch.DispatchReaches(old(sys.Now()), o.plan, at))
    ensures sys.quiet && Dispatch.DispatchReaches(old(sys.Now()), o.plan, at) ==>
      (r.Success? && r.value.Acked? <==>
         Dispatch.PortOutcome(old(sys.Now()), port, PROVIDER_NAMESPACE,
           Dispatch.TakenRecord(old(sys.Now()), o.plan, at), answer) == Some(true))
    ensures (sys.quiet && r.Success? && r.value.Acked? && mission == old(sys.missions.rows)[mission.record.key]) ==>
      && r.value.advanced == (mission.record.updated <= at)
      && (r.value.advanced ==>
            && mission.record.key in sys.missions.rows && sys.missions.rows[mission.record.key].record.state == Verifying
            && EffectIs(sys.missions.rows[mission.record.key].record, o.effectRef, Submitted))
  {
    hide Legal, Replay, StoresEvolve;
    hide MissionSnapshot, Dispatch.DispatchReaches, Dispatch.Permitted, Dispatch.HasReference;
    hide Dispatch.PortOutcome, Dispatch.TakenRecord;
    Dispatch.PermissionParts(sys.cfg, sys.Now(), pid, o.plan, port, at);
    label start:
    ghost var before := sys.log;
    var dispatched := Dispatch.Dispatch(sys, pid, o.plan, port, PROVIDER_NAMESPACE, at, answer);
    if dispatched.Failure? {
      return if dispatched.code in STOP_CODES then Success(Stopped(dispatched.code)) else Failure(dispatched.code);
    }
    SnapshotsSince(sys, before, mission);
    r := AcknowledgeAndAdvance(sys, pid, o, mission, dispatched.value.record.state == ProviderAcknowledged, at);
  }

  lemma SnapshotsSince(sys: System, before: Run, mission: StoredMission)
    requires sys.Valid() && before <= sys.log && MissionSnapshot(Replay(before), mission)
    ensures MissionSnapshot(sys.Now(), mission)
  {
    sys.Evolved(before);
    SnapshotsPersist(Replay(before), sys.Now());
  }

  method AcknowledgeAndAdvance(
    sys: System, pid: Pid, o: Order, mission: StoredMission, acknowledged: bool, at: int) returns (r: Result<Report>)
    requires sys.Valid() && MissionSnapshot(sys.Now(), mission)
    requires o.plan.Id() == AttemptFor(mission.record.key, o.effectRef)
    requires mission.record.state == ReadyForExecution && EffectIs(mission.record, o.effectRef, Planned)
    requires acknowledged ==> Dispatch.HasReference(sys.Now(), o.plan) && AnswerPort(pid, o.plan.Id(), true) in sys.log
    modifies sys, sys.missions, sys.attempts, sys.ledger, sys.references
    ensures sys.Valid() && old(sys.log) <= sys.log
    ensures r.Success? ==> r.value.Incomplete? || r.value.Acked?
    ensures r.Success? && r.value.Acked? ==> Dispatch.HasReference(sys.Now(), o.plan)
    ensures r.Failure? ==> r.code == DatabaseError
    ensures sys.quiet ==> (r.Success? && r.value.Acked? <==> acknowledged)
    ensures (sys.quiet && acknowledged && mission == old(sys.missions.rows)[mission.record.key]) ==>
      && r.Success? && r.value == Acked(mission.record.updated <= at)
      && (mission.record.updated <= at ==>
            && mission.record.key in sys.missions.rows && sys.missions.rows[mission.record.key].record.state == Verifying
            && EffectIs(sys.missions.rows[mission.record.key].record, o.effectRef, Submitted))
  {
    hide Legal, Replay, StoresEvolve;
    ghost var before := sys.log;
    label start:
    var fault := sys.Yield(pid);
    SnapshotsPersist(old@start(sys.Now()), sys.Now());
    Dispatch.PlanStaysKnown(old@start(sys.Now()), sys.Now(), o.plan);
    hide MissionSnapshot;
    var reference := sys.references.Get(o.plan.Id(), fault);
    if reference.Failure? { return Failure(reference.code); }
    if !acknowledged || reference.value.None? { return Success(Incomplete); }
    assert AnswerPort(pid, o.plan.Id(), true) in sys.log;
    ghost var mid := sys.log;
    var advanced := AdvanceAfterAck(sys, pid, mission, o.effectRef, at);
    if advanced.Some? { CasLoops.KeyStays(mission, advanced.value); }
    ReferenceSince(sys, mid, o.plan);
    r := Success(Acked(advanced.Some?));
  }

  lemma ReferenceSince(sys: System, before: Run, plan: Plan)
    requires sys.Valid() && before <= sys.log && Dispatch.HasReference(Replay(before), plan)
    ensures Dispatch.HasReference(sys.Now(), plan)
  {
    sys.Evolved(before);
    Dispatch.PlanStaysKnown(Replay(before), sys.Now(), plan);
  }

  /** A rejected simulation stays rejected: asked to simulate again, the runner hands the durable rejection back as a
      pass, and the broadcast approved on it is refused before anything is sent. */
  method RejectionIsHandedBack(
    sys: System, pid: Pid, again: Pid, o: Order, approval: SimulationChallenge, at: int, answer: Answer, later: Answer)
    returns (repeated: Result<SimulationReport>, broadcast: Result<Report>)
    requires sys.Valid() && sys.quiet && sys.Fresh(pid) && sys.Fresh(again) && sys.cfg.Ordered? && Distinct(sys.cfg.sequence)
    requires SheetBinds(sys.cfg, sys.Now(), o.effectRef, o.intent, o.plan)
    requires SimulationOpen(sys.cfg, sys.Now(), o, approval) && RejectedFor(sys.Now(), o)
    requires Untouched(sys.Now(), o.plan.Id())
    modifies sys, sys.missions, sys.attempts, sys.ledger, sys.references
    ensures sys.Valid() && sys.Fresh(again)
    ensures repeated.Success? && repeated.value.AlreadySimulated?
    ensures repeated.value.receipt.verdict == SimulationRejected
    ensures broadcast == Failure(SimulationNotEligible)
  {
    hide Legal, Replay, StoresEvolve, GateEffect, LoadReceipt, ValidIntent, IntentIsPlanned, Untouched, Simulation.Simulable;
    hide Startable, Dispatch.DispatchReaches;
    ghost var s := sys.Now();
    repeated := ExecuteSimulation(sys, pid, o, approval, at, answer);
    var approved := o.(approval := ChallengeFor(o.sheet, o.effectRef, repeated.value.receipt), approveWrite := true);
    broadcast := ExecuteBroadcast(sys, again, approved, at, later);
  }

  // ---- verification of one effect ----

  const MINIMUM_CONFIRMATIONS := 2

  /** Is there a reference bound to a transaction, and an attempt that is not in a final state that excludes
      verification? */
  method ReadVerifiable(sys: System, pid: Pid, id: AttemptId, bound: bool) returns (r: Result<()>)
    requires sys.Valid()
    modifies sys, sys.missions, sys.attempts, sys.ledger, sys.references
    ensures sys.Valid() && ContinuedByOthers(pid, old(sys.log), sys.log) && StoresEvolve(old(sys.Now()), sys.Now())
    ensures r.Success? ==> id in sys.references.rows && bound
    ensures r.Failure? ==>
      r.code in {DatabaseError, ProviderReferenceNotFound, ProviderTransactionBindingNotFound, AttemptNotFound,
                 AttemptTerminalNotVerifiable}
    ensures sys.quiet ==>
      && sys.log == old(sys.log) && sys.Now() == old(sys.Now())
      && (r.Success? <==>
            && id in sys.references.rows && bound && id in sys.attempts.rows
            && sys.attempts.rows[id].record.state !in {AttemptState.FailedFinal, AttemptState.Blocked})
  {
    ghost var before := sys.log;
    var fault := sys.Yield(pid);
    hide Legal, Replay;
    var reference := sys.references.Get(id, fault);
    if reference.Failure? { return Failure(reference.code); }
    if reference.value.None? { return Failure(ProviderReferenceNotFound); }
    if !bound { return Failure(ProviderTransactionBindingNotFound); }
    assert id in sys.references.rows;
    fault := sys.Yield(pid);
    assert id in sys.references.rows;
    hide StoresEvolve;
    sys.Evolved(before);
    var attempt := sys.attempts.Get(id, fault);
    if attempt.Failure? { return Failure(attempt.code); }
    if attempt.value.None? { return Failure(AttemptNotFound); }
    if attempt.value.value.record.state in {AttemptState.FailedFinal, AttemptState.Blocked} {
      return Failure(AttemptTerminalNotVerifiable);
    }
    r := Success(());
  }

  /** Exact evidence for step k is at hand, and nothing in the stores stands in its way. */
  predicate Provable(cfg: Config, s: Stores, k: nat, sender: string, bound: bool, report: Option<Observation>)
    requires cfg.Ordered? && k < |cfg.sequence|
  {
    var id := RunnerSafety.Step(cfg, k);
    && id in s.references && bound && IsAddress(sender)
    && Reconciliation.Locatable(s, id) && Reconciliation.Recoverable(s, id) && !Reconciliation.Finished(s, id)
    && Reconciliation.Proven(s, id, Lower(sender), 2, report)
  }

  predicate OthersIn(m: MissionRecord, effectRef: string, states: set<EffectState>) {
    forall e :: e in m.effects && e.effectRef != effectRef ==> e.state in states
  }

  /** Every step after step k is PLANNED, and the sequence names every effect of the Mission. */
  predicate OnlyAheadIsOpen(cfg: Config, m: MissionRecord, k: nat)
    requires cfg.Ordered?
  {
    && (forall e :: e in m.effects ==> e.effectRef in cfg.sequence)
    && (forall i :: k < i < |cfg.sequence| ==> EffectIs(m, cfg.sequence[i], Planned))
  }

  /** How the verification of step k leaves the Mission: the gate of the next step is open if and only if that step is
      PLANNED and nothing else of the Mission is under way, failed or blocked, as when all steps ahead are PLANNED;
      and the Mission is COMPLETED if and only if this was the last effect to be confirmed. */
  predicate LeadsOn(cfg: Config, m: MissionRecord, m': MissionRecord, k: nat)
    requires cfg.Ordered? && k < |cfg.sequence|
  {
    && (k + 1 < |cfg.sequence| ==>
          (GateEffect(m', cfg.sequence, cfg.sequence[k + 1]) == Success(Dispatchable) <==>
             EffectIs(m, cfg.sequence[k + 1], Planned) && OthersIn(m, cfg.sequence[k], {Planned, ChainConfirmed})))
    && (k + 1 < |cfg.sequence| && OnlyAheadIsOpen(cfg, m, k) ==>
          GateEffect(m', cfg.sequence, cfg.sequence[k + 1]) == Success(Dispatchable))
    && (m'.state == Completed <==> OthersIn(m, cfg.sequence[k], {ChainConfirmed}))
  }

  lemma OthersAreKept(m: MissionRecord, m': MissionRecord, effectRef: string)
    requires Projection.Projected(m, m', effectRef) && DistinctRefs(m.effects)
    ensures forall e: EffectRecord :: e.effectRef != effectRef ==> (e in m.effects <==> e in m'.effects)
    ensures forall e :: e in m'.effects && e.effectRef == effectRef ==> e.state == ChainConfirmed
    ensures forall other :: other != effectRef ==>
      && (HasEffect(m, other) <==> HasEffect(m', other))
      && (HasEffect(m, other) ==> EffectOf(m, other) == EffectOf(m', other))
  {
    var k := IndexOf(m.effects, effectRef);
    forall e: EffectRecord | e.effectRef != effectRef ensures e in m.effects <==> e in m'.effects {
      if e in m.effects {
        var i :| 0 <= i < |m.effects| && m.effects[i] == e;
        assert m'.effects[i] == e;
      }
      if e in m'.effects {
        var i :| 0 <= i < |m'.effects| && m'.effects[i] == e;
        assert m.effects[i] == e;
      }
    }
    forall e | e in m'.effects && e.effectRef == effectRef ensures e.state == ChainConfirmed {
      var i :| 0 <= i < |m'.effects| && m'.effects[i] == e;
      assert m'.effects[i].effectRef == m.effects[i].effectRef == m.effects[k].effectRef;
    }
    forall other | other != effectRef
      ensures IndexOf(m'.effects, other) == IndexOf(m.effects, other)
    {
      SameIdentityKeepsLookup(m, m', other);
    }
  }

  lemma SettledWithOthers(m: MissionRecord, m': MissionRecord, effectRef: string, other: string)
    requires Projection.Projected(m, m', effectRef) && DistinctRefs(m.effects) && other != effectRef
    ensures m'.state == Completed <==> OthersIn(m, effectRef, {ChainConfirmed})
    ensures m'.state == ReadyForExecution && EffectIs(m', other, Planned) <==>
      EffectIs(m, other, Planned) && OthersIn(m, effectRef, {Planned, ChainConfirmed})
  {
    OthersAreKept(m, m', effectRef);
    OthersSettle(m, m', effectRef);
    if EffectIs(m', other, Planned) { assert EffectOf(m', other) in m'.effects; }
    hide Projection.Projected, IndexOf;
  }

  lemma OthersSettle(m: MissionRecord, m': MissionRecord, effectRef: string)
    requires Projection.StandsByEffects(m')
    requires forall e: EffectRecord :: e.effectRef != effectRef ==> (e in m.effects <==> e in m'.effects)
    requires forall e :: e in m'.effects && e.effectRef == effectRef ==> e.state == ChainConfirmed
    ensures m'.state == Completed <==> OthersIn(m, effectRef, {ChainConfirmed})
    ensures m'.state == ReadyForExecution <==>
      OthersIn(m, effectRef, {Planned, ChainConfirmed}) && exists e :: e in m'.effects && e.state == Planned
  {
  }

  lemma ConfirmedBehind(cfg: Config, s: Stores, m: MissionRecord, m': MissionRecord, k: nat)
    requires cfg.Ordered? && Distinct(cfg.sequence) && k < |cfg.sequence|
    requires Projection.Projected(m, m', cfg.sequence[k]) && DistinctRefs(m.effects)
    requires cfg.mission in s.missions && s.missions[cfg.mission].record == m'
    requires forall i :: 0 <= i <= k ==> ChainConfirmedIn(s, RunnerSafety.Step(cfg, i))
    ensures k + 1 < |cfg.sequence| ==> PredecessorsConfirmed(m', cfg.sequence, cfg.sequence[k + 1])
    ensures OnlyAheadIsOpen(cfg, m, k) ==> OthersIn(m, cfg.sequence[k], {Planned, ChainConfirmed})
  {
    OthersAreKept(m, m', cfg.sequence[k]);
    hide Projection.Projected;
    forall i | 0 <= i <= k ensures EffectIs(m', cfg.sequence[i], ChainConfirmed) {
      assert ChainConfirmedIn(s, RunnerSafety.Step(cfg, i));
    }
    if OnlyAheadIsOpen(cfg, m, k) {
      forall e | e in m.effects && e.effectRef != cfg.sequence[k] ensures e.state in {Planned, ChainConfirmed} {
        var i :| 0 <= i < |cfg.sequence| && cfg.sequence[i] == e.effectRef;
        OneEffectPerRef(m, e);
        if i < k { assert EffectIs(m', cfg.sequence[i], ChainConfirmed); }
      }
    }
  }

  lemma OneEffectPerRef(m: MissionRecord, e: EffectRecord)
    requires DistinctRefs(m.effects) && e in m.effects
    ensures HasEffect(m, e.effectRef) && EffectOf(m, e.effectRef) == e
  {
    var i :| 0 <= i < |m.effects| && m.effects[i] == e;
    assert IndexOf(m.effects, e.effectRef) <= i;
  }

  lemma VerifiedLeadsOn(cfg: Config, run: Run, m: MissionRecord, m': MissionRecord, k: nat)
    requires cfg.Ordered? && Distinct(cfg.sequence) && Legal(cfg, run) && k < |cfg.sequence|
    requires Projection.Projected(m, m', cfg.sequence[k]) && DistinctRefs(m.effects)
    requires cfg.mission in Replay(run).missions && Replay(run).missions[cfg.mission].record == m'
    requires ChainConfirmedIn(Replay(run), RunnerSafety.Step(cfg, k))
    ensures LeadsOn(cfg, m, m', k)
  {
    hide Legal, Replay, Projection.Projected, ChainConfirmedIn;
    PrefixIsConfirmed(cfg, run, k);
    ConfirmedBehind(cfg, Replay(run), m, m', k);
    if k + 1 < |cfg.sequence| {
      GateOpensExactly(m', cfg.sequence, cfg.sequence[k + 1]);
      SettledWithOthers(m, m', cfg.sequence[k], cfg.sequence[k + 1]);
    } else {
      SettledWithOthers(m, m', cfg.sequence[k], cfg.sequence[k] + "'");
    }
    hide GateEffect, PredecessorsConfirmed, EffectIs, OthersIn;
  }

  /** Verify step k of the sequence against the chain.  A VERIFIED outcome leaves this step and every earlier one
      CHAIN_CONFIRMED.  Alone and with exact evidence the outcome is VERIFIED, and the Mission is left where the
      runner can go on. */
  method VerifyEffect(
    sys: System, pid: Pid, k: nat, sender: string, bound: bool, report: Option<Observation>, at: int)
    returns (r: Result<Reconciliation.Reconciled>)
    requires sys.Valid() && sys.cfg.Ordered? && Distinct(sys.cfg.sequence) && k < |sys.cfg.sequence|
    modifies sys, sys.missions, sys.attempts, sys.ledger, sys.references
    ensures sys.Valid() && old(sys.log) <= sys.log
    ensures Reconciliation.OnlyReconciling(pid, old(sys.log), sys.log)
    ensures r.Success? && r.value.outcome == Reconciliation.OutcomeVerified ==>
      forall i :: 0 <= i <= k ==> ChainConfirmedIn(sys.Now(), RunnerSafety.Step(sys.cfg, i))
    ensures r.Success? ==> RunnerSafety.Step(sys.cfg, k) in sys.references.rows && bound
    ensures r.Success? && r.value.outcome == Reconciliation.OutcomeVerified ==>
      || ContinuedByOthers(pid, old(sys.log), sys.log)
      || Reconciliation.Proven(sys.Now(), RunnerSafety.Step(sys.cfg, k), Lower(sender), 2, report)
    ensures sys.quiet && Provable(sys.cfg, old(sys.Now()), k, sender, bound, report) ==>
      && r.Success? && r.value.outcome == Reconciliation.OutcomeVerified
      && sys.cfg.mission in old(sys.missions.rows) && sys.cfg.mission in sys.missions.rows
      && LeadsOn(sys.cfg, old(sys.missions.rows)[sys.cfg.mission].record, sys.missions.rows[sys.cfg.mission].record, k)
  {
    hide Legal, Replay, StoresEvolve, Reconciliation.Undisturbed, Reconciliation.Weigh;
    hide Reconciliation.Recoverable, LeadsOn, Projection.Projected;
    ghost var s := sys.Now();
    var id := RunnerSafety.Step(sys.cfg, k);
    var checked := ReadVerifiable(sys, pid, id, bound);
    if checked.Failure? {
      StillVerifiable(sys.cfg, s, k, sender, bound, report);
      return Failure(checked.code);
    }
    ghost var before := sys.log;
    r := Reconciliation.Reconcile(sys, pid, id, sender, MINIMUM_CONFIRMATIONS, report, at);
    ReferenceStays(sys, before, id);
    if sys.quiet && Provable(sys.cfg, s, k, sender, bound, report) {
      VerifiedAlone(s, sys.Now(), id, Lower(sender), report, r);
    }
    if r.Success? && r.value.outcome == Reconciliation.OutcomeVerified {
      PrefixIsConfirmed(sys.cfg, sys.log, k);
      if sys.quiet && Provable(sys.cfg, s, k, sender, bound, report) {
        DistinctInStore(sys.cfg, before);
        VerifiedLeadsOn(sys.cfg, sys.log, s.missions[sys.cfg.mission].record, sys.missions.rows[sys.cfg.mission].record, k);
      }
    }
  }

  lemma StillVerifiable(cfg: Config, s: Stores, k: nat, sender: string, bound: bool, report: Option<Observation>)
    requires cfg.Ordered? && k < |cfg.sequence|
    ensures Provable(cfg, s, k, sender, bound, report) ==>
      var id := RunnerSafety.Step(cfg, k);
      && id in s.references && bound && id in s.attempts
      && s.attempts[id].record.state !in {AttemptState.FailedFinal, AttemptState.Blocked}
  {
  }

  /** Undisturbed, exact evidence for a recoverable attempt ends in VERIFIED with the Mission projected. */
  lemma VerifiedAlone(
    s: Stores, s': Stores, id: AttemptId, sender: string, report: Option<Observation>,
    r: Result<Reconciliation.Reconciled>)
    requires Reconciliation.Locatable(s, id) && Reconciliation.Recoverable(s, id)
    requires Reconciliation.Proven(s, id, sender, MINIMUM_CONFIRMATIONS, report)
    requires Reconciliation.Undisturbed(s, s', id,
      Reconciliation.Weigh(EffectBehind(s, id), sender, MINIMUM_CONFIRMATIONS, report.value), r)
    ensures r.Success? && r.value.outcome == Reconciliation.OutcomeVerified
    ensures id.effect.mission in s'.missions
    ensures Projection.Projected(
      s.missions[id.effect.mission].record, s'.missions[id.effect.mission].record, id.effect.effectRef)
  {
    hide Projection.Projected, Reconciliation.Recoverable;
  }

  lemma DistinctInStore(cfg: Config, run: Run)
    requires Legal(cfg, run)
    ensures forall key :: key in Replay(run).missions ==> DistinctRefs(Replay(run).missions[key].record.effects)
  {
    MissionRowsStaySound(cfg, run);
  }

  lemma ReferenceStays(sys: System, before: Run, id: AttemptId)
    requires sys.Valid() && before <= sys.log && id in Replay(before).references
    ensures id in sys.references.rows
  {
    sys.Evolved(before);
  }

  lemma PrefixIsConfirmed(cfg: Config, run: Run, k: nat)
    requires cfg.Ordered? && Distinct(cfg.sequence) && Legal(cfg, run) && k < |cfg.sequence|
    requires ChainConfirmedIn(Replay(run), RunnerSafety.Step(cfg, k))
    ensures forall i :: 0 <= i <= k ==> ChainConfirmedIn(Replay(run), RunnerSafety.Step(cfg, i))
  {
    hide Legal, Replay, ChainConfirmedIn;
    forall i | 0 <= i < k ensures ChainConfirmedIn(Replay(run), RunnerSafety.Step(cfg, i)) {
      RunnerSafety.ConfirmedEffectsFormPrefix(cfg, run, i, k);
    }
  }
}
