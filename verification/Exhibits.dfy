/** Runs that show what the services do not promise: a recovery cut off by a review, reconcilers that collide or starve,
    and a rejection handed back as a pass. */
module Exhibits {
  import opened Outcomes
  import opened MissionIdentity
  import opened Missions
  import opened Attempts
  import opened Authorizations
  import opened Evidence
  import opened Protocol
  import opened Deployment
  import opened CasSteps
  import opened CasLoops
  import opened Projection
  import opened Reconciliation
  import opened CrashRecovery
  import opened ExampleRuns
  import Simulation
  import SequentialRunner

  // ---- a recovery cut off by a review ----

  lemma RecoveryBeginsHere(run: Run, scene: Scene, revision: nat)
    requires Legal(Open, run) && Replay(run) == World(scene, revision, PREPARED)
    requires scene.mission == ReadyForExecution && scene.anna == Planned && ANNA_OBSERVED in run
    ensures RecoveryBegins(Open, run, 3, ANNA)
    ensures OthersStuck(Replay(run), ANNA) <==> scene.mark in {EffectState.FailedFinal, EffectState.Blocked}
  {
    hide Legal, Replay;
    Lookups(scene);
    var m := RecordOf(scene);
    assert "anna"[0] != "mark"[0];
    assert Confirms(m.effects[0], SENDER, 1, Paid(1)) by { EvidenceIsWellFormed(1); }
    assert Witnessed(run, 3, ANNA, m.effects[0]);
    if scene.mark in {EffectState.FailedFinal, EffectState.Blocked} {
      assert m.effects[1].effectRef != "anna";
    }
  }

  /** First way: somebody blocks mark's effect; process 3 recovers anna's attempt on exact evidence and dies between the
      review of the Mission and the mark on the attempt. */
  lemma ReviewComesBeforeTheMark() returns (begun: Run, crashed: Run)
    ensures RecoveryBegins(Open, begun, 3, ANNA) && OthersStuck(Replay(begun), ANNA)
    ensures var steps := RecoveryOf(Replay(begun), 3, ANNA, 0);
      |steps| > 0 && crashed == After(begun, steps, |steps| - 1)
    ensures Legal(Open, crashed) && ChainConfirmedIn(Replay(crashed), ANNA) && !Salvageable(Replay(crashed), ANNA)
  {
    hide *;
    var start := Starts(Open);
    AttemptsOf(READY, 5, PREPARED);
    ConfirmingSteps();
    Observes(start, 3, ANNA, 1);
    var observed := start + [ANNA_OBSERVED];
    MarkIsBlocked(Open, observed, 0, READY, 5, PREPARED);
    begun := observed + [MoveEffect(0, KEY, "mark", EffectState.Blocked, 0)];
    assert ANNA_OBSERVED in begun;
    RecoveryBeginsHere(begun, READY.(mark := EffectState.Blocked), 6);
    BeginningIsLocatable(Open, begun, 3, ANNA);
    var steps := RecoveryOf(Replay(begun), 3, ANNA, 0);
    CrashPoint(Open, begun, 3, ANNA, 0, 0);
    CrashPoint(Open, begun, 3, ANNA, 0, |steps| - 1);
    crashed := After(begun, steps, |steps| - 1);
  }

  lemma MismatchSteps()
    ensures MISMATCH == [Observe(5, MARK, SENDER, 1, Paid(1)), MoveAttempt(5, MARK, AttemptState.Blocked, 0)]
      + [MoveMission(5, KEY, ManualReviewRequired, 0)]
  {
    hide Hex;
  }

  const MISMATCH: Run :=
    [Observe(5, MARK, SENDER, 1, Paid(1)), MoveAttempt(5, MARK, AttemptState.Blocked, 0),
     MoveMission(5, KEY, ManualReviewRequired, 0)]

  /** Second way, by reconcilers alone and with no effect FAILED_FINAL or BLOCKED: process 3 dies with anna's effect
      CHAIN_CONFIRMED and its attempt unmarked, and process 5 reconciles mark's attempt on a transfer of the wrong
      amount. */
  lemma SiblingMismatchComesBeforeTheMark() returns (start: Run, crashed: Run)
    ensures Replay(start) == World(READY, 5, PREPARED) && crashed == start + CONFIRMING
    ensures Legal(Open, crashed) && Legal(Open, crashed + MISMATCH)
    ensures Salvageable(Replay(crashed), ANNA) && ChainConfirmedIn(Replay(crashed), ANNA)
    ensures !Salvageable(Replay(crashed + MISMATCH), ANNA) && ChainConfirmedIn(Replay(crashed + MISMATCH), ANNA)
    ensures KEY in Replay(crashed + MISMATCH).missions
      && forall e :: e in Replay(crashed + MISMATCH).missions[KEY].record.effects ==>
           e.state !in {EffectState.FailedFinal, EffectState.Blocked}
  {
    hide *;
    start := Starts(Open);
    crashed := AnnaIsConfirmed(start);
    var scene := Scene(Reconciling, ChainConfirmed, Planned);
    AttemptsOf(scene, 9, PREPARED);
    ConfirmingSteps();
    MismatchSteps();
    Observes(crashed, 5, MARK, 1);
    var observed := crashed + [Observe(5, MARK, SENDER, 1, Paid(1))];
    MarkAttemptIsBlocked(observed, scene, 9);
    var blocked := observed + [MoveAttempt(5, MARK, AttemptState.Blocked, 0)];
    StrandsAnna(crashed, blocked, scene);
    assert blocked + [MoveMission(5, KEY, ManualReviewRequired, 0)] == crashed + MISMATCH;
  }

  const MARK_BLOCKED: map<AttemptId, StoredAttempt> :=
    PREPARED[MARK := StoredAttempt(InitialAttempt(MARK_PLAN, 0).(state := AttemptState.Blocked), 2)]

  lemma MarkAttemptIsBlocked(run: Run, scene: Scene, revision: nat)
    requires Legal(Open, run) && Replay(run) == World(scene, revision, PREPARED)
    requires Observe(5, MARK, SENDER, 1, Paid(1)) in run
    ensures var more := run + [MoveAttempt(5, MARK, AttemptState.Blocked, 0)];
      Legal(Open, more) && Replay(more) == World(scene, revision, MARK_BLOCKED)
  {
    hide Legal, Replay;
    Lookups(scene);
    assert Contradicted(run, 5, MARK, EffectAt("mark", 2, scene.mark));
    StepExtends(Open, run, MoveAttempt(5, MARK, AttemptState.Blocked, 0));
  }

  lemma StrandsAnna(crashed: Run, blocked: Run, scene: Scene)
    requires scene == Scene(Reconciling, ChainConfirmed, Planned)
    requires Replay(crashed) == World(scene, 9, PREPARED)
    requires Legal(Open, blocked) && Replay(blocked) == World(scene, 9, MARK_BLOCKED)
    ensures Salvageable(Replay(crashed), ANNA) && ChainConfirmedIn(Replay(crashed), ANNA)
    ensures var stranded := blocked + [MoveMission(5, KEY, ManualReviewRequired, 0)];
      && Legal(Open, stranded) && Replay(stranded) == World(scene.(mission := ManualReviewRequired), 10, MARK_BLOCKED)
      && !Salvageable(Replay(stranded), ANNA) && ChainConfirmedIn(Replay(stranded), ANNA)
      && KEY in Replay(stranded).missions
      && forall e :: e in Replay(stranded).missions[KEY].record.effects ==>
           e.state !in {EffectState.FailedFinal, EffectState.Blocked}
  {
    var stranded := blocked + [MoveMission(5, KEY, ManualReviewRequired, 0)];
    assert ManualReviewRequired in MissionTargets(scene.mission);
    hide *;
    MissionMoves(Open, blocked, 5, scene, ManualReviewRequired, 9, MARK_BLOCKED);
    AnnaCanBeSaved(Replay(crashed), scene);
    AnnaCannotBeSaved(Replay(stranded), scene.(mission := ManualReviewRequired));
  }

  lemma AnnaCanBeSaved(s: Stores, scene: Scene)
    requires scene == Scene(Reconciling, ChainConfirmed, Planned) && s == World(scene, 9, PREPARED)
    ensures Salvageable(s, ANNA) && ChainConfirmedIn(s, ANNA)
  {
    Lookups(scene);
    assert ANNA in PREPARED && PREPARED[ANNA].record == InitialAttempt(ANNA_PLAN, 0) by {
      assert "anna"[0] != "mark"[0];
    }
    hide IndexOf;
  }

  lemma AnnaCannotBeSaved(s: Stores, scene: Scene)
    requires scene == Scene(ManualReviewRequired, ChainConfirmed, Planned) && s == World(scene, 10, MARK_BLOCKED)
    ensures !Salvageable(s, ANNA) && ChainConfirmedIn(s, ANNA) && KEY in s.missions
    ensures forall e :: e in s.missions[KEY].record.effects ==>
      e.state !in {EffectState.FailedFinal, EffectState.Blocked}
  {
    Lookups(scene);
    assert ANNA in MARK_BLOCKED && MARK_BLOCKED[ANNA].record == InitialAttempt(ANNA_PLAN, 0) by {
      assert "anna"[0] != "mark"[0];
    }
    hide IndexOf;
  }

  // ---- reconcilers that collide ----

  const COLLISION: Run :=
    [MoveEffect(3, KEY, "anna", Reserved, 0), MoveEffect(3, KEY, "anna", Submitted, 0),
     MoveEffect(3, KEY, "anna", ChainConfirmed, 0)]

  /** Processes 3 and 4 hold exact evidence for anna's effect, and 4 has read its Mission with the effect PLANNED.
      While 4 is about to reserve it, 3 confirms it.  The swap of 4 is stale, what it reads next refuses, and its loop
      ends with EFFECT_TRANSITION_NOT_ALLOWED. */
  lemma RacingReconcilersCollide() returns (run: Run, first: StoredMission, next: StoredMission)
    ensures Legal(Open, run + COLLISION) && Foreign(4, COLLISION)
    ensures KEY in Replay(run).missions && Replay(run).missions[KEY] == first
    ensures first.record.state == Reconciling && EffectIs(first.record, "anna", Planned)
    ensures EffectLicensed(run, 4, first.record, "anna", NextEffectState(Planned))
    ensures Reads(run, run + COLLISION, first, EffectAim("anna", NextEffectState(Planned)), [first, next])
    ensures Refuses(next.record, "anna", NextEffectState(Planned))
    ensures OutcomeOf([first, next], EffectAim("anna", NextEffectState(Planned)), 0) == Failure(EffectTransitionNotAllowed)
  {
    hide *;
    run := Starts(Open);
    AttemptsOf(READY, 5, PREPARED);
    ConfirmingSteps();
    Observes(run, 3, ANNA, 1);
    run := run + [ANNA_OBSERVED];
    assert ANNA_OBSERVED in run;
    Observes(run, 4, ANNA, 1);
    run := run + [Observe(4, ANNA, SENDER, 1, Paid(1))];
    assert ANNA_OBSERVED in run && Observe(4, ANNA, SENDER, 1, Paid(1)) in run;
    MissionMoves(Open, run, 3, READY, Reconciling, 5, PREPARED);
    run := run + [MoveMission(3, KEY, Reconciling, 0)];
    var scene := Scene(Reconciling, Planned, Planned);
    first := StoredMission(RecordOf(scene), 6);
    next := StoredMission(RecordOf(scene.(anna := ChainConfirmed)), 9);
    Overtakes(run, scene);
    Collides(run, first, next);
  }

  lemma Overtakes(run: Run, scene: Scene)
    requires scene == Scene(Reconciling, Planned, Planned) && ANNA_OBSERVED in run
    requires Legal(Open, run) && Replay(run) == World(scene, 6, PREPARED)
    ensures Legal(Open, run + COLLISION)
    ensures Replay(run + COLLISION) == World(scene.(anna := ChainConfirmed), 9, PREPARED)
  {
    hide Legal, Replay, World;
    AnnaMoves(run, 3, scene, Reserved, 6, PREPARED);
    var more := run + [MoveEffect(3, KEY, "anna", Reserved, 0)];
    AnnaMoves(more, 3, scene.(anna := Reserved), Submitted, 7, PREPARED);
    more := more + [MoveEffect(3, KEY, "anna", Submitted, 0)];
    AnnaMoves(more, 3, scene.(anna := Submitted), ChainConfirmed, 8, PREPARED);
    assert more + [MoveEffect(3, KEY, "anna", ChainConfirmed, 0)] == run + COLLISION;
  }

  lemma Collides(run: Run, first: StoredMission, next: StoredMission)
    requires first == StoredMission(RecordOf(Scene(Reconciling, Planned, Planned)), 6)
    requires next == StoredMission(RecordOf(Scene(Reconciling, ChainConfirmed, Planned)), 9)
    requires Replay(run) == World(Scene(Reconciling, Planned, Planned), 6, PREPARED)
    requires Replay(run + COLLISION) == World(Scene(Reconciling, ChainConfirmed, Planned), 9, PREPARED)
    requires Observe(4, ANNA, SENDER, 1, Paid(1)) in run
    ensures KEY in Replay(run).missions && Replay(run).missions[KEY] == first
    ensures first.record.state == Reconciling
    ensures EffectIs(first.record, "anna", Planned) && EffectLicensed(run, 4, first.record, "anna", Reserved)
    ensures Reads(run, run + COLLISION, first, EffectAim("anna", Reserved), [first, next])
    ensures Refuses(next.record, "anna", Reserved)
    ensures OutcomeOf([first, next], EffectAim("anna", Reserved), 0) == Failure(EffectTransitionNotAllowed)
    ensures Foreign(4, COLLISION) && NextEffectState(Planned) == Reserved
  {
    var aim := EffectAim("anna", Reserved);
    hide *;
    FirstMayReserve(run, first);
    NextRefuses(next);
    WorldShows(Scene(Reconciling, Planned, Planned), 6);
    WorldShows(Scene(Reconciling, ChainConfirmed, Planned), 9);
    FirstRead(run, first, aim);
    TwoRowsDecide(first, next, aim, 0);
    ReadOneMore(run, run, run + COLLISION, first, aim, [first], next);
  }

  lemma WorldShows(scene: Scene, revision: nat)
    ensures var rows := World(scene, revision, PREPARED).missions;
      KEY in rows && rows[KEY] == StoredMission(RecordOf(scene), revision)
    ensures RecordOf(scene).key == KEY && RecordOf(scene).state == scene.mission
  {
  }

  lemma TwoRowsDecide(first: StoredMission, next: StoredMission, aim: Aim, at: int)
    ensures OutcomeOf([first, next], aim, at) == Driven(next, aim, at)
    ensures 1 <= MAX_CAS_STEPS && [first] + [next] == [first, next]
  {
  }

  lemma FirstMayReserve(run: Run, first: StoredMission)
    requires first == StoredMission(RecordOf(Scene(Reconciling, Planned, Planned)), 6)
    requires Observe(4, ANNA, SENDER, 1, Paid(1)) in run
    ensures EffectIs(first.record, "anna", Planned) && EffectLicensed(run, 4, first.record, "anna", Reserved)
    ensures !Reached(first.record, EffectAim("anna", Reserved)) && NextEffectState(Planned) == Reserved
    ensures Foreign(4, COLLISION)
  {
    Lookups(Scene(Reconciling, Planned, Planned));
    hide Hex;
    assert Confirms(EffectOf(first.record, "anna"), SENDER, 1, Paid(1));
    assert Witnessed(run, 4, ANNA, EffectOf(first.record, "anna"));
  }

  lemma NextRefuses(next: StoredMission)
    requires next == StoredMission(RecordOf(Scene(Reconciling, ChainConfirmed, Planned)), 9)
    ensures Refuses(next.record, "anna", Reserved)
    ensures Driven(next, EffectAim("anna", Reserved), 0) == Failure(EffectTransitionNotAllowed)
  {
    Lookups(Scene(Reconciling, ChainConfirmed, Planned));
    hide Hex;
    TurnFailsExactly(next, "anna", Reserved, 0);
  }

  // ---- loops that starve ----

  lemma TwoForeignSwaps(cfg: Config, run: Run, pid: Pid, key: MissionKey) returns (more: Run, row: StoredMission)
    requires Legal(cfg, run) && key in Replay(run).missions && Replay(run).missions[key].record.state == Reconciling
    ensures Legal(cfg, run + more) && forall a :: a in more ==> a.pid == pid
    ensures key in Replay(run + more).missions && row == Replay(run + more).missions[key]
    ensures var known := Replay(run).missions[key];
      row.record == known.record && row.revision == known.revision + 2
  {
    var known := Replay(run).missions[key];
    var at := known.record.updated;
    hide Legal, Replay;
    MissionWrite(cfg, run, pid, key, ReadyForExecution, at);
    var once := run + [MoveMission(pid, key, ReadyForExecution, at)];
    MissionWrite(cfg, once, pid, key, Reconciling, at);
    var twice := once + [MoveMission(pid, key, Reconciling, at)];
    more := [MoveMission(pid, key, ReadyForExecution, at), MoveMission(pid, key, Reconciling, at)];
    assert run + more == twice;
    row := Replay(twice).missions[key];
  }

  lemma {:induction false} KeepSwapping(
    cfg: Config, run: Run, pid: Pid, other: Pid, first: StoredMission, aim: Aim, n: nat)
    returns (more: Run, rows: seq<StoredMission>)
    requires Legal(cfg, run) && other != pid && n <= MAX_CAS_STEPS
    requires first.record.key in Replay(run).missions && Replay(run).missions[first.record.key] == first
    requires first.record.state == Reconciling && !Reached(first.record, aim)
    ensures Legal(cfg, run + more) && Foreign(pid, more)
    ensures Reads(run, run + more, first, aim, rows) && |rows| == n + 1 && rows[n].record == first.record
    ensures first.record.key in Replay(run + more).missions && Replay(run + more).missions[first.record.key] == rows[n]
  {
    hide Legal, Replay, Reads, Reached;
    if n == 0 {
      more, rows := [], [first];
      assert run + [] == run;
      FirstRead(run, first, aim);
    } else {
      var before, known := KeepSwapping(cfg, run, pid, other, first, aim, n - 1);
      var two, row := TwoForeignSwaps(cfg, run + before, other, first.record.key);
      more, rows := before + two, known + [row];
      assert run + more == (run + before) + two;
      ReadOneMore(run, run + before, run + more, first, aim, known, row);
    }
  }

  /** Whatever a loop of a reconciler is after and its snapshot does not show, others can keep the Mission moving so
      that each of its twelve swaps is stale: MISSION_CAS_EXHAUSTED, or EFFECT_CAS_EXHAUSTED. */
  lemma LoopsCanStarve(cfg: Config, run: Run, pid: Pid, other: Pid, first: StoredMission, aim: Aim, at: int)
    returns (more: Run, rows: seq<StoredMission>)
    requires Legal(cfg, run) && other != pid
    requires first.record.key in Replay(run).missions && Replay(run).missions[first.record.key] == first
    requires first.record.state == Reconciling && !Reached(first.record, aim)
    ensures Legal(cfg, run + more) && Foreign(pid, more)
    ensures Reads(run, run + more, first, aim, rows)
    ensures OutcomeOf(rows, aim, at) == Failure(if aim.MissionAim? then MissionCasExhausted else EffectCasExhausted)
  {
    more, rows := KeepSwapping(cfg, run, pid, other, first, aim, MAX_CAS_STEPS);
  }

  // ---- a rejection handed back as a pass ----

  const RUNNER := Ordered(KEY, ["anna", "mark"])
  const SHEET := Simulation.SimulationAuthorization("sheet", "simulation", ANNA, ANNA_PLAN.fingerprint, 0, 1)
  const REFUSED := Answered(403, NotBoolean, NotBoolean, "", None)

  function RejectedOrder(approval: SequentialRunner.Challenge): SequentialRunner.Order {
    SequentialRunner.Order("anna", "sheet", "simulation", "broadcast", IntentOf(1), ANNA_PLAN, approval, true)
  }

  /** Process 7 simulates anna's transfer, the provider answers 403, and the rejection becomes durable.  What is left
      is a state in which simulating again hands the rejection back as a pass. */
  lemma RejectionBecomesDurable(approval: SequentialRunner.Challenge) returns (run: Run)
    ensures Legal(RUNNER, run) && forall a :: a in run ==> a.pid in {0, 1, 7}
    ensures var o := RejectedOrder(approval);
      && SequentialRunner.SheetBinds(RUNNER, Replay(run), o.effectRef, o.intent, o.plan)
      && SequentialRunner.SimulationOpen(RUNNER, Replay(run), o, SequentialRunner.SimulationChallenge("sheet", "anna", ANNA))
      && SequentialRunner.RejectedFor(Replay(run), o) && SequentialRunner.Untouched(Replay(run), o.plan.Id())
      && SequentialRunner.Distinct(RUNNER.sequence)
  {
    hide Legal, Replay, World, Hex;
    var start := Starts(RUNNER);
    run := Rejects(start);
    RejectedState(Replay(run), approval);
  }

  function SimulatedRow(): Authorization
    ensures ValidIntent(IntentOf(1))
  {
    Simulation.SimulationRow(ANNA_PLAN, IntentOf(1), SHEET, 0)
  }

  function RejectedWorld(): Stores {
    World(READY, 5, PREPARED).(
      ledger := map["simulation" := SimulatedRow().(state := AuthorizationState.RejectedFinal)])
  }

  lemma Rejects(start: Run) returns (run: Run)
    requires Legal(RUNNER, start) && Replay(start) == World(READY, 5, PREPARED)
    requires forall a :: a in start ==> a.pid in {0, 1}
    ensures Legal(RUNNER, run) && Replay(run) == RejectedWorld() && forall a :: a in run ==> a.pid in {0, 1, 7}
  {
    hide Legal, Replay, World, SimulatedRow, RejectedWorld;
    var (row, intent) := (SimulatedRow(), IntentOf(1));
    var claimed := Claims(start);
    assert ClaimAuthorization(7, row, intent) in claimed;
    var answered := AnswersOnce(claimed, row, intent);
    run := Finalizes(answered);
  }

  function ClaimedWorld(): Stores {
    World(READY, 5, PREPARED).(ledger := map["simulation" := SimulatedRow()])
  }

  lemma Claims(start: Run) returns (run: Run)
    requires Legal(RUNNER, start) && Replay(start) == World(READY, 5, PREPARED)
    ensures run == start + [ClaimAuthorization(7, SimulatedRow(), IntentOf(1))]
    ensures Legal(RUNNER, run) && Replay(run) == ClaimedWorld()
  {
    hide Legal, Replay, BroadcastBody;
    assert ANNA in PREPARED && PREPARED[ANNA].record.plan == ANNA_PLAN by {
      assert "anna"[0] != "mark"[0];
    }
    StepExtends(RUNNER, start, ClaimAuthorization(7, SimulatedRow(), IntentOf(1)));
    run := start + [ClaimAuthorization(7, SimulatedRow(), IntentOf(1))];
  }

  lemma AnswersOnce(claimed: Run, row: Authorization, intent: Intent) returns (run: Run)
    requires Legal(RUNNER, claimed) && ClaimAuthorization(7, row, intent) in claimed
    requires forall a :: a in claimed && a.pid == 7 ==> !a.Post? && !a.AnswerPost?
    ensures run == claimed + [Post(7, row, intent)] + [AnswerPost(7, row, REFUSED)]
    ensures Legal(RUNNER, run) && Replay(run) == Replay(claimed)
  {
    hide Legal, Replay;
    StepExtends(RUNNER, claimed, Post(7, row, intent));
    var posted := claimed + [Post(7, row, intent)];
    assert Post(7, row, intent) in posted;
    StepExtends(RUNNER, posted, AnswerPost(7, row, REFUSED));
    run := posted + [AnswerPost(7, row, REFUSED)];
  }

  lemma Finalizes(answered: Run) returns (run: Run)
    requires Legal(RUNNER, answered) && Replay(answered) == ClaimedWorld()
    requires AnswerPost(7, SimulatedRow(), REFUSED) in answered
    ensures run == answered + [FinalizeAuthorization(7, "simulation", AuthorizationState.RejectedFinal, 0)]
    ensures Legal(RUNNER, run) && Replay(run) == RejectedWorld()
  {
    hide Legal, Replay, SimulationBody;
    assert SimulationSaid(answered, 7, "simulation", SimulationRejected);
    StepExtends(RUNNER, answered, FinalizeAuthorization(7, "simulation", AuthorizationState.RejectedFinal, 0));
    run := answered + [FinalizeAuthorization(7, "simulation", AuthorizationState.RejectedFinal, 0)];
  }

  lemma RejectedState(s: Stores, approval: SequentialRunner.Challenge)
    requires s == RejectedWorld()
    ensures var o := RejectedOrder(approval);
      && SequentialRunner.SheetBinds(RUNNER, s, o.effectRef, o.intent, o.plan)
      && SequentialRunner.SimulationOpen(RUNNER, s, o, SequentialRunner.SimulationChallenge("sheet", "anna", ANNA))
      && SequentialRunner.RejectedFor(s, o) && SequentialRunner.Untouched(s, o.plan.Id())
      && SequentialRunner.Distinct(RUNNER.sequence)
  {
    Lookups(READY);
    hide SimulationBody, Hex, IndexOf, SequentialRunner.GateEffect;
    AnnaIsFirst();
  }

  lemma AnnaIsFirst()
    ensures SequentialRunner.Distinct(RUNNER.sequence)
    ensures SequentialRunner.GateEffect(RecordOf(READY), RUNNER.sequence, "anna") == Success(SequentialRunner.Dispatchable)
  {
    Lookups(READY);
    assert "anna"[0] != "mark"[0];
    var m := RecordOf(READY);
    assert RUNNER.sequence[0] == "anna";
    assert SequentialRunner.PredecessorsConfirmed(m, RUNNER.sequence, "anna");
    SequentialRunner.GateOpensExactly(m, RUNNER.sequence, "anna");
  }
}
