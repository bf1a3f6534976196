/** A Mission of two effects, and the steps from which the runs that exhibit a behaviour are put together. */
module ExampleRuns {
  import opened Outcomes
  import opened MissionIdentity
  import opened Missions
  import opened Attempts
  import opened Authorizations
  import opened Evidence
  import opened Protocol

  // ---- the Mission, its plans and the evidence ----

  function Hex(digit: char, digits: nat): string {
    "0x" + seq(digits, _ => digit)
  }

  const TOKEN := Hex('0', 40)
  const PAYEE := Hex('1', 40)
  const SENDER := Hex('2', 40)
  const HASH := Hex('3', 64)
  const REQUEST := Document("namespace", "kind", "mission", 84532, TOKEN, 6,
    [EffectRequest("anna", PAYEE, 1), EffectRequest("mark", PAYEE, 2)])
  const KEY := MissionKey("namespace", "kind", "mission")
  const ANNA := AttemptFor(KEY, "anna")
  const MARK := AttemptFor(KEY, "mark")

  function IntentOf(amount: int): Intent {
    Intent(84532, PAYEE, amount, TOKEN, 6, None)
  }

  function PlanOf(effectRef: string, amount: int): Plan {
    Plan(KEY, EffectId(KEY, effectRef), PROVIDER_NAMESPACE, "key",
      RequestFingerprint(PROVIDER_NAMESPACE, "key", IntentOf(amount)))
  }

  const ANNA_PLAN := PlanOf("anna", 1)
  const MARK_PLAN := PlanOf("mark", 2)

  /** A transfer of this amount; it is what anna's effect intends exactly if the amount is 1. */
  function Paid(amount: int): Observation {
    VerifiedTransfer(Transfer(84532, TOKEN, SENDER, PAYEE, amount, HASH, HASH, 0, 2))
  }

  lemma HexIsLowered(digit: char, digits: nat)
    requires '0' <= digit <= '9'
    ensures IsLoweredHex(Hex(digit, digits), digits)
    ensures digits == 40 ==> IsAddress(Hex(digit, digits))
  {
    assert Lower(Hex(digit, digits)) == Hex(digit, digits);
  }

  lemma EvidenceIsWellFormed(amount: int)
    requires amount >= 1
    ensures WellFormedObservation(Paid(amount)) && IsLoweredHex(SENDER, 40)
  {
    HexIsLowered('0', 40);
    HexIsLowered('1', 40);
    HexIsLowered('2', 40);
    HexIsLowered('3', 64);
  }

  // ---- the stores ----

  datatype Scene = Scene(mission: MissionState, anna: EffectState, mark: EffectState)

  function EffectAt(effectRef: string, amount: int, state: EffectState): EffectRecord {
    EffectRecord(effectRef, 84532, TOKEN, 6, PAYEE, amount, state, 0, 0)
  }

  function RecordOf(scene: Scene): MissionRecord {
    MissionRecord(KEY, ContentFingerprint(Canonical(REQUEST)), REQUEST, scene.mission,
      [EffectAt("anna", 1, scene.anna), EffectAt("mark", 2, scene.mark)], 0, 0)
  }

  function World(scene: Scene, revision: nat, attempts: map<AttemptId, StoredAttempt>): Stores {
    Stores(map[KEY := StoredMission(RecordOf(scene), revision)], attempts, map[], map[])
  }

  const PREPARED: map<AttemptId, StoredAttempt> :=
    map[ANNA := StoredAttempt(InitialAttempt(ANNA_PLAN, 0), 1), MARK := StoredAttempt(InitialAttempt(MARK_PLAN, 0), 1)]

  lemma AttemptsOf(scene: Scene, revision: nat, attempts: map<AttemptId, StoredAttempt>)
    ensures World(scene, revision, attempts).attempts == attempts
  {
  }

  lemma RequestIsAcceptable()
    ensures Acceptable(REQUEST) && Lowered(REQUEST) == REQUEST
  {
    HexIsLowered('0', 40);
    HexIsLowered('1', 40);
    assert LoweredEffects(REQUEST.effects) == REQUEST.effects;
    assert RefOf(REQUEST.effects[0]) != RefOf(REQUEST.effects[1]) by {
      assert "anna"[0] != "mark"[0];
    }
  }

  lemma RecordIsWellFormed(scene: Scene)
    ensures WellFormed(RecordOf(scene))
  {
    var m := RecordOf(scene);
    RequestIsAcceptable();
    assert "anna"[0] != "mark"[0];
    forall e | e in m.effects ensures exists r :: r in m.request.effects && Realizes(m, e, r) {
      var i :| 0 <= i < |m.effects| && m.effects[i] == e;
      assert Realizes(m, e, m.request.effects[i]);
    }
  }

  lemma Lookups(scene: Scene)
    ensures var m := RecordOf(scene);
      && HasEffect(m, "anna") && IndexOf(m.effects, "anna") == 0 && EffectOf(m, "anna") == EffectAt("anna", 1, scene.anna)
      && HasEffect(m, "mark") && IndexOf(m.effects, "mark") == 1 && EffectOf(m, "mark") == EffectAt("mark", 2, scene.mark)
  {
    var m := RecordOf(scene);
    assert "anna"[0] != "mark"[0];
    assert m.effects[1..][0] == m.effects[1];
  }

  // ---- one step ----

  lemma MissionMoves(
    cfg: Config, run: Run, pid: Pid, scene: Scene, to: MissionState, revision: nat, attempts: map<AttemptId, StoredAttempt>)
    requires Legal(cfg, run) && Replay(run) == World(scene, revision, attempts)
    requires to in MissionTargets(scene.mission) && to != Completed
    ensures var more := run + [MoveMission(pid, KEY, to, 0)];
      Legal(cfg, more) && Replay(more) == World(scene.(mission := to), revision + 1, attempts)
  {
    StepExtends(cfg, run, MoveMission(pid, KEY, to, 0));
  }

  lemma AnnaMoves(
    run: Run, pid: Pid, scene: Scene, to: EffectState, revision: nat, attempts: map<AttemptId, StoredAttempt>)
    requires Legal(Open, run) && Replay(run) == World(scene, revision, attempts)
    requires scene.mission !in {Received, Validated} && to in EffectTargets(scene.anna)
    requires Observe(pid, ANNA, SENDER, 1, Paid(1)) in run
    ensures var more := run + [MoveEffect(pid, KEY, "anna", to, 0)];
      Legal(Open, more) && Replay(more) == World(scene.(anna := to), revision + 1, attempts)
  {
    var m := RecordOf(scene);
    Lookups(scene);
    assert Confirms(m.effects[0], SENDER, 1, Paid(1));
    assert Witnessed(run, pid, ANNA, m.effects[0]);
    assert RecordOf(scene.(anna := to)).effects == m.effects[0 := m.effects[0].(state := to)];
    StepExtends(Open, run, MoveEffect(pid, KEY, "anna", to, 0));
  }

  /** Anybody may block an effect of an admitted Mission. */
  lemma MarkIsBlocked(cfg: Config, run: Run, pid: Pid, scene: Scene, revision: nat, attempts: map<AttemptId, StoredAttempt>)
    requires Legal(cfg, run) && Replay(run) == World(scene, revision, attempts)
    requires scene.mission !in {Received, Validated} && scene.mark == Planned
    ensures var more := run + [MoveEffect(pid, KEY, "mark", EffectState.Blocked, 0)];
      Legal(cfg, more) && Replay(more) == World(scene.(mark := EffectState.Blocked), revision + 1, attempts)
  {
    var m := RecordOf(scene);
    Lookups(scene);
    assert RecordOf(scene.(mark := EffectState.Blocked)).effects
      == m.effects[1 := m.effects[1].(state := EffectState.Blocked)];
    StepExtends(cfg, run, MoveEffect(pid, KEY, "mark", EffectState.Blocked, 0));
  }

  lemma Observes(run: Run, pid: Pid, id: AttemptId, amount: int)
    requires Legal(Open, run) && id in Replay(run).attempts && amount >= 1
    ensures var more := run + [Observe(pid, id, SENDER, 1, Paid(amount))];
      Legal(Open, more) && Replay(more) == Replay(run)
  {
    EvidenceIsWellFormed(amount);
    StepExtends(Open, run, Observe(pid, id, SENDER, 1, Paid(amount)));
  }

  // ---- admitted and prepared ----

  const READY := Scene(ReadyForExecution, Planned, Planned)

  /** Process 0 admits the Mission and makes it ready; process 1 journals both attempts. */
  const START: Run :=
    [AdmitMission(0, RecordOf(Scene(Received, Planned, Planned))),
     MoveMission(0, KEY, Validated, 0), MoveMission(0, KEY, Persisted, 0),
     MoveMission(0, KEY, Reconciling, 0), MoveMission(0, KEY, ReadyForExecution, 0),
     PrepareAttempt(1, ANNA_PLAN, 0), PrepareAttempt(1, MARK_PLAN, 0)]

  lemma Admits(cfg: Config, scene: Scene) returns (run: Run)
    requires scene == Scene(Received, Planned, Planned)
    ensures run == [AdmitMission(0, RecordOf(scene))] && Legal(cfg, run) && Replay(run) == World(scene, 1, map[])
  {
    var empty: Run := [];
    RecordIsWellFormed(scene);
    hide WellFormed;
    StepExtends(cfg, empty, AdmitMission(0, RecordOf(scene)));
    run := empty + [AdmitMission(0, RecordOf(scene))];
  }

  lemma AdmissionIsLegal(cfg: Config) returns (run: Run)
    ensures run == START[..5] && Legal(cfg, run) && Replay(run) == World(READY, 5, map[])
  {
    var scene := Scene(Received, Planned, Planned);
    hide Legal, Replay, World, RecordOf;
    run := Admits(cfg, scene);
    MissionMoves(cfg, run, 0, scene, Validated, 1, map[]);
    run := run + [MoveMission(0, KEY, Validated, 0)];
    MissionMoves(cfg, run, 0, scene.(mission := Validated), Persisted, 2, map[]);
    run := run + [MoveMission(0, KEY, Persisted, 0)];
    MissionMoves(cfg, run, 0, scene.(mission := Persisted), Reconciling, 3, map[]);
    run := run + [MoveMission(0, KEY, Reconciling, 0)];
    MissionMoves(cfg, run, 0, scene.(mission := Reconciling), ReadyForExecution, 4, map[]);
    run := run + [MoveMission(0, KEY, ReadyForExecution, 0)];
  }

  lemma Prepares(cfg: Config, run: Run, pid: Pid, scene: Scene, revision: nat, attempts: map<AttemptId, StoredAttempt>, plan: Plan)
    requires Legal(cfg, run) && Replay(run) == World(scene, revision, attempts)
    requires WellFormedPlan(plan) && plan.Id() !in attempts
    requires forall id :: id in attempts ==> attempts[id].record.Id() == id
    ensures var more := run + [PrepareAttempt(pid, plan, 0)];
      && Legal(cfg, more)
      && Replay(more) == World(scene, revision, attempts[plan.Id() := StoredAttempt(InitialAttempt(plan, 0), 1)])
  {
    StepExtends(cfg, run, PrepareAttempt(pid, plan, 0));
  }

  lemma StartIsLegal(cfg: Config)
    ensures Legal(cfg, START) && Replay(START) == World(READY, 5, PREPARED)
  {
    var run := AdmissionIsLegal(cfg);
    hide Legal, Replay, World;
    assert "anna"[0] != "mark"[0] && ANNA_PLAN.Id() == ANNA && MARK_PLAN.Id() == MARK;
    var one: map<AttemptId, StoredAttempt> := map[];
    Prepares(cfg, run, 1, READY, 5, one, ANNA_PLAN);
    run := run + [PrepareAttempt(1, ANNA_PLAN, 0)];
    one := one[ANNA := StoredAttempt(InitialAttempt(ANNA_PLAN, 0), 1)];
    Prepares(cfg, run, 1, READY, 5, one, MARK_PLAN);
    run := run + [PrepareAttempt(1, MARK_PLAN, 0)];
    assert one[MARK := StoredAttempt(InitialAttempt(MARK_PLAN, 0), 1)] == PREPARED;
    assert run == START;
  }

  lemma Starts(cfg: Config) returns (run: Run)
    ensures Legal(cfg, run) && Replay(run) == World(READY, 5, PREPARED) && forall a :: a in run ==> a.pid in {0, 1}
  {
    run := START;
    assert forall a :: a in run ==> a.pid in {0, 1};
    hide *;
    StartIsLegal(cfg);
  }

  const ANNA_OBSERVED := Observe(3, ANNA, SENDER, 1, Paid(1))

  const CONFIRMING: Run :=
    [ANNA_OBSERVED, MoveMission(3, KEY, Reconciling, 0), MoveEffect(3, KEY, "anna", Reserved, 0),
     MoveEffect(3, KEY, "anna", Submitted, 0), MoveEffect(3, KEY, "anna", ChainConfirmed, 0)]

  lemma ConfirmingSteps()
    ensures ANNA_OBSERVED == Observe(3, ANNA, SENDER, 1, Paid(1)) && ANNA in PREPARED && MARK in PREPARED
    ensures READY == Scene(ReadyForExecution, Planned, Planned)
    ensures CONFIRMING ==
      [ANNA_OBSERVED, MoveMission(3, KEY, Reconciling, 0), MoveEffect(3, KEY, "anna", Reserved, 0),
       MoveEffect(3, KEY, "anna", Submitted, 0), MoveEffect(3, KEY, "anna", ChainConfirmed, 0)]
    ensures Reconciling in MissionTargets(ReadyForExecution)
    ensures Reserved in EffectTargets(Planned) && Submitted in EffectTargets(Reserved)
    ensures ChainConfirmed in EffectTargets(Submitted)
  {
    hide Hex;
  }

  /** Process 3 confirms anna's effect from chain evidence and crashes before it marks the attempt. */
  lemma AnnaIsConfirmed(run: Run) returns (more: Run)
    requires Legal(Open, run) && Replay(run) == World(READY, 5, PREPARED)
    ensures more == run + CONFIRMING && |run| < |more|
    ensures more[|more| - 1] == MoveEffect(3, KEY, "anna", ChainConfirmed, 0)
    ensures Legal(Open, more) && Replay(more) == World(Scene(Reconciling, ChainConfirmed, Planned), 9, PREPARED)
  {
    hide *;
    ConfirmingSteps();
    AttemptsOf(READY, 5, PREPARED);
    Observes(run, 3, ANNA, 1);
    more := run + [ANNA_OBSERVED];
    MissionMoves(Open, more, 3, READY, Reconciling, 5, PREPARED);
    more := more + [MoveMission(3, KEY, Reconciling, 0)];
    var scene := Scene(Reconciling, Planned, Planned);
    AnnaMoves(more, 3, scene, Reserved, 6, PREPARED);
    more := more + [MoveEffect(3, KEY, "anna", Reserved, 0)];
    AnnaMoves(more, 3, scene.(anna := Reserved), Submitted, 7, PREPARED);
    more := more + [MoveEffect(3, KEY, "anna", Submitted, 0)];
    AnnaMoves(more, 3, scene.(anna := Submitted), ChainConfirmed, 8, PREPARED);
    more := more + [MoveEffect(3, KEY, "anna", ChainConfirmed, 0)];
    OneByOne(run, ANNA_OBSERVED, MoveMission(3, KEY, Reconciling, 0), MoveEffect(3, KEY, "anna", Reserved, 0),
      MoveEffect(3, KEY, "anna", Submitted, 0), MoveEffect(3, KEY, "anna", ChainConfirmed, 0));
  }

  lemma OneByOne(run: Run, a: Action, b: Action, c: Action, d: Action, e: Action)
    ensures run + [a] + [b] + [c] + [d] + [e] == run + [a, b, c, d, e]
  {
  }
}
