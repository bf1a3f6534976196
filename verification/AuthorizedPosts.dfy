/** One durably claimed POST: the steps shared by simulation and broadcast. */
module AuthorizedPosts {
  import opened Outcomes
  import opened Attempts
  import opened Authorizations
  import opened Payments
  import opened Protocol
  import opened ProtocolInvariants
  import opened Deployment

  /** What the runner has to have made sure of before a broadcast is claimed. */
  predicate IntentIsPlanned(cfg: Config, s: Stores, id: AttemptId, intent: Intent) {
    cfg.Ordered? ==> EffectInMission(s, id) && Carries(intent, EffectBehind(s, id))
  }

  lemma PlannedIntentPersists(cfg: Config, s: Stores, s': Stores, id: AttemptId, intent: Intent)
    requires StoresEvolve(s, s') && IntentIsPlanned(cfg, s, id, intent)
    ensures IntentIsPlanned(cfg, s', id, intent)
  {
    if cfg.Ordered? {
      LookupEvolves(s.missions[id.effect.mission], s'.missions[id.effect.mission], id.effect.effectRef);
    }
  }

  /** Everything a claim needs apart from being the first: the attempt and plan fit the intent and, for a
      broadcast, the port has been called and an eligible simulation of the same body is durable. */
  predicate Licensed(cfg: Config, s: Stores, run: Run, pid: Pid, row: Authorization, intent: Intent) {
    && row.state == Claimed && row.attemptId in s.attempts && ValidIntent(intent)
    && CheckPlanIntent(s.attempts[row.attemptId].record.plan, intent).Success?
    && row.fingerprint == s.attempts[row.attemptId].record.plan.fingerprint
    && match row.phase
       case Simulation => row.body == BodyFingerprint(SimulationBody(intent))
       case Broadcast =>
         && row.body == BodyFingerprint(BroadcastBody(intent))
         && CallPort(pid, row.attemptId) in run
         && EligibleReceipt(s, row, intent)
         && IntentIsPlanned(cfg, s, row.attemptId, intent)
  }

  lemma ReceiptPersists(s: Stores, s': Stores, row: Authorization, intent: Intent)
    requires StoresEvolve(s, s') && ValidIntent(intent) && EligibleReceipt(s, row, intent)
    ensures EligibleReceipt(s', row, intent)
  {
    hide SimulationBody, ValidIntent;
    var a :| a in s.ledger && a != row.approval
      && s.ledger[a].phase == Simulation && s.ledger[a].state == EligibleForBroadcastApproval
      && s.ledger[a].attemptId == row.attemptId && s.ledger[a].fingerprint == row.fingerprint
      && s.ledger[a].body == BodyFingerprint(SimulationBody(intent));
    assert a in s'.ledger && AuthorizationEvolves(s.ledger[a], s'.ledger[a]);
  }

  lemma LicensePersists(cfg: Config, s: Stores, s': Stores, run: Run, run': Run, pid: Pid, row: Authorization, intent: Intent)
    requires StoresEvolve(s, s') && run <= run' && Licensed(cfg, s, run, pid, row, intent)
    ensures Licensed(cfg, s', run', pid, row, intent)
  {
    assert AttemptEvolves(s.attempts[row.attemptId], s'.attempts[row.attemptId]);
    if row.phase == Broadcast {
      ReceiptPersists(s, s', row, intent);
      PlannedIntentPersists(cfg, s, s', row.attemptId, intent);
      assert CallPort(pid, row.attemptId) in run';
    }
  }

  predicate NoPosts(run: Run, pid: Pid) {
    forall a :: a in run && a.pid == pid ==> !a.ClaimAuthorization? && !a.Post? && !a.AnswerPost?
  }

  predicate OnlyPosts(pid: Pid, before: Run, later: Run) {
    forall a :: a in later && a.pid == pid && a !in before ==>
      a.ClaimAuthorization? || a.Post? || a.AnswerPost? || a.FinalizeAuthorization?
  }

  /** The durable one-shot claim. */
  method ClaimOnce(sys: System, pid: Pid, row: Authorization, intent: Intent) returns (r: Result<Authorization>)
    requires sys.Valid() && Licensed(sys.cfg, sys.Now(), sys.log, pid, row, intent)
    modifies sys, sys.missions, sys.attempts, sys.ledger, sys.references
    ensures sys.quiet ==>
      && sys.missions.rows == old(sys.missions.rows) && sys.attempts.rows == old(sys.attempts.rows)
      && sys.references.rows == old(sys.references.rows)
    ensures sys.Valid() && old(sys.log) <= sys.log && StoresEvolve(old(sys.Now()), sys.Now())
    ensures OnlyPosts(pid, old(sys.log), sys.log)
    ensures r.Failure? ==> ContinuedByOthers(pid, old(sys.log), sys.log)
    ensures r.Failure? ==> r.code in {DatabaseError, AuthorizationAlreadyConsumed}
    ensures r.Success? ==>
      && (forall a :: a in sys.log && a.pid == pid && a !in old(sys.log) ==> a == ClaimAuthorization(pid, row, intent))
      && ClaimAuthorization(pid, row, intent) in sys.log
      && row.approval in sys.ledger.rows && sys.ledger.rows[row.approval] == row
    ensures sys.quiet ==>
      && r == ClaimIn(old(sys.ledger.rows), row)
      && (if r.Success? then sys.ledger.rows == old(sys.ledger.rows)[row.approval := row] else sys.log == old(sys.log))
  {
    ghost var before := sys.log;
    var fault := sys.Yield(pid);
    LicensePersists(sys.cfg, old(sys.Now()), sys.Now(), before, sys.log, pid, row, intent);
    OneMore(pid, before, sys.log, ClaimAuthorization(pid, row, intent));
    hide Licensed, StoresEvolve, Legal, Replay, Enabled, Apply, ClaimIn, ContinuedByOthers;
    ClaimIsEnabled(sys.cfg, sys.Now(), sys.log, pid, row, intent);
    r := sys.ledger.Claim(row, fault);
    if r.Success? {
      sys.Commit(ClaimAuthorization(pid, row, intent));
    }
    sys.Evolved(before);
  }

  lemma ClaimIsEnabled(cfg: Config, s: Stores, run: Run, pid: Pid, row: Authorization, intent: Intent)
    requires Licensed(cfg, s, run, pid, row, intent)
    ensures var r := ClaimIn(s.ledger, row);
      && (r.Failure? ==> r.code == AuthorizationAlreadyConsumed)
      && (r.Success? ==>
            && r.value == row && Enabled(cfg, s, run, ClaimAuthorization(pid, row, intent))
            && Apply(s, ClaimAuthorization(pid, row, intent)) == s.(ledger := s.ledger[row.approval := row]))
  {
    hide EligibleReceipt, CheckPlanIntent, SimulationBody, BroadcastBody;
  }

  predicate NotYet(run: Run, pid: Pid) {
    forall a :: a in run && a.pid == pid ==> !a.Post? && !a.AnswerPost?
  }

  method SendPost(sys: System, pid: Pid, row: Authorization, intent: Intent)
    requires sys.Valid() && ClaimAuthorization(pid, row, intent) in sys.log && NotYet(sys.log, pid)
    modifies sys, sys.missions, sys.attempts, sys.ledger, sys.references
    ensures sys.quiet ==>
      && sys.missions.rows == old(sys.missions.rows) && sys.attempts.rows == old(sys.attempts.rows)
      && sys.references.rows == old(sys.references.rows)
    ensures sys.quiet ==> sys.ledger.rows == old(sys.ledger.rows)
    ensures sys.Valid() && old(sys.log) <= sys.log
    ensures Post(pid, row, intent) in sys.log
    ensures forall a :: a in sys.log && a.pid == pid && a !in old(sys.log) ==> a == Post(pid, row, intent)
  {
    var _ := sys.Yield(pid);
    assert ClaimAuthorization(pid, row, intent) in sys.log;
    sys.Commit(Post(pid, row, intent));
  }

  method ReceiveAnswer(sys: System, pid: Pid, row: Authorization, intent: Intent, answer: Answer)
    requires sys.Valid() && Post(pid, row, intent) in sys.log
    requires forall a :: a in sys.log && a.pid == pid ==> !a.AnswerPost?
    modifies sys, sys.missions, sys.attempts, sys.ledger, sys.references
    ensures sys.quiet ==>
      && sys.missions.rows == old(sys.missions.rows) && sys.attempts.rows == old(sys.attempts.rows)
      && sys.references.rows == old(sys.references.rows)
    ensures sys.quiet ==> sys.ledger.rows == old(sys.ledger.rows)
    ensures sys.Valid() && old(sys.log) <= sys.log
    ensures AnswerPost(pid, row, answer) in sys.log
    ensures forall a :: a in sys.log && a.pid == pid && a !in old(sys.log) ==> a == AnswerPost(pid, row, answer)
  {
    var _ := sys.Yield(pid);
    assert Post(pid, row, intent) in sys.log;
    sys.Commit(AnswerPost(pid, row, answer));
  }

  /** The POST leaves the process, and its answer (or exception) comes back. */
  method PostOnce(sys: System, pid: Pid, row: Authorization, intent: Intent, answer: Answer)
    requires sys.Valid() && ClaimAuthorization(pid, row, intent) in sys.log && NotYet(sys.log, pid)
    requires row.approval in sys.ledger.rows
    modifies sys, sys.missions, sys.attempts, sys.ledger, sys.references
    ensures sys.quiet ==>
      && sys.missions.rows == old(sys.missions.rows) && sys.attempts.rows == old(sys.attempts.rows)
      && sys.references.rows == old(sys.references.rows)
    ensures sys.quiet ==> sys.ledger.rows == old(sys.ledger.rows)
    ensures sys.Valid() && old(sys.log) <= sys.log && OnlyPosts(pid, old(sys.log), sys.log)
    ensures Post(pid, row, intent) in sys.log && AnswerPost(pid, row, answer) in sys.log
    ensures row.approval in sys.ledger.rows
      && AuthorizationEvolves(old(sys.ledger.rows[row.approval]), sys.ledger.rows[row.approval])
  {
    ghost var before := sys.log;
    SendPost(sys, pid, row, intent);
    ReceiveAnswer(sys, pid, row, intent, answer);
    sys.Evolved(before);
    hide Legal, MissionEvolves, AttemptEvolves;
    assert AuthorizationEvolves(old(sys.Now()).ledger[row.approval], sys.Now().ledger[row.approval]);
  }

  /** Failing to finalise is not an error: the durable claim already prevents a second POST. */
  method FinalizeBestEffort(sys: System, pid: Pid, approval: string, target: AuthorizationState, at: int)
    returns (done: bool)
    requires sys.Valid()
    requires target == EligibleForBroadcastApproval ==> SimulationSaid(sys.log, pid, approval, Eligible)
    requires approval in sys.ledger.rows
    requires (target == AuthorizationState.RejectedFinal && sys.ledger.rows[approval].phase == Simulation) ==>
      SimulationSaid(sys.log, pid, approval, SimulationRejected)
    modifies sys, sys.missions, sys.attempts, sys.ledger, sys.references
    ensures sys.quiet ==>
      && sys.missions.rows == old(sys.missions.rows) && sys.attempts.rows == old(sys.attempts.rows)
      && sys.references.rows == old(sys.references.rows)
    ensures sys.Valid() && old(sys.log) <= sys.log && StoresEvolve(old(sys.Now()), sys.Now())
    ensures OnlyPosts(pid, old(sys.log), sys.log)
    ensures approval in sys.ledger.rows
      && AuthorizationEvolves(old(sys.ledger.rows[approval]), sys.ledger.rows[approval])
    ensures done ==> sys.ledger.rows[approval] == old(sys.ledger.rows[approval]).(state := target, updated := at)
    ensures sys.quiet ==>
      && (done <==> FinalizeIn(old(sys.ledger.rows), approval, target, at).Success?)
      && (done ==> sys.ledger.rows[approval] == FinalizeIn(old(sys.ledger.rows), approval, target, at).value)
  {
    hide Legal, Replay, MissionEvolves, AttemptEvolves;
    ghost var before := sys.log;
    var fault := sys.Yield(pid);
    assert AuthorizationEvolves(old(sys.Now()).ledger[approval], sys.Now().ledger[approval]);
    ghost var s := sys.Now();
    var r := sys.ledger.Transition(approval, target, at, fault);
    if r.Success? {
      assert MayFinalize(s, sys.log, FinalizeAuthorization(pid, approval, target, at));
      sys.Commit(FinalizeAuthorization(pid, approval, target, at));
    }
    done := r.Success?;
    sys.Evolved(before);
  }
}
