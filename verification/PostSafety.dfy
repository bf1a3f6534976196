/** POSTs to the provider: once per attempt and phase, and a broadcast only after an eligible
    simulation of the same transfer. */
module PostSafety {
  import opened Outcomes
  import opened Attempts
  import opened Authorizations
  import opened Payments
  import opened Protocol
  import opened ProtocolInvariants

  predicate SameTerms(row: Authorization, row': Authorization) {
    row' == row.(state := row'.state, updated := row'.updated)
  }

  // ---- claims ----

  predicate ClaimsAreRecorded(s: Stores, run: Run) {
    forall b :: b in run && b.ClaimAuthorization? ==>
      && b.row.approval in s.ledger && SameTerms(b.row, s.ledger[b.row.approval])
      && ValidIntent(b.intent) && b.row.fingerprint.material == b.intent
      && b.row.body == BodyFingerprint(if b.row.phase == Simulation then SimulationBody(b.intent) else BroadcastBody(b.intent))
  }

  lemma ClaimsStep(cfg: Config, s: Stores, s': Stores, before: Run, a: Action)
    requires ClaimsAreRecorded(s, before) && LedgerStep(s, s', a) && Enabled(cfg, s, before, a)
    ensures ClaimsAreRecorded(s', before + [a])
  {
    hide SimulationBody, BroadcastBody, ValidIntent, EligibleReceipt;
  }

  lemma {:induction false} ClaimsStayRecorded(cfg: Config, run: Run)
    requires Legal(cfg, run)
    ensures ClaimsAreRecorded(Replay(run), run)
  {
    if run == [] { return; }
    hide *;
    var before, a := run[..|run| - 1], run[|run| - 1];
    StepByStore(cfg, run);
    assert run == before + [a];
    ClaimsStayRecorded(cfg, before);
    ClaimsStep(cfg, Replay(before), Replay(run), before, a);
  }

  /** One attempt is authorised once per phase in a whole run. */
  lemma {:induction false} ClaimIsUnique(cfg: Config, run: Run, b: Action, c: Action)
    requires Legal(cfg, run) && b in run && c in run && b.ClaimAuthorization? && c.ClaimAuthorization?
    requires b.row.phase == c.row.phase && b.row.attemptId == c.row.attemptId
    ensures b == c
  {
    var before, a := run[..|run| - 1], run[|run| - 1];
    Unrolled(run);
    StepByStore(cfg, run);
    ClaimsStayRecorded(cfg, before);
    hide Legal, Enabled, Replay;
    if b in before && c in before {
      ClaimIsUnique(cfg, before, b, c);
    }
  }

  lemma {:induction false} PostNeedsClaim(cfg: Config, run: Run, b: Action)
    requires Legal(cfg, run) && b in run && b.Post?
    ensures ClaimAuthorization(b.pid, b.row, b.intent) in run
  {
    var before := run[..|run| - 1];
    Unrolled(run);
    if b in before { PostNeedsClaim(cfg, before, b); }
  }

  /** Over all runs each attempt gets at most one simulation POST and at most one broadcast POST. */
  lemma PostHappensAtMostOnce(cfg: Config, run: Run, i: nat, j: nat)
    requires Legal(cfg, run) && i < j < |run| && run[i].Post? && run[j].Post?
    ensures run[i].row.phase != run[j].row.phase || run[i].row.attemptId != run[j].row.attemptId
  {
    var b, c := run[i], run[j];
    ActionWasEnabled(cfg, run, j);
    assert run[..j][i] == run[i];
    PostNeedsClaim(cfg, run, b);
    PostNeedsClaim(cfg, run, c);
    if b.row.phase == c.row.phase && b.row.attemptId == c.row.attemptId {
      ClaimIsUnique(cfg, run,
        ClaimAuthorization(b.pid, b.row, b.intent), ClaimAuthorization(c.pid, c.row, c.intent));
    }
  }

  // ---- eligibility ----

  /** A simulation POST of exactly these terms happened and its answer was classified eligible. */
  predicate SimulationWasEligible(run: Run, row: Authorization) {
    exists i, j :: 0 <= i < j < |run| && run[i].Post? && run[j].AnswerPost?
      && SameTerms(run[i].row, row) && run[j].row == run[i].row && run[i].pid == run[j].pid
      && ClassifySimulation(run[j].answer) == Some(Eligible)
  }

  lemma {:induction false} AnswerNeedsPost(cfg: Config, run: Run, b: Action)
    requires Legal(cfg, run) && b in run && b.AnswerPost?
    ensures exists i, j ::
      0 <= i < j < |run| && run[i].Post? && run[j] == b && run[i].row == b.row && run[i].pid == b.pid
  {
    var before, a := run[..|run| - 1], run[|run| - 1];
    Unrolled(run);
    if b in before {
      AnswerNeedsPost(cfg, before, b);
      var i, j :| 0 <= i < j < |before| && before[i].Post? && before[j] == b
        && before[i].row == b.row && before[i].pid == b.pid;
      assert run[i] == before[i] && run[j] == before[j];
    } else {
      var p :| p in before && p.Post? && p.pid == b.pid && p.row == b.row;
      var i :| 0 <= i < |before| && before[i] == p;
      assert run[i] == p && run[|run| - 1] == b;
    }
  }

  lemma AnswerMatchesLedger(cfg: Config, run: Run, b: Action)
    requires Legal(cfg, run) && b in run && b.AnswerPost?
    ensures b.row.approval in Replay(run).ledger && SameTerms(b.row, Replay(run).ledger[b.row.approval])
  {
    AnswerNeedsPost(cfg, run, b);
    var i, j :| 0 <= i < j < |run| && run[i].Post? && run[j] == b && run[i].row == b.row && run[i].pid == b.pid;
    PostNeedsClaim(cfg, run, run[i]);
    ClaimsStayRecorded(cfg, run);
  }

  predicate EligibleRowsAreEarned(s: Stores, run: Run) {
    forall a :: a in s.ledger && s.ledger[a].state == EligibleForBroadcastApproval ==>
      SimulationWasEligible(run, s.ledger[a])
  }

  lemma EligibilityGrows(run: Run, a: Action, row: Authorization)
    requires SimulationWasEligible(run, row)
    ensures SimulationWasEligible(run + [a], row)
  {
    var i, j :| 0 <= i < j < |run| && run[i].Post? && run[j].AnswerPost?
      && SameTerms(run[i].row, row) && run[j].row == run[i].row && run[i].pid == run[j].pid
      && ClassifySimulation(run[j].answer) == Some(Eligible);
    var more := run + [a];
    assert more[i] == run[i] && more[j] == run[j];
  }

  lemma FinalizedIsEarned(cfg: Config, run: Run, a: Action)
    requires Legal(cfg, run) && a.FinalizeAuthorization? && MayFinalize(Replay(run), run, a)
    requires a.authorizationTarget == EligibleForBroadcastApproval
    ensures a.approval in Replay(run).ledger && SimulationWasEligible(run, Replay(run).ledger[a.approval])
  {
    var s := Replay(run);
    assert SimulationSaid(run, a.pid, a.approval, Eligible);
    var b :| b in run && b.AnswerPost? && b.pid == a.pid && b.row.approval == a.approval
      && b.row.phase == Simulation && ClassifySimulation(b.answer) == Some(Eligible);
    AnswerMatchesLedger(cfg, run, b);
    AnswerNeedsPost(cfg, run, b);
    hide Legal;
    var i, j :| 0 <= i < j < |run| && run[i].Post? && run[j] == b && run[i].row == b.row && run[i].pid == b.pid;
    assert SameTerms(run[i].row, s.ledger[a.approval]) && run[j].AnswerPost?;
  }

  lemma EligibleStep(cfg: Config, before: Run, a: Action, s': Stores)
    requires Legal(cfg, before) && EligibleRowsAreEarned(Replay(before), before)
    requires LedgerStep(Replay(before), s', a)
    requires a.FinalizeAuthorization? ==> MayFinalize(Replay(before), before, a)
    ensures EligibleRowsAreEarned(s', before + [a])
  {
    hide Legal, Replay, SimulationWasEligible, MayFinalize;
    var s := Replay(before);
    forall k | k in s'.ledger && s'.ledger[k].state == EligibleForBroadcastApproval
      ensures SimulationWasEligible(before + [a], s'.ledger[k])
    {
      if a.FinalizeAuthorization? && a.approval == k {
        FinalizedIsEarned(cfg, before, a);
        EligibilityIgnoresState(before, s.ledger[k], s'.ledger[k]);
      }
      EligibilityGrows(before, a, s'.ledger[k]);
    }
  }

  lemma FinalizationWasAllowed(cfg: Config, s: Stores, run: Run, a: Action)
    requires Enabled(cfg, s, run, a)
    ensures a.FinalizeAuthorization? ==> MayFinalize(s, run, a)
  {
  }

  lemma {:induction false} EligibleRowsStayEarned(cfg: Config, run: Run)
    requires Legal(cfg, run)
    ensures EligibleRowsAreEarned(Replay(run), run)
  {
    if run == [] { return; }
    hide *;
    var before, a := run[..|run| - 1], run[|run| - 1];
    StepByStore(cfg, run);
    assert run == before + [a];
    EligibleRowsStayEarned(cfg, before);
    FinalizationWasAllowed(cfg, Replay(before), before, a);
    EligibleStep(cfg, before, a, Replay(run));
  }

  lemma EligibilityIgnoresState(run: Run, row: Authorization, row': Authorization)
    requires SimulationWasEligible(run, row) && SameTerms(row, row')
    ensures SimulationWasEligible(run, row')
  {
    var i, j :| 0 <= i < j < |run| && run[i].Post? && run[j].AnswerPost?
      && SameTerms(run[i].row, row) && run[j].row == run[i].row && run[i].pid == run[j].pid
      && ClassifySimulation(run[j].answer) == Some(Eligible);
    assert SameTerms(run[i].row, row');
  }

  // ---- references ----

  /** Every durable provider reference was given by the provider: an answer to a broadcast POST of this attempt took
      the transfer up under it. */
  lemma {:induction false} ReferenceWasAnswered(cfg: Config, run: Run, id: AttemptId) returns (i: nat, j: nat)
    requires Legal(cfg, run) && id in Replay(run).references
    ensures i < j < |run| && run[i].Post? && run[i].row.phase == Broadcast && run[i].row.attemptId == id
    ensures run[j].AnswerPost? && run[j].row == run[i].row && run[j].pid == run[i].pid
    ensures TakesUp(run[j].answer, Replay(run).references[id].reference)
  {
    var before, a := run[..|run| - 1], run[|run| - 1];
    Unrolled(run);
    StepByStore(cfg, run);
    hide Apply;
    if id in Replay(before).references {
      i, j := ReferenceWasAnswered(cfg, before, id);
      hide Legal, Enabled, Replay;
      assert run[i] == before[i] && run[j] == before[j];
    } else {
      i, j := NewReferenceWasAnswered(cfg, before, a);
      hide Legal, Enabled, Replay;
      assert run[i] == before[i] && run[j] == before[j];
    }
  }

  lemma NewReferenceWasAnswered(cfg: Config, run: Run, a: Action) returns (i: nat, j: nat)
    requires Legal(cfg, run) && a.RecordReference? && Enabled(cfg, Replay(run), run, a)
    ensures i < j < |run| && run[i].Post? && run[i].row.phase == Broadcast && run[i].row.attemptId == a.reference.attemptId
    ensures run[j].AnswerPost? && run[j].row == run[i].row && run[j].pid == run[i].pid
    ensures TakesUp(run[j].answer, a.reference.reference)
  {
    assert ProviderSaid(run, a.pid, a.reference.attemptId, ProviderAccepted(a.reference.reference));
    hide Legal, Enabled, Replay;
    var c :| c in run && c.AnswerPost? && c.pid == a.pid && c.row.attemptId == a.reference.attemptId
      && c.row.phase == Broadcast && ClassifyBroadcast(c.answer) == Some(ProviderAccepted(a.reference.reference));
    VerdictsAreExact(c.answer);
    AnswerNeedsPost(cfg, run, c);
    i, j :| 0 <= i < j < |run| && run[i].Post? && run[j] == c && run[i].row == c.row && run[i].pid == c.pid;
  }

  // ---- main result ----

  /** The body that a POST action puts on the wire. */
  function PostedBody(a: Action): Body
    requires a.Post? && ValidIntent(a.intent)
  {
    if a.row.phase == Simulation then SimulationBody(a.intent) else BroadcastBody(a.intent)
  }

  /** Every POST of a legal run, simulation or broadcast, carries the intent that its attempt was planned with: the
      plan in the store covers just this intent, and the body on the wire, read on its own, asks for it. */
  lemma PostAsksForItsPlan(cfg: Config, run: Run, n: nat)
    requires Legal(cfg, run) && n < |run| && run[n].Post?
    ensures var (row, intent) := (run[n].row, run[n].intent);
      && ValidIntent(intent) && Asks(PostedBody(run[n]), intent, row.phase == Simulation)
      && row.body == BodyFingerprint(PostedBody(run[n]))
      && row.attemptId in Replay(run).attempts
      && Replay(run).attempts[row.attemptId].record.plan.fingerprint.material == intent
      && Replay(run).attempts[row.attemptId].record.plan.namespace == PROVIDER_NAMESPACE
  {
    var c := PostWasClaimed(cfg, run, n);
    BodyAsksForIntent(run[n].intent);
    RunEvolves(cfg, run, c);
    hide Legal, Replay, Asks, BroadcastBody, ValidIntent;
    var id := run[n].row.attemptId;
    assert AttemptEvolves(Replay(run[..c]).attempts[id], Replay(run).attempts[id]);
  }

  /** The point at which a POST was claimed. */
  lemma PostWasClaimed(cfg: Config, run: Run, n: nat) returns (c: nat)
    requires Legal(cfg, run) && n < |run| && run[n].Post?
    ensures c < n && Legal(cfg, run[..c]) && MayClaim(Replay(run[..c]), run[..c], ClaimAuthorization(run[n].pid, run[n].row, run[n].intent))
  {
    ActionWasEnabled(cfg, run, n);
    var claim := ClaimAuthorization(run[n].pid, run[n].row, run[n].intent);
    assert claim in run[..n];
    c :| 0 <= c < n && run[..n][c] == claim;
    ActionWasEnabled(cfg, run, c);
  }

  /** run[i] simulates, with an answer at run[k] that says the transfer would go through, what run[j] broadcasts. */
  predicate SimulatesBeforehand(run: Run, i: nat, k: nat, j: nat)
    requires i < k < j < |run| && run[j].Post?
  {
    && run[i].Post? && run[i].row.phase == Simulation && ValidIntent(run[i].intent) && ValidIntent(run[j].intent)
    && run[i].row.attemptId == run[j].row.attemptId && run[i].row.fingerprint == run[j].row.fingerprint
    && run[i].intent == run[j].intent && PostedBody(run[i]) == PostedBody(run[j]).(simulate := true)
    && run[k].AnswerPost? && run[k].row == run[i].row && WouldPass(run[k].answer)
  }

  /** The point at which a broadcast was claimed: a matching eligible receipt was in the ledger. */
  lemma BroadcastClaimHadReceipt(cfg: Config, run: Run, j: nat) returns (c: nat)
    requires Legal(cfg, run) && j < |run| && run[j].Post? && run[j].row.phase == Broadcast
    ensures c < j && Legal(cfg, run[..c]) && ValidIntent(run[j].intent)
    ensures run[j].row.fingerprint.material == run[j].intent
    ensures EligibleReceipt(Replay(run[..c]), run[j].row, run[j].intent)
  {
    c := PostWasClaimed(cfg, run, j);
    hide Legal, Replay;
  }

  lemma ReceiptWasSimulated(cfg: Config, run: Run, row: Authorization, intent: Intent) returns (i: nat, k: nat)
    requires Legal(cfg, run) && ValidIntent(intent) && EligibleReceipt(Replay(run), row, intent)
    ensures i < k < |run| && run[i].Post? && run[i].row.phase == Simulation && ValidIntent(run[i].intent)
    ensures run[i].row.attemptId == row.attemptId && run[i].row.fingerprint == row.fingerprint
    ensures SimulationBody(run[i].intent) == SimulationBody(intent) && run[i].row.fingerprint.material == run[i].intent
    ensures run[k].AnswerPost? && run[k].row == run[i].row && WouldPass(run[k].answer)
  {
    var s := Replay(run);
    EligibleRowsStayEarned(cfg, run);
    ClaimsStayRecorded(cfg, run);
    hide SimulationBody, BroadcastBody, ValidIntent;
    var x :| x in s.ledger && x != row.approval
      && s.ledger[x].phase == Simulation && s.ledger[x].state == EligibleForBroadcastApproval
      && s.ledger[x].attemptId == row.attemptId && s.ledger[x].fingerprint == row.fingerprint
      && s.ledger[x].body == BodyFingerprint(SimulationBody(intent));
    assert SimulationWasEligible(run, s.ledger[x]);
    i, k :| 0 <= i < k < |run| && run[i].Post? && run[k].AnswerPost?
      && SameTerms(run[i].row, s.ledger[x]) && run[k].row == run[i].row && run[i].pid == run[k].pid
      && ClassifySimulation(run[k].answer) == Some(Eligible);
    PostNeedsClaim(cfg, run, run[i]);
    VerdictsAreExact(run[k].answer);
  }

  /** Every broadcast POST comes after a simulation POST for the same attempt and fingerprint, with the same intent and
      the same body apart from the simulate flag, and after its answer: a 200 that reports a successful simulation
      which would not revert. */
  lemma BroadcastFollowsSimulation(cfg: Config, run: Run, j: nat)
    requires Legal(cfg, run) && j < |run| && run[j].Post? && run[j].row.phase == Broadcast
    ensures exists i, k :: 0 <= i < k < j && SimulatesBeforehand(run, i, k, j)
  {
    var c := BroadcastClaimHadReceipt(cfg, run, j);
    var i, k := ReceiptWasSimulated(cfg, run[..c], run[j].row, run[j].intent);
    hide Legal;
    assert run[i] == run[..c][i] && run[k] == run[..c][k];
    assert SimulatesBeforehand(run, i, k, j);
  }
}
