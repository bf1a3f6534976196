/** Can the port still be called for an effect that is already CHAIN_CONFIRMED?  The dispatcher reads
    the Mission before it takes the attempt, so: yes, but only when that read came first. */
module LateCalls {
  import opened Missions
  import opened Attempts
  import opened Authorizations
  import opened Protocol
  import opened ProtocolInvariants
  import opened ExampleRuns
  import ProtocolSafety

  predicate Confirms(a: Action, id: AttemptId) {
    a.MoveEffect? && a.effectTarget == ChainConfirmed && AttemptFor(a.key, a.effectRef) == id
  }

  lemma ConfirmingConfirms(cfg: Config, run: Run, j: nat, id: AttemptId)
    requires Legal(cfg, run) && j < |run| && Confirms(run[j], id)
    ensures ChainConfirmedIn(Replay(run[..j + 1]), id)
  {
    hide *;
    ActionWasEnabled(cfg, run, j);
    MoveConfirms(cfg, Replay(run[..j]), run[..j], run[j], id);
  }

  lemma MoveConfirms(cfg: Config, s: Stores, run: Run, a: Action, id: AttemptId)
    requires Enabled(cfg, s, run, a) && Confirms(a, id)
    ensures ChainConfirmedIn(Apply(s, a), id)
  {
    hide Witnessed, RunnerAllows;
    SameIdentityKeepsLookup(s.missions[a.key].record, Apply(s, a).missions[a.key].record, a.effectRef);
  }

  lemma {:induction false} CallNeedsItsRead(cfg: Config, run: Run, b: Action)
    requires Legal(cfg, run) && b in run && b.TakeAttempt?
    ensures SeeDispatchable(b.pid, b.id.effect.mission, b.id.effect.effectRef) in run
  {
    var before := run[..|run| - 1];
    Unrolled(run);
    if b in before { CallNeedsItsRead(cfg, before, b); }
  }

  /** A process that calls the port for an effect read its Mission as dispatchable before the effect was
      confirmed.  A dispatch whose Mission read follows the confirmation never reaches the port. */
  lemma CallersReadBeforeConfirmation(cfg: Config, run: Run, n: nat, j: nat)
    requires Legal(cfg, run) && n < |run| && j < |run|
    requires run[n].CallPort? && Confirms(run[j], run[n].id)
    ensures var read := SeeDispatchable(run[n].pid, run[n].id.effect.mission, run[n].id.effect.effectRef);
      && read in run[..n]
      && (forall i :: 0 <= i < |run| && run[i] == read ==> i < j)
  {
    var id := run[n].id;
    var read := SeeDispatchable(run[n].pid, id.effect.mission, id.effect.effectRef);
    CallerHasRead(cfg, run, n);
    forall i | 0 <= i < |run| && run[i] == read ensures i < j {
      if j < i { ReadAfterConfirmationIsImpossible(cfg, run, j, i, id); }
    }
  }

  lemma CallerHasRead(cfg: Config, run: Run, n: nat)
    requires Legal(cfg, run) && n < |run| && run[n].CallPort?
    ensures SeeDispatchable(run[n].pid, run[n].id.effect.mission, run[n].id.effect.effectRef) in run[..n]
  {
    ActionWasEnabled(cfg, run, n);
    var t :| t in run[..n] && t.TakeAttempt? && t.pid == run[n].pid && t.id == run[n].id;
    CallNeedsItsRead(cfg, run[..n], t);
  }

  lemma ReadAfterConfirmationIsImpossible(cfg: Config, run: Run, j: nat, i: nat, id: AttemptId)
    requires Legal(cfg, run) && j < i < |run| && Confirms(run[j], id)
    ensures run[i].SeeDispatchable? ==> AttemptFor(run[i].key, run[i].effectRef) != id
  {
    hide *;
    ActionWasEnabled(cfg, run, i);
    ConfirmingConfirms(cfg, run, j, id);
    RunEvolves(cfg, run[..i], j + 1);
    assert run[..i][..j + 1] == run[..j + 1];
    StillConfirmed(cfg, Replay(run[..j + 1]), Replay(run[..i]), run[..i], run[i], id);
  }

  lemma StillConfirmed(cfg: Config, s: Stores, s': Stores, before: Run, a: Action, id: AttemptId)
    requires StoresEvolve(s, s') && ChainConfirmedIn(s, id) && Enabled(cfg, s', before, a)
    ensures a.SeeDispatchable? ==> AttemptFor(a.key, a.effectRef) != id
  {
    ProtocolSafety.ConfirmationPersists(s, s', id);
  }

  // ---- exactly when a confirmed effect can still be called ----

  ghost predicate CanStillCall(run: Run, pid: Pid, id: AttemptId) {
    exists more: Run :: Legal(Open, run + more) && CallPort(pid, id) in run + more
  }

  /** The effect's attempt, if there is one, has not been started and was journalled for the effect's Mission. */
  predicate NotStarted(s: Stores, id: AttemptId) {
    id in s.attempts ==>
      s.attempts[id].record.state == Prepared && s.attempts[id].record.plan.missionKey == id.effect.mission
  }

  /** After an effect is CHAIN_CONFIRMED, a process can still go on to call the port for it if and only if it has
      already read the Mission as dispatchable. */
  lemma LateCallExactly(run: Run, pid: Pid, id: AttemptId)
    requires Legal(Open, run) && ChainConfirmedIn(Replay(run), id) && NotStarted(Replay(run), id)
    ensures CanStillCall(run, pid, id) <==> SeeDispatchable(pid, id.effect.mission, id.effect.effectRef) in run
  {
    hide *;
    if SeeDispatchable(pid, id.effect.mission, id.effect.effectRef) in run {
      var prepared := EnsurePrepared(run, pid, id);
      TakeAndCall(run, prepared, pid, id);
    }
    if CanStillCall(run, pid, id) {
      CallerHadRead(run, pid, id);
    }
  }

  lemma EnsurePrepared(run: Run, pid: Pid, id: AttemptId) returns (more: Run)
    requires Legal(Open, run) && NotStarted(Replay(run), id)
    ensures Legal(Open, run + more) && id in Replay(run + more).attempts && NotStarted(Replay(run + more), id)
  {
    if id in Replay(run).attempts {
      more := [];
      assert run + [] == run;
    } else {
      AttemptRowsStaySound(Open, run);
      var request := RequestFingerprint(PROVIDER_NAMESPACE, "key", IntentOf(1));
      var prepare := PrepareAttempt(pid, Plan(id.effect.mission, id.effect, PROVIDER_NAMESPACE, "key", request), 0);
      hide Legal, Replay;
      assert Enabled(Open, Replay(run), run, prepare);
      StepExtends(Open, run, prepare);
      more := [prepare];
    }
  }

  lemma TakingIsOpen(s: Stores, run: Run, pid: Pid, id: AttemptId)
    requires id in s.attempts && NotStarted(s, id)
    requires SeeDispatchable(pid, id.effect.mission, id.effect.effectRef) in run
    ensures Enabled(Open, s, run, TakeAttempt(pid, id, s.attempts[id].record.updated))
  {
  }

  lemma CallingIsOpen(s: Stores, run: Run, pid: Pid, id: AttemptId, at: int)
    requires TakeAttempt(pid, id, at) in run && CallPort(pid, id) !in run
    ensures Enabled(Open, s, run, CallPort(pid, id))
  {
  }

  lemma TakeAndCall(run: Run, more: Run, pid: Pid, id: AttemptId)
    requires Legal(Open, run + more) && id in Replay(run + more).attempts && NotStarted(Replay(run + more), id)
    requires SeeDispatchable(pid, id.effect.mission, id.effect.effectRef) in run
    ensures CanStillCall(run, pid, id)
  {
    hide Legal, Replay, Enabled, Apply, NotStarted;
    var prepared := run + more;
    var at := Replay(prepared).attempts[id].record.updated;
    var take := TakeAttempt(pid, id, at);
    NobodyCalledYet(prepared, pid, id);
    TakingIsOpen(Replay(prepared), prepared, pid, id);
    StepExtends(Open, prepared, take);
    var taken := prepared + [take];
    assert take in taken && CallPort(pid, id) !in taken;
    CallingIsOpen(Replay(taken), taken, pid, id, at);
    StepExtends(Open, taken, CallPort(pid, id));
    assert taken + [CallPort(pid, id)] == run + (more + [take, CallPort(pid, id)]);
  }

  lemma NobodyCalledYet(run: Run, pid: Pid, id: AttemptId)
    requires Legal(Open, run) && id in Replay(run).attempts && NotStarted(Replay(run), id)
    ensures CallPort(pid, id) !in run
  {
    TakenStaysPastPrepared(Open, run);
    if CallPort(pid, id) in run { CallNeedsTake(Open, run, CallPort(pid, id)); }
  }

  lemma CallerHadRead(run: Run, pid: Pid, id: AttemptId)
    requires ChainConfirmedIn(Replay(run), id) && CanStillCall(run, pid, id)
    ensures SeeDispatchable(pid, id.effect.mission, id.effect.effectRef) in run
  {
    var more: Run :| Legal(Open, run + more) && CallPort(pid, id) in run + more;
    var (whole, read) := (run + more, SeeDispatchable(pid, id.effect.mission, id.effect.effectRef));
    hide *;
    var n :| 0 <= n < |whole| && whole[n] == CallPort(pid, id);
    CallerHasRead(Open, whole, n);
    var i :| 0 <= i < n && whole[..n][i] == read;
    assert whole[i] == read;
    if |run| <= i { NoReadAfter(run, whole, i, id); }
    assert run[i] == read;
  }

  lemma NoReadAfter(run: Run, whole: Run, i: nat, id: AttemptId)
    requires Legal(Open, whole) && run <= whole && |run| <= i < |whole| && ChainConfirmedIn(Replay(run), id)
    ensures whole[i].SeeDispatchable? ==>
      whole[i].key != id.effect.mission || whole[i].effectRef != id.effect.effectRef
  {
    hide *;
    ActionWasEnabled(Open, whole, i);
    RunEvolves(Open, whole[..i], |run|);
    assert whole[..i][..|run|] == run;
    StillConfirmed(Open, Replay(run), Replay(whole[..i]), whole[..i], whole[i], id);
    AttemptForIs(id);
  }

  lemma AttemptForIs(id: AttemptId)
    ensures AttemptFor(id.effect.mission, id.effect.effectRef) == id
  {
  }

  // ---- a run in which the call does come late ----

  /** Process 1 prepares the attempt, process 2 reads the Mission, process 3 confirms the effect from chain
      evidence and crashes before marking the attempt, and process 2 goes on to call the port. */
  lemma LateCallIsPossible() returns (run: Run, j: nat, n: nat)
    ensures Legal(Open, run) && j < n < |run|
    ensures run[n] == CallPort(2, ANNA) && Confirms(run[j], ANNA)
  {
    hide *;
    var start := Starts(Open);
    var seen := Reader(start);
    var confirmed := AnnaIsConfirmed(seen);
    run := Caller(confirmed);
    j, n := |confirmed| - 1, |run| - 1;
    assert run[j] == confirmed[j] == MoveEffect(3, KEY, "anna", ChainConfirmed, 0);
    LastWriteConfirms();
  }

  lemma LastWriteConfirms()
    ensures Confirms(MoveEffect(3, KEY, "anna", ChainConfirmed, 0), ANNA)
  {
  }

  lemma Reader(run: Run) returns (more: Run)
    requires Legal(Open, run) && Replay(run) == World(READY, 5, PREPARED)
    ensures Legal(Open, more) && Replay(more) == World(READY, 5, PREPARED) && SeeDispatchable(2, KEY, "anna") in more
  {
    Lookups(READY);
    StepExtends(Open, run, SeeDispatchable(2, KEY, "anna"));
    more := run + [SeeDispatchable(2, KEY, "anna")];
  }

  lemma Caller(run: Run) returns (more: Run)
    requires Legal(Open, run) && Replay(run) == World(Scene(Reconciling, ChainConfirmed, Planned), 9, PREPARED)
    requires SeeDispatchable(2, KEY, "anna") in run
    ensures Legal(Open, more) && run <= more && |run| < |more| && more[|more| - 1] == CallPort(2, ANNA)
  {
    var take := TakeAttempt(2, ANNA, 0);
    assert ANNA in PREPARED;
    StepExtends(Open, run, take);
    var taken := run + [take];
    assert take in taken;
    NobodyCalledYet(run, 2, ANNA);
    StepExtends(Open, taken, CallPort(2, ANNA));
    more := taken + [CallPort(2, ANNA)];
  }
}
