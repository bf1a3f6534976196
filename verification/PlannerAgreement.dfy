/** The planner and the dispatcher read the same stores: do they agree on what may be executed? */
module PlannerAgreement {
  import opened Outcomes
  import opened MissionIdentity
  import opened Missions
  import opened Attempts
  import opened Protocol
  import opened ProtocolInvariants
  import opened ContinuationPlanner
  import AttemptStore
  import Dispatch
  import Ordering

  /** On any reachable stores, an undisturbed dispatch of a plan for one of a Mission's effects reaches the port
      exactly when the planner says EXECUTE_MISSING for that effect, the Mission is READY_FOR_EXECUTION, and a
      stored attempt, if there is one, has this very plan and is not dated after the dispatch. */
  lemma PlannerAndDispatcherAgree(cfg: Config, run: Run, plan: Plan, at: int)
    requires Legal(cfg, run) && plan.missionKey in Replay(run).missions && plan.effectId.mission == plan.missionKey
    requires HasEffect(Replay(run).missions[plan.missionKey].record, plan.effectId.effectRef)
    ensures var s := Replay(run);
      var m := s.missions[plan.missionKey].record;
      var attempt := Lookup(s.attempts, plan.effectId);
      var decision := Classify(m.key, m.state, EffectOf(m, plan.effectId.effectRef), attempt);
      Dispatch.DispatchReaches(s, plan, at) <==>
        && decision.Success? && decision.value.action == ExecuteMissing
        && m.state == ReadyForExecution
        && (attempt.Some? ==> attempt.value.plan == plan && attempt.value.updated <= at)
  {
    MissionRowsStaySound(cfg, run);
    hide Legal, Replay, WellFormed;
    var m := Replay(run).missions[plan.missionKey].record;
    ClassificationIsExact(m.key, m.state, EffectOf(m, plan.effectId.effectRef), Lookup(Replay(run).attempts, plan.effectId));
    hide Classify;
  }

  /** The same for a whole plan: each decision tells what dispatching its effect would do. */
  lemma DecisionsPredictDispatch(cfg: Config, run: Run, plan: Plan, at: int, d: Decision)
    requires Legal(cfg, run) && plan.missionKey in Replay(run).missions && plan.effectId.mission == plan.missionKey
    requires PlanFor(Replay(run).missions[plan.missionKey].record, Replay(run).attempts).Success?
    requires d in PlanFor(Replay(run).missions[plan.missionKey].record, Replay(run).attempts).value.decisions
    requires d.effectId == plan.effectId
    ensures var s := Replay(run);
      var attempt := Lookup(s.attempts, plan.effectId);
      Dispatch.DispatchReaches(s, plan, at) <==>
        && d.action == ExecuteMissing && s.missions[plan.missionKey].record.state == ReadyForExecution
        && (attempt.Some? ==> attempt.value.plan == plan && attempt.value.updated <= at)
  {
    MissionRowsStaySound(cfg, run);
    var m := Replay(run).missions[plan.missionKey].record;
    hide Legal, Replay, WellFormed, Classify;
    DecisionIsItsEffects(m, Replay(run).attempts, d);
    PlannerAndDispatcherAgree(cfg, run, plan, at);
  }

  lemma DecisionIsItsEffects(m: MissionRecord, attempts: AttemptStore.AttemptRows, d: Decision)
    requires WellFormed(m) && PlanFor(m, attempts).Success? && d in PlanFor(m, attempts).value.decisions
    ensures d.effectId == EffectId(m.key, d.effectRef) && HasEffect(m, d.effectRef)
    ensures Classify(m.key, m.state, EffectOf(m, d.effectRef), Lookup(attempts, d.effectId)) == Success(d)
  {
    var effects := Ordering.Sort(RecordRef, m.effects);
    OneDecisionPerEffect(m.key, m.state, effects, attempts, {});
    Ordering.SortIsSorted(RecordRef, m.effects);
    var decisions := PlanFor(m, attempts).value.decisions;
    hide Classify, Acceptable, RealizesRequest, TimesInOrder;
    var i :| 0 <= i < |decisions| && decisions[i] == d;
    var e := effects[i];
    ClassificationIsExact(m.key, m.state, e, Lookup(attempts, EffectId(m.key, e.effectRef)));
    assert e in multiset(effects);
    var k :| 0 <= k < |m.effects| && m.effects[k] == e;
    var j := IndexOf(m.effects, d.effectRef);
    assert j <= k;
    assert j == k;
  }
}
