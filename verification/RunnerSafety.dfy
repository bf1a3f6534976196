/** Runs of the sequential runner: effects are confirmed in order, money moves in order and never
    beyond the Mission total. */
module RunnerSafety {
  import opened MissionIdentity
  import opened Missions
  import opened Attempts
  import opened Authorizations
  import opened Evidence
  import opened Payments
  import opened Protocol
  import opened ProtocolInvariants
  import ProtocolSafety
  import PostSafety

  function Step(cfg: Config, k: nat): AttemptId
    requires cfg.Ordered? && k < |cfg.sequence|
  {
    AttemptFor(cfg.mission, cfg.sequence[k])
  }

  predicate ConfirmedUpTo(s: Stores, cfg: Config, k: nat)
    requires cfg.Ordered? && k <= |cfg.sequence|
  {
    forall i :: 0 <= i < k ==> ChainConfirmedIn(s, Step(cfg, i))
  }

  lemma ConfirmedUpToPersists(s: Stores, s': Stores, cfg: Config, k: nat)
    requires cfg.Ordered? && k <= |cfg.sequence| && StoresEvolve(s, s') && ConfirmedUpTo(s, cfg, k)
    ensures ConfirmedUpTo(s', cfg, k)
  {
    hide StoresEvolve;
    forall i | 0 <= i < k ensures ChainConfirmedIn(s', Step(cfg, i)) {
      ProtocolSafety.ConfirmationPersists(s, s', Step(cfg, i));
    }
  }

  /** An attempt is taken only for a step of the sequence all of whose predecessors are confirmed. */
  lemma {:induction false} TakenInSequence(cfg: Config, run: Run, b: Action) returns (k: nat)
    requires cfg.Ordered? && Legal(cfg, run) && b in run && b.TakeAttempt?
    ensures k < |cfg.sequence| && b.id == Step(cfg, k) && ConfirmedUpTo(Replay(run), cfg, k)
  {
    var before, a := run[..|run| - 1], run[|run| - 1];
    var s := Replay(before);
    Unrolled(run);
    StepEvolves(cfg, run);
    if b in before {
      k := TakenInSequence(cfg, before, b);
    } else {
      assert EarlierConfirmed(s, cfg, b.id.effect.effectRef);
      k :| 0 <= k < |cfg.sequence| && cfg.sequence[k] == b.id.effect.effectRef
        && forall i :: 0 <= i < k ==> ChainConfirmedIn(s, AttemptFor(cfg.mission, cfg.sequence[i]));
      assert ConfirmedUpTo(s, cfg, k);
    }
    ConfirmedUpToPersists(s, Replay(run), cfg, k);
  }

  // ---- references and observations in an ordered run ----

  lemma {:induction false} BroadcastClaimNeedsCall(cfg: Config, run: Run, b: Action)
    requires Legal(cfg, run) && b in run && b.ClaimAuthorization? && b.row.phase == Broadcast
    ensures CallPort(b.pid, b.row.attemptId) in run
  {
    var before := run[..|run| - 1];
    Unrolled(run);
    if b in before { BroadcastClaimNeedsCall(cfg, before, b); }
  }

  lemma BroadcastPostWasTaken(cfg: Config, run: Run, b: Action)
    requires Legal(cfg, run) && b in run && b.Post? && b.row.phase == Broadcast
    ensures Took(run, b.pid, b.row.attemptId)
  {
    PostSafety.PostNeedsClaim(cfg, run, b);
    BroadcastClaimNeedsCall(cfg, run, ClaimAuthorization(b.pid, b.row, b.intent));
    CallNeedsTake(cfg, run, CallPort(b.pid, b.row.attemptId));
  }

  lemma ReferenceWasTaken(cfg: Config, run: Run, id: AttemptId)
    requires Legal(cfg, run) && id in Replay(run).references
    ensures exists b :: b in run && b.TakeAttempt? && b.id == id
  {
    var i, j := PostSafety.ReferenceWasAnswered(cfg, run, id);
    BroadcastPostWasTaken(cfg, run, run[i]);
  }

  lemma {:induction false} ObservedHasReference(cfg: Config, run: Run, b: Action)
    requires cfg.Ordered? && Legal(cfg, run) && b in run && b.Observe?
    ensures b.id in Replay(run).references
  {
    var before := run[..|run| - 1];
    Unrolled(run);
    if b in before { ObservedHasReference(cfg, before, b); }
    StepByStore(cfg, run);
  }

  // ---- main results ----

  /** In every ordered run the confirmed effects form a prefix of the sequence. */
  lemma ConfirmedEffectsFormPrefix(cfg: Config, run: Run, i: nat, j: nat)
    requires cfg.Ordered? && Legal(cfg, run)
    requires forall x, y :: 0 <= x < y < |cfg.sequence| ==> cfg.sequence[x] != cfg.sequence[y]
    requires i < j < |cfg.sequence| && ChainConfirmedIn(Replay(run), Step(cfg, j))
    ensures ChainConfirmedIn(Replay(run), Step(cfg, i))
  {
    var s, id := Replay(run), Step(cfg, j);
    var e := EffectBehind(s, id);
    ProtocolSafety.ConfirmedEffectsWereObserved(cfg, run);
    MissionRowsStaySound(cfg, run);
    hide Legal, WellFormed;
    assert ProtocolSafety.WitnessedBySomeone(run, id, e);
    var b :| b in run && b.Observe? && b.id == id && Confirms(e, b.sender, b.minimum, b.observation);
    ObservedHasReference(cfg, run, b);
    ReferenceWasTaken(cfg, run, id);
    var t :| t in run && t.TakeAttempt? && t.id == id;
    var k := TakenInSequence(cfg, run, t);
    assert k == j;
  }

  /** A broadcast for one step is sent only when every earlier step is confirmed. */
  lemma BroadcastsGoInOrder(cfg: Config, run: Run, n: nat) returns (k: nat)
    requires cfg.Ordered? && Legal(cfg, run) && n < |run| && run[n].Post? && run[n].row.phase == Broadcast
    ensures k < |cfg.sequence| && run[n].row.attemptId == Step(cfg, k)
    ensures ConfirmedUpTo(Replay(run[..n]), cfg, k)
  {
    PrefixIsLegal(cfg, run, n);
    ActionWasEnabled(cfg, run, n);
    var claim := ClaimAuthorization(run[n].pid, run[n].row, run[n].intent);
    BroadcastClaimNeedsCall(cfg, run[..n], claim);
    CallNeedsTake(cfg, run[..n], CallPort(claim.pid, claim.row.attemptId));
    hide Legal;
    var t :| t in run[..n] && t.TakeAttempt? && t.pid == claim.pid && t.id == claim.row.attemptId;
    k := TakenInSequence(cfg, run[..n], t);
  }

  // ---- where the money goes ----

  predicate IsBroadcast(a: Action) {
    a.Post? && a.row.phase == Broadcast
  }

  /** What fulfils this POST, from this sender, is an economic match of the effect, and nothing else is. */
  ghost predicate PaysExactly(a: Action, e: EffectRecord)
    requires a.Post? && ValidIntent(a.intent)
  {
    forall sender: string, t: Transfer ::
      EconomicMatch(e, sender, t) <==> t.sender == sender && Fulfils(t, PostSafety.PostedBody(a), e.decimals)
  }

  /** Every broadcast POST of an ordered run is for a step of the sequence and pays the effect of that step in the
      stored Mission: the chain transfers that do what its body asks for are the ones that confirm the effect. */
  lemma BroadcastPaysItsEffect(cfg: Config, run: Run, n: nat) returns (k: nat)
    requires cfg.Ordered? && Legal(cfg, run) && n < |run| && IsBroadcast(run[n])
    ensures k < |cfg.sequence| && run[n].row.attemptId == Step(cfg, k) && EffectInMission(Replay(run), Step(cfg, k))
    ensures ValidIntent(run[n].intent) && PaysExactly(run[n], EffectBehind(Replay(run), Step(cfg, k)))
  {
    k := BroadcastsGoInOrder(cfg, run, n);
    PostSafety.PostNeedsClaim(cfg, run, run[n]);
    ClaimedIntentIsPlanned(cfg, run, ClaimAuthorization(run[n].pid, run[n].row, run[n].intent));
    PostSafety.PostAsksForItsPlan(cfg, run, n);
    hide Legal, Replay, Asks, Fulfils, EconomicMatch, PostSafety.PostedBody;
    var e := EffectBehind(Replay(run), Step(cfg, k));
    forall sender: string, t: Transfer
      ensures EconomicMatch(e, sender, t) <==> t.sender == sender && Fulfils(t, PostSafety.PostedBody(run[n]), e.decimals)
    {
      AskedIsOwed(PostSafety.PostedBody(run[n]), run[n].intent, false, e, sender, t);
    }
  }

  /** Confirmed means paid as posted: for every confirmed step of an ordered run there is a broadcast POST, and later
      an observation of a chain transfer that does what this POST asked for. */
  lemma ConfirmedAsPosted(cfg: Config, run: Run, k: nat) returns (n: nat, b: nat)
    requires cfg.Ordered? && Legal(cfg, run) && k < |cfg.sequence| && ChainConfirmedIn(Replay(run), Step(cfg, k))
    ensures n < b < |run| && IsBroadcast(run[n]) && run[n].row.attemptId == Step(cfg, k) && ValidIntent(run[n].intent)
    ensures run[b].Observe? && run[b].id == Step(cfg, k) && run[b].observation.VerifiedTransfer?
    ensures Fulfils(run[b].observation.transfer, PostSafety.PostedBody(run[n]), run[n].intent.decimals)
    ensures run[b].observation.transfer.sender == run[b].sender
    ensures run[b].minimum <= run[b].observation.transfer.confirmations
  {
    var s, id := Replay(run), Step(cfg, k);
    var e := EffectBehind(s, id);
    ProtocolSafety.ConfirmedEffectsWereObserved(cfg, run);
    MissionRowsStaySound(cfg, run);
    hide WellFormed;
    assert ProtocolSafety.WitnessedBySomeone(run, id, e);
    var c :| c in run && c.Observe? && c.id == id && Confirms(e, c.sender, c.minimum, c.observation);
    b :| 0 <= b < |run| && run[b] == c;
    ActionWasEnabled(cfg, run, b);
    var i, j := PostSafety.ReferenceWasAnswered(cfg, run[..b], id);
    n := i;
    assert run[..b][i] == run[i];
    var step := BroadcastPaysItsEffect(cfg, run, n);
    hide Legal, Replay, Fulfils, EconomicMatch, PostSafety.PostedBody;
    BroadcastScale(cfg, run, n);
    assert PaysExactly(run[n], e);
    assert EconomicMatch(e, c.sender, c.observation.transfer);
  }

  lemma BroadcastScale(cfg: Config, run: Run, n: nat)
    requires cfg.Ordered? && Legal(cfg, run) && n < |run| && IsBroadcast(run[n])
    ensures EffectInMission(Replay(run), run[n].row.attemptId)
    ensures EffectBehind(Replay(run), run[n].row.attemptId).decimals == run[n].intent.decimals
  {
    PostSafety.PostNeedsClaim(cfg, run, run[n]);
    ClaimedIntentIsPlanned(cfg, run, ClaimAuthorization(run[n].pid, run[n].row, run[n].intent));
    hide Legal, Replay;
  }

  // ---- the sum of all broadcasts ----

  function BroadcastTotal(run: Run): int {
    if run == [] then 0
    else
      var a := run[|run| - 1];
      BroadcastTotal(run[..|run| - 1]) + if IsBroadcast(a) then a.intent.amount else 0
  }

  predicate Paid(run: Run, id: AttemptId) {
    exists b :: b in run && IsBroadcast(b) && b.row.attemptId == id
  }

  function PaidTotal(run: Run, key: MissionKey, effects: seq<EffectRecord>): int {
    if effects == [] then 0
    else
      (if Paid(run, AttemptFor(key, effects[0].effectRef)) then effects[0].amount else 0)
      + PaidTotal(run, key, effects[1..])
  }

  /** Every broadcast in the run pays one of these effects its own amount. */
  predicate PaysEffects(run: Run, key: MissionKey, effects: seq<EffectRecord>) {
    forall b :: b in run && IsBroadcast(b) ==>
      exists k :: 0 <= k < |effects| && PaysEffect(b, key, effects[k])
  }

  predicate PaysEffect(b: Action, key: MissionKey, e: EffectRecord)
    requires IsBroadcast(b)
  {
    b.row.attemptId == AttemptFor(key, e.effectRef) && b.intent.amount == e.amount
  }

  lemma {:induction false} PaidTotalIdle(run: Run, a: Action, key: MissionKey, effects: seq<EffectRecord>)
    requires forall k :: 0 <= k < |effects| ==> IsBroadcast(a) ==> a.row.attemptId != AttemptFor(key, effects[k].effectRef)
    ensures PaidTotal(run + [a], key, effects) == PaidTotal(run, key, effects)
  {
    if effects != [] {
      var id := AttemptFor(key, effects[0].effectRef);
      assert Paid(run, id) ==> Paid(run + [a], id) by {
        if Paid(run, id) {
          var b :| b in run && IsBroadcast(b) && b.row.attemptId == id;
          assert b in run + [a];
        }
      }
      PaidTotalIdle(run, a, key, effects[1..]);
    }
  }

  lemma {:induction false} PaidTotalGrows(run: Run, a: Action, key: MissionKey, effects: seq<EffectRecord>, k: nat)
    requires k < |effects| && DistinctRefs(effects)
    requires IsBroadcast(a) && a.row.attemptId == AttemptFor(key, effects[k].effectRef)
    requires !Paid(run, a.row.attemptId)
    ensures PaidTotal(run + [a], key, effects) == PaidTotal(run, key, effects) + effects[k].amount
  {
    assert DistinctRefs(effects[1..]);
    if k == 0 {
      assert a in run + [a];
      PaidTotalIdle(run, a, key, effects[1..]);
    } else {
      var id := AttemptFor(key, effects[0].effectRef);
      assert effects[0].effectRef != effects[k].effectRef;
      assert Paid(run, id) ==> Paid(run + [a], id) by {
        if Paid(run, id) {
          var b :| b in run && IsBroadcast(b) && b.row.attemptId == id;
          assert b in run + [a];
        }
      }
      PaidTotalGrows(run, a, key, effects[1..], k - 1);
    }
  }

  lemma {:induction false} BroadcastTotalIsPaid(cfg: Config, run: Run, key: MissionKey, effects: seq<EffectRecord>)
    requires Legal(cfg, run) && DistinctRefs(effects) && PaysEffects(run, key, effects)
    ensures BroadcastTotal(run) == PaidTotal(run, key, effects)
  {
    if run == [] {
      NothingPaid(key, effects);
    } else {
      hide *;
      var before, a := run[..|run| - 1], run[|run| - 1];
      StepByStore(cfg, run);
      var k := LastPayment(run, key, effects);
      BroadcastTotalIsPaid(cfg, before, key, effects);
      if IsBroadcast(a) {
        FirstBroadcast(cfg, run);
        PaidTotalGrows(before, a, key, effects, k);
      } else {
        PaidTotalIdle(before, a, key, effects);
      }
    }
  }

  lemma LastPayment(run: Run, key: MissionKey, effects: seq<EffectRecord>) returns (k: nat)
    requires run != [] && PaysEffects(run, key, effects)
    ensures var before, a := run[..|run| - 1], run[|run| - 1];
      && run == before + [a] && PaysEffects(before, key, effects)
      && BroadcastTotal(run) == BroadcastTotal(before) + (if a.Post? && IsBroadcast(a) then a.intent.amount else 0)
      && (IsBroadcast(a) ==>
            && a.Post? && k < |effects| && a.intent.amount == effects[k].amount
            && a.row.attemptId == AttemptFor(key, effects[k].effectRef))
  {
    var before, a := run[..|run| - 1], run[|run| - 1];
    Unrolled(run);
    k := 0;
    if IsBroadcast(a) {
      k :| 0 <= k < |effects| && PaysEffect(a, key, effects[k]);
    }
  }

  lemma FirstBroadcast(cfg: Config, run: Run)
    requires Legal(cfg, run) && run != [] && IsBroadcast(run[|run| - 1])
    ensures !Paid(run[..|run| - 1], run[|run| - 1].row.attemptId)
  {
    var before, a := run[..|run| - 1], run[|run| - 1];
    if Paid(before, a.row.attemptId) {
      var b :| b in before && IsBroadcast(b) && b.row.attemptId == a.row.attemptId;
      var i :| 0 <= i < |before| && before[i] == b;
      PostSafety.PostHappensAtMostOnce(cfg, run, i, |run| - 1);
    }
  }

  lemma {:induction false} NothingPaid(key: MissionKey, effects: seq<EffectRecord>)
    ensures PaidTotal([], key, effects) == 0
  {
    if effects != [] { NothingPaid(key, effects[1..]); }
  }

  lemma {:induction false} PaidIsBounded(run: Run, key: MissionKey, effects: seq<EffectRecord>)
    requires forall e :: e in effects ==> e.amount >= 1
    ensures PaidTotal(run, key, effects) <= RecordTotal(effects)
  {
    if effects != [] {
      assert effects[0] in effects;
      PaidIsBounded(run, key, effects[1..]);
    }
  }

  predicate PaidAsPlanned(s: Stores, a: Action)
    requires IsBroadcast(a)
  {
    EffectInMission(s, a.row.attemptId) && Carries(a.intent, EffectBehind(s, a.row.attemptId))
  }

  lemma PlanPersists(s: Stores, s': Stores, a: Action)
    requires IsBroadcast(a) && StoresEvolve(s, s') && PaidAsPlanned(s, a)
    ensures PaidAsPlanned(s', a)
  {
    var key := a.row.attemptId.effect.mission;
    LookupEvolves(s.missions[key], s'.missions[key], a.row.attemptId.effect.effectRef);
  }

  lemma {:induction false} ClaimedIntentIsPlanned(cfg: Config, run: Run, b: Action)
    requires cfg.Ordered? && Legal(cfg, run) && b in run && b.ClaimAuthorization? && b.row.phase == Broadcast
    ensures PaidAsPlanned(Replay(run), Post(b.pid, b.row, b.intent))
  {
    var before := run[..|run| - 1];
    Unrolled(run);
    StepEvolves(cfg, run);
    if b in before { ClaimedIntentIsPlanned(cfg, before, b); }
    PlanPersists(Replay(before), Replay(run), Post(b.pid, b.row, b.intent));
  }

  /** The money put on the wire by all broadcasts of an ordered run never exceeds the Mission total. */
  lemma BroadcastsStayWithinMission(cfg: Config, run: Run)
    requires cfg.Ordered? && Legal(cfg, run) && cfg.mission in Replay(run).missions
    ensures BroadcastTotal(run) <= RequestTotal(Replay(run).missions[cfg.mission].record.request.effects)
  {
    var m := Replay(run).missions[cfg.mission].record;
    MissionRowsStaySound(cfg, run);
    TotalIsImmutable(m);
    forall b | b in run && IsBroadcast(b)
      ensures exists k :: 0 <= k < |m.effects| && PaysEffect(b, cfg.mission, m.effects[k])
    {
      PostSafety.PostNeedsClaim(cfg, run, b);
      ClaimedIntentIsPlanned(cfg, run, ClaimAuthorization(b.pid, b.row, b.intent));
      BroadcastPostWasTaken(cfg, run, b);
      var t :| t in run && t.TakeAttempt? && t.pid == b.pid && t.id == b.row.attemptId;
      var k := TakenInSequence(cfg, run, t);
      hide Legal, WellFormed;
      var i := IndexOf(m.effects, b.row.attemptId.effect.effectRef);
      assert PaysEffect(b, cfg.mission, m.effects[i]);
    }
    BroadcastTotalIsPaid(cfg, run, cfg.mission, m.effects);
    AmountsArePositive(m);
    PaidIsBounded(run, cfg.mission, m.effects);
  }

  lemma AmountsArePositive(m: MissionRecord)
    requires WellFormed(m)
    ensures forall e :: e in m.effects ==> e.amount >= 1
  {
    forall e | e in m.effects ensures e.amount >= 1 {
      var r :| r in m.request.effects && Realizes(m, e, r);
      var i :| 0 <= i < |m.request.effects| && m.request.effects[i] == r;
      assert AcceptableEffect(m.request.effects[i]);
    }
  }
}
