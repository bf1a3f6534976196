/** Mission aggregates, the two transition tables and the record-level transitions. */
module Missions {
  import opened Outcomes
  import opened MissionIdentity
  import Ordering

  datatype MissionState =
    | Received | Validated | Persisted | Reconciling | ReadyForExecution | Executing | Verifying
    | Completed | MissionConflict | Blocked | ExecutionUnknown | VerificationFailed | ManualReviewRequired

  datatype EffectState =
    | Planned | Reserved | Submitted | ExecutionUnknown | ChainConfirmed | FailedFinal | Blocked

  datatype EffectRecord = EffectRecord(
    effectRef: string, chainId: int, token: string, decimals: int, recipient: string, amount: int,
    state: EffectState, created: int, updated: int)

  datatype MissionRecord = MissionRecord(
    key: MissionKey, fingerprint: ContentFingerprint, request: Document,
    state: MissionState, effects: seq<EffectRecord>, created: int, updated: int)

  datatype StoredMission = StoredMission(record: MissionRecord, revision: nat)

  /** Position of the effect with this reference, or |effects| when there is none. */
  function IndexOf(effects: seq<EffectRecord>, effectRef: string): (i: nat)
    ensures i <= |effects|
    ensures i < |effects| ==> effects[i].effectRef == effectRef
    ensures forall j :: 0 <= j < i ==> effects[j].effectRef != effectRef
  {
    if effects == [] || effects[0].effectRef == effectRef then 0
    else 1 + IndexOf(effects[1..], effectRef)
  }

  predicate HasEffect(m: MissionRecord, effectRef: string) {
    IndexOf(m.effects, effectRef) < |m.effects|
  }

  function EffectOf(m: MissionRecord, effectRef: string): EffectRecord
    requires HasEffect(m, effectRef)
  {
    m.effects[IndexOf(m.effects, effectRef)]
  }

  predicate EffectIs(m: MissionRecord, effectRef: string, state: EffectState) {
    HasEffect(m, effectRef) && EffectOf(m, effectRef).state == state
  }

  // ---- record invariants ----

  predicate DistinctRefs(effects: seq<EffectRecord>) {
    forall i, j :: 0 <= i < j < |effects| ==> effects[i].effectRef != effects[j].effectRef
  }

  predicate Realizes(m: MissionRecord, e: EffectRecord, r: EffectRequest) {
    && e.effectRef == r.effectRef && e.recipient == r.recipient && e.amount == r.amount
    && e.chainId == m.request.chainId && e.token == m.request.token && e.decimals == m.request.decimals
  }

  predicate TimesInOrder(m: MissionRecord) {
    && m.created <= m.updated
    && forall e :: e in m.effects ==> m.created <= e.created <= e.updated <= m.updated
  }

  /** The effects realise the request one to one: references are distinct on both sides and there
      are equally many, so every request effect is realised as well. */
  predicate RealizesRequest(m: MissionRecord, effects: seq<EffectRecord>, requests: seq<EffectRequest>) {
    && |effects| == |requests|
    && forall e :: e in effects ==> exists r :: r in requests && Realizes(m, e, r)
  }

  predicate WellFormed(m: MissionRecord) {
    && Acceptable(m.request) && Lowered(m.request) == m.request
    && m.key == KeyOf(m.request) && m.fingerprint == ContentFingerprint(Canonical(m.request))
    && DistinctRefs(m.effects) && RealizesRequest(m, m.effects, m.request.effects)
    && TimesInOrder(m)
  }

  predicate AllConfirmed(m: MissionRecord) {
    forall e :: e in m.effects ==> e.state == ChainConfirmed
  }

  predicate AllPlanned(m: MissionRecord) {
    forall e :: e in m.effects ==> e.state == Planned
  }

  function InitialEffect(request: Document, r: EffectRequest, at: int): EffectRecord {
    EffectRecord(r.effectRef, request.chainId, request.token, request.decimals, r.recipient, r.amount,
      Planned, at, at)
  }

  /** The constructors lower-case every address before the aggregate is built, and the effects come sorted. */
  function InitialRecord(request: Document, at: int): MissionRecord {
    var (kept, ordered) := (Lowered(request), Canonical(request).effects);
    MissionRecord(KeyOf(request), ContentFingerprint(Canonical(request)), kept, Received,
      seq(|ordered|, i requires 0 <= i < |ordered| => InitialEffect(kept, ordered[i], at)), at, at)
  }

  lemma InitialRecordIsWellFormed(request: Document, at: int)
    requires Acceptable(request)
    ensures var m := InitialRecord(request, at);
      WellFormed(m) && m.state == Received && AllPlanned(m)
  {
    var m := InitialRecord(request, at);
    var (kept, ordered) := (LoweredEffects(request.effects), Canonical(request).effects);
    LoweringKeepsContent(request);
    LoweringKeepsRefs(request.effects);
    Ordering.SortIsSorted(RefOf, kept);
    Ordering.DistinctKeysOfPermutation(RefOf, kept, ordered);
    forall i, j | 0 <= i < j < |m.effects| ensures m.effects[i].effectRef != m.effects[j].effectRef {
      assert RefOf(ordered[i]) != RefOf(ordered[j]);
    }
    forall e | e in m.effects ensures exists r :: r in kept && Realizes(m, e, r) {
      var i :| 0 <= i < |m.effects| && m.effects[i] == e;
      assert ordered[i] in multiset(kept);
      assert Realizes(m, e, ordered[i]);
    }
  }

  /** Whatever letter case a request came in, every effect of a stored Mission names its token and recipient in
      lower case, which is the only case in which chain evidence states them. */
  lemma AddressesAreLowered(m: MissionRecord, e: EffectRecord)
    requires WellFormed(m) && e in m.effects
    ensures IsAddress(e.token) && Lower(e.token) == e.token
    ensures IsAddress(e.recipient) && Lower(e.recipient) == e.recipient
    ensures e.chainId >= 1 && e.amount >= 1
  {
    var r :| r in m.request.effects && Realizes(m, e, r);
    var i :| 0 <= i < |m.request.effects| && m.request.effects[i] == r;
    assert AcceptableEffect(m.request.effects[i]);
    assert LoweredEffects(m.request.effects)[i] == LoweredEffect(r);
  }

  // ---- transition tables ----

  function MissionTargets(s: MissionState): set<MissionState> {
    match s
    case Received => {Validated, MissionState.MissionConflict, MissionState.Blocked}
    case Validated => {Persisted, MissionState.MissionConflict, MissionState.Blocked}
    case Persisted => {Reconciling, MissionState.Blocked}
    case Reconciling =>
      {ReadyForExecution, MissionState.ExecutionUnknown, VerificationFailed, ManualReviewRequired,
       MissionState.Blocked, Completed}
    case ReadyForExecution => {Executing, Reconciling, ManualReviewRequired, MissionState.Blocked}
    case Executing =>
      {Verifying, MissionState.ExecutionUnknown, Reconciling, ManualReviewRequired, MissionState.Blocked}
    case Verifying =>
      {Completed, MissionState.ExecutionUnknown, VerificationFailed, Reconciling, ManualReviewRequired,
       MissionState.Blocked}
    case ExecutionUnknown => {Reconciling, ManualReviewRequired, MissionState.Blocked}
    case VerificationFailed => {Reconciling, ManualReviewRequired, MissionState.Blocked}
    case Completed => {}
    case MissionConflict => {}
    case Blocked => {}
    case ManualReviewRequired => {}
  }

  function EffectTargets(s: EffectState): set<EffectState> {
    match s
    case Planned => {Reserved, EffectState.Blocked}
    case Reserved => {Submitted, EffectState.Blocked}
    case Submitted => {EffectState.ExecutionUnknown, ChainConfirmed, FailedFinal, EffectState.Blocked}
    case ExecutionUnknown => {ChainConfirmed, FailedFinal, EffectState.Blocked}
    case ChainConfirmed => {}
    case FailedFinal => {}
    case Blocked => {}
  }

  /** The Mission table the other way round: where each state is entered from. */
  lemma MissionStatesAreEnteredFrom(s: MissionState)
    ensures Received !in MissionTargets(s)
    ensures Validated in MissionTargets(s) <==> s == Received
    ensures Persisted in MissionTargets(s) <==> s == Validated
    ensures ReadyForExecution in MissionTargets(s) <==> s == Reconciling
    ensures Executing in MissionTargets(s) <==> s == ReadyForExecution
    ensures Verifying in MissionTargets(s) <==> s == Executing
    ensures Completed in MissionTargets(s) <==> s == Reconciling || s == Verifying
    ensures VerificationFailed in MissionTargets(s) <==> s == Reconciling || s == Verifying
    ensures MissionState.ExecutionUnknown in MissionTargets(s) <==> s == Reconciling || s == Executing || s == Verifying
    ensures MissionState.MissionConflict in MissionTargets(s) <==> s == Received || s == Validated
    ensures Reconciling in MissionTargets(s) <==>
      !FinalMission(s) && s != Received && s != Validated && s != Reconciling
    ensures ManualReviewRequired in MissionTargets(s) <==>
      !FinalMission(s) && s != Received && s != Validated && s != Persisted
    ensures MissionState.Blocked in MissionTargets(s) <==> !FinalMission(s)
  {
    FinalMissionStates(s);
  }

  lemma EffectStatesAreEnteredFrom(s: EffectState)
    ensures Planned !in EffectTargets(s)
    ensures Reserved in EffectTargets(s) <==> s == Planned
    ensures Submitted in EffectTargets(s) <==> s == Reserved
    ensures EffectState.ExecutionUnknown in EffectTargets(s) <==> s == Submitted
    ensures ChainConfirmed in EffectTargets(s) <==> s == Submitted || s == EffectState.ExecutionUnknown
    ensures FailedFinal in EffectTargets(s) <==> s == Submitted || s == EffectState.ExecutionUnknown
    ensures EffectState.Blocked in EffectTargets(s) <==>
      s != ChainConfirmed && s != FailedFinal && s != EffectState.Blocked
  {
  }

  /** No way leads out of this state. */
  predicate FinalMission(s: MissionState) {
    MissionTargets(s) == {}
  }

  lemma FinalMissionStates(s: MissionState)
    ensures FinalMission(s) <==>
      s in {Completed, MissionState.MissionConflict, MissionState.Blocked, ManualReviewRequired}
  {
    assert s !in {Completed, MissionState.MissionConflict, MissionState.Blocked, ManualReviewRequired} ==>
      MissionState.Blocked in MissionTargets(s);
  }

  // ---- record-level transitions ----

  function TransitionMission(m: MissionRecord, target: MissionState, at: int): Result<MissionRecord> {
    if at < m.updated then Failure(TimestampBeforeCurrent)
    else if target !in MissionTargets(m.state) then Failure(MissionTransitionNotAllowed)
    else if target == Completed && !AllConfirmed(m) then Failure(MissionCompletionRequiresConfirmedEffects)
    else Success(m.(state := target, updated := at))
  }

  function TransitionEffect(e: EffectRecord, target: EffectState, at: int): Result<EffectRecord> {
    if at < e.updated then Failure(TimestampBeforeCurrent)
    else if target !in EffectTargets(e.state) then Failure(EffectTransitionNotAllowed)
    else Success(e.(state := target, updated := at))
  }

  function TransitionMissionEffect(m: MissionRecord, effectRef: string, target: EffectState, at: int)
    : Result<MissionRecord>
  {
    if at < m.updated then Failure(TimestampBeforeCurrent)
    else if !HasEffect(m, effectRef) then Failure(UnknownEffectRef)
    else
      match TransitionEffect(EffectOf(m, effectRef), target, at)
      case Failure(code) => Failure(code)
      case Success(e) =>
        Success(m.(effects := m.effects[IndexOf(m.effects, effectRef) := e], updated := at))
  }

  /** m' is m after exactly one permitted transition of the Mission or of one of its effects. */
  predicate SingleTransition(m: MissionRecord, m': MissionRecord) {
    || TransitionMission(m, m'.state, m'.updated) == Success(m')
    || (|m'.effects| == |m.effects|
        && exists i :: 0 <= i < |m.effects|
             && TransitionMissionEffect(m, m.effects[i].effectRef, m'.effects[i].state, m'.updated) == Success(m'))
  }

  // ---- what transitions keep ----

  predicate SameEconomics(e: EffectRecord, e': EffectRecord) {
    e' == e.(state := e'.state, updated := e'.updated)
  }

  /** Identity, request and per-effect economics are the same; only states and update times differ. */
  predicate SameIdentity(m: MissionRecord, m': MissionRecord) {
    && m'.key == m.key && m'.fingerprint == m.fingerprint && m'.request == m.request && m'.created == m.created
    && |m'.effects| == |m.effects|
    && forall i :: 0 <= i < |m.effects| ==> SameEconomics(m.effects[i], m'.effects[i])
  }

  predicate Terminal(s: EffectState) {
    EffectTargets(s) == {}
  }

  lemma SameIdentityKeepsLookup(m: MissionRecord, m': MissionRecord, effectRef: string)
    requires |m'.effects| == |m.effects|
    requires forall i :: 0 <= i < |m.effects| ==> m'.effects[i].effectRef == m.effects[i].effectRef
    ensures IndexOf(m'.effects, effectRef) == IndexOf(m.effects, effectRef)
  {
  }

  predicate CompletionJustified(m: MissionRecord) {
    m.state == Completed ==> AllConfirmed(m)
  }

  predicate KeepsFinalEffects(m: MissionRecord, m': MissionRecord) {
    forall i :: 0 <= i < |m.effects| && i < |m'.effects| && Terminal(m.effects[i].state) ==>
      m'.effects[i].state == m.effects[i].state
  }

  lemma MissionMoveKeepsRecord(m: MissionRecord, target: MissionState, at: int)
    requires WellFormed(m) && TransitionMission(m, target, at).Success?
    ensures var m' := TransitionMission(m, target, at).value;
      && WellFormed(m') && SameIdentity(m, m') && m.updated <= m'.updated && KeepsFinalEffects(m, m')
      && CompletionJustified(m')
  {
    RecordSurvives(m, TransitionMission(m, target, at).value);
  }

  lemma EffectMoveKeepsRecord(m: MissionRecord, effectRef: string, target: EffectState, at: int)
    requires WellFormed(m) && CompletionJustified(m)
    requires TransitionMissionEffect(m, effectRef, target, at).Success?
    ensures var m' := TransitionMissionEffect(m, effectRef, target, at).value;
      && WellFormed(m') && SameIdentity(m, m') && m.updated <= m'.updated && KeepsFinalEffects(m, m')
      && CompletionJustified(m')
  {
    var m' := TransitionMissionEffect(m, effectRef, target, at).value;
    assert m.effects[IndexOf(m.effects, effectRef)] in m.effects;
    forall e | e in m'.effects ensures m'.created <= e.created <= e.updated <= m'.updated {
      var j :| 0 <= j < |m'.effects| && m'.effects[j] == e;
      assert m.effects[j] in m.effects;
    }
    RecordSurvives(m, m');
  }

  /** One transition keeps every record invariant, identity and economics, moves time forward and
      never leaves a terminal effect state. */
  lemma SingleTransitionKeepsRecord(m: MissionRecord, m': MissionRecord)
    requires WellFormed(m) && CompletionJustified(m) && SingleTransition(m, m')
    ensures WellFormed(m') && SameIdentity(m, m') && m.updated <= m'.updated && KeepsFinalEffects(m, m')
    ensures CompletionJustified(m')
  {
    if TransitionMission(m, m'.state, m'.updated) == Success(m') {
      MissionMoveKeepsRecord(m, m'.state, m'.updated);
    } else {
      var i :| 0 <= i < |m.effects|
        && TransitionMissionEffect(m, m.effects[i].effectRef, m'.effects[i].state, m'.updated) == Success(m');
      EffectMoveKeepsRecord(m, m.effects[i].effectRef, m'.effects[i].state, m'.updated);
    }
  }

  lemma RecordSurvives(m: MissionRecord, m': MissionRecord)
    requires WellFormed(m) && SameIdentity(m, m') && TimesInOrder(m')
    ensures WellFormed(m')
  {
    forall i, j | 0 <= i < j < |m'.effects| ensures m'.effects[i].effectRef != m'.effects[j].effectRef {
      assert SameEconomics(m.effects[i], m'.effects[i]) && SameEconomics(m.effects[j], m'.effects[j]);
    }
    forall e | e in m'.effects ensures exists r :: r in m'.request.effects && Realizes(m', e, r) {
      var i :| 0 <= i < |m'.effects| && m'.effects[i] == e;
      assert m.effects[i] in m.effects;
      var r :| r in m.request.effects && Realizes(m, m.effects[i], r);
      assert SameEconomics(m.effects[i], e) && Realizes(m', e, r);
    }
  }

  // ---- money ----

  function RecordTotal(effects: seq<EffectRecord>): int {
    if effects == [] then 0 else effects[0].amount + RecordTotal(effects[1..])
  }

  function RequestTotal(effects: seq<EffectRequest>): int {
    if effects == [] then 0 else effects[0].amount + RequestTotal(effects[1..])
  }

  lemma {:induction false} RequestTotalWithout(effects: seq<EffectRequest>, k: int)
    requires 0 <= k < |effects|
    ensures RequestTotal(effects) == effects[k].amount + RequestTotal(effects[..k] + effects[k + 1..])
  {
    var without := effects[..k] + effects[k + 1..];
    if k == 0 {
      assert without == effects[1..];
    } else {
      RequestTotalWithout(effects[1..], k - 1);
      assert without[1..] == effects[1..][..k - 1] + effects[1..][k..];
    }
  }

  lemma RemovingKeepsDistinct(requests: seq<EffectRequest>, k: int)
    requires 0 <= k < |requests| && Ordering.DistinctKeys(RefOf, requests)
    ensures Ordering.DistinctKeys(RefOf, requests[..k] + requests[k + 1..])
  {
    var fewer := requests[..k] + requests[k + 1..];
    forall i, j | 0 <= i < j < |fewer| ensures RefOf(fewer[i]) != RefOf(fewer[j]) {
      var i', j' := if i < k then i else i + 1, if j < k then j else j + 1;
      assert RefOf(requests[i']) != RefOf(requests[j']);
    }
  }

  lemma {:induction false} MatchedTotals(m: MissionRecord, records: seq<EffectRecord>, requests: seq<EffectRequest>)
    requires DistinctRefs(records) && Ordering.DistinctKeys(RefOf, requests)
    requires RealizesRequest(m, records, requests)
    ensures RecordTotal(records) == RequestTotal(requests)
  {
    if records != [] {
      var e := records[0];
      assert e in records;
      var r :| r in requests && Realizes(m, e, r);
      var k :| 0 <= k < |requests| && requests[k] == r;
      var fewer := requests[..k] + requests[k + 1..];
      RequestTotalWithout(requests, k);
      RemovingKeepsDistinct(requests, k);
      forall e' | e' in records[1..] ensures exists r' :: r' in fewer && Realizes(m, e', r') {
        var y :| 0 <= y < |records[1..]| && records[1..][y] == e';
        assert records[y + 1] == e' && e' in records && records[0].effectRef != records[y + 1].effectRef;
        var r' :| r' in requests && Realizes(m, e', r');
        var x :| 0 <= x < |requests| && requests[x] == r';
        assert fewer[if x < k then x else x - 1] == r';
      }
      MatchedTotals(m, records[1..], fewer);
    }
  }

  /** The effects of a well-formed Mission always add up to the immutable request. */
  lemma TotalIsImmutable(m: MissionRecord)
    requires WellFormed(m)
    ensures RecordTotal(m.effects) == RequestTotal(m.request.effects)
  {
    MatchedTotals(m, m.effects, m.request.effects);
  }
}
