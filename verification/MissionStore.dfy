/** The Mission store: one aggregate per key, replaced only by a compare-and-swap on its revision. */
module MissionStore {
  import opened Outcomes
  import opened MissionIdentity
  import opened Missions

  type MissionRows = map<MissionKey, StoredMission>

  function CreateIn(rows: MissionRows, record: MissionRecord): Result<StoredMission> {
    if record.state != Received || !AllPlanned(record) then Failure(InvalidInitialAggregate)
    else if record.key in rows then
      if rows[record.key].record.fingerprint == record.fingerprint then Success(rows[record.key])
      else Failure(MissionConflictError)
    else Success(StoredMission(record, 1))
  }

  /** Accept a transitioned record only if the caller saw the current revision. */
  function SwapIn(rows: MissionRows, key: MissionKey, expected: nat, next: Result<MissionRecord>)
    : Result<StoredMission>
  {
    if key !in rows then Failure(MissionNotFound)
    else if rows[key].revision != expected then Failure(StaleRevision)
    else
      match next
      case Failure(code) => Failure(code)
      case Success(record) => Success(StoredMission(record, expected + 1))
  }

  function MoveMissionIn(rows: MissionRows, key: MissionKey, expected: nat, target: MissionState, at: int)
    : Result<StoredMission>
  {
    SwapIn(rows, key, expected,
      if key in rows then TransitionMission(rows[key].record, target, at) else Failure(MissionNotFound))
  }

  function MoveEffectIn(
    rows: MissionRows, key: MissionKey, effectRef: string, expected: nat, target: EffectState, at: int)
    : Result<StoredMission>
  {
    SwapIn(rows, key, expected,
      if key in rows then TransitionMissionEffect(rows[key].record, effectRef, target, at)
      else Failure(MissionNotFound))
  }

  /** A write stores what it returns; a failed write changes nothing. */
  function Written(rows: MissionRows, key: MissionKey, r: Result<StoredMission>): MissionRows {
    if r.Success? then rows[key := r.value] else rows
  }

  /** With accepted requests, creating finds an existing aggregate exactly when the normalised
      documents agree, and reports a conflict for every other document under the same key. */
  lemma CreateDecidesByContent(rows: MissionRows, request: Document, at: int)
    requires Acceptable(request) && KeyOf(request) in rows
    requires WellFormed(rows[KeyOf(request)].record)
    ensures var known := rows[KeyOf(request)];
      var r := CreateIn(rows, InitialRecord(request, at));
      && (r == Success(known) <==> SameContent(known.record.request, request))
      && (r == Failure(MissionConflictError) <==> !SameContent(known.record.request, request))
  {
    var known := rows[KeyOf(request)].record;
    InitialRecordIsWellFormed(request, at);
    NormalizedExactly(known.request);
    NormalizedExactly(request);
    FingerprintIdentifiesContent(known.request, request);
  }

  class Store {
    var rows: MissionRows

    constructor ()
      ensures rows == map[]
    {
      rows := map[];
    }

    /** fault: the database refuses the transaction before anything is written. */
    method Create(record: MissionRecord, fault: bool) returns (r: Result<StoredMission>)
      modifies this
      ensures fault ==> r == Failure(DatabaseError) && rows == old(rows)
      ensures !fault ==> r == CreateIn(old(rows), record) && rows == Written(old(rows), record.key, r)
    {
      if fault { return Failure(DatabaseError); }
      if record.state != Received || exists i :: 0 <= i < |record.effects| && record.effects[i].state != Planned {
        return Failure(InvalidInitialAggregate);
      }
      assert AllPlanned(record);
      if record.key in rows {
        if rows[record.key].record.fingerprint == record.fingerprint {
          r := Success(rows[record.key]);
          assert rows == rows[record.key := rows[record.key]];
          return;
        }
        return Failure(MissionConflictError);
      }
      rows := rows[record.key := StoredMission(record, 1)];
      r := Success(rows[record.key]);
    }

    method Get(key: MissionKey, fault: bool) returns (r: Result<Option<StoredMission>>)
      ensures r == if fault then Failure(DatabaseError)
                   else Success(if key in rows then Some(rows[key]) else None)
    {
      if fault { return Failure(DatabaseError); }
      r := Success(if key in rows then Some(rows[key]) else None);
    }

    method TransitionMission(key: MissionKey, expected: nat, target: MissionState, at: int, fault: bool)
      returns (r: Result<StoredMission>)
      modifies this
      ensures fault ==> r == Failure(DatabaseError) && rows == old(rows)
      ensures !fault ==> r == MoveMissionIn(old(rows), key, expected, target, at) && rows == Written(old(rows), key, r)
    {
      if fault { return Failure(DatabaseError); }
      if key !in rows { return Failure(MissionNotFound); }
      r := Rewrite(key, expected, Missions.TransitionMission(rows[key].record, target, at));
    }

    method TransitionEffect(
      key: MissionKey, effectRef: string, expected: nat, target: EffectState, at: int, fault: bool)
      returns (r: Result<StoredMission>)
      modifies this
      ensures fault ==> r == Failure(DatabaseError) && rows == old(rows)
      ensures !fault ==>
        && r == MoveEffectIn(old(rows), key, effectRef, expected, target, at)
        && rows == Written(old(rows), key, r)
    {
      if fault { return Failure(DatabaseError); }
      if key !in rows { return Failure(MissionNotFound); }
      r := Rewrite(key, expected, TransitionMissionEffect(rows[key].record, effectRef, target, at));
    }

    method Rewrite(key: MissionKey, expected: nat, next: Result<MissionRecord>) returns (r: Result<StoredMission>)
      requires key in rows
      modifies this
      ensures r == SwapIn(old(rows), key, expected, next) && rows == Written(old(rows), key, r)
    {
      if rows[key].revision != expected { return Failure(StaleRevision); }
      if next.Failure? { return Failure(next.code); }
      rows := rows[key := StoredMission(next.value, rows[key].revision + 1)];
      r := Success(rows[key]);
    }
  }
}
