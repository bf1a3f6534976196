/** The execution-attempt journal: one row per effect, moved only by compare-and-swap. */
module AttemptStore {
  import opened Outcomes
  import opened Attempts

  type AttemptRows = map<AttemptId, StoredAttempt>

  predicate EffectTaken(rows: AttemptRows, record: Attempt) {
    exists id :: id in rows && rows[id].record.plan.effectId == record.plan.effectId
  }

  function CreateIn(rows: AttemptRows, record: Attempt): Result<StoredAttempt> {
    if record.state != Prepared then Failure(InvalidInitialAttempt)
    else if record.Id() in rows then
      if rows[record.Id()].record.plan == record.plan then Success(rows[record.Id()])
      else Failure(ExecutionAttemptConflict)
    else if EffectTaken(rows, record) then Failure(ExecutionAttemptConflict)
    else Success(StoredAttempt(record, 1))
  }

  function MoveIn(rows: AttemptRows, id: AttemptId, expected: nat, target: AttemptState, at: int)
    : Result<StoredAttempt>
  {
    if id !in rows then Failure(AttemptNotFound)
    else if rows[id].revision != expected then Failure(StaleRevision)
    else
      match TransitionAttempt(rows[id].record, target, at)
      case Failure(code) => Failure(code)
      case Success(record) => Success(StoredAttempt(record, expected + 1))
  }

  function Written(rows: AttemptRows, id: AttemptId, r: Result<StoredAttempt>): AttemptRows {
    if r.Success? then rows[id := r.value] else rows
  }

  /** Attempts a restart still has to look at. */
  function RecoveryCandidates(rows: AttemptRows): set<AttemptId> {
    set id | id in rows && rows[id].record.state in {Prepared, InFlight, ProviderAcknowledged, ExecutionUnknown}
  }

  /** They are exactly the attempts that still have a transition left. */
  lemma CandidatesAreUnfinished(rows: AttemptRows, id: AttemptId)
    ensures id in RecoveryCandidates(rows) <==> id in rows && AttemptTargets(rows[id].record.state) != {}
  {
    if id in rows { TransitionsClimb(rows[id].record.state, rows[id].record.state); }
  }

  class Store {
    var rows: AttemptRows

    constructor ()
      ensures rows == map[]
    {
      rows := map[];
    }

    method Create(record: Attempt, fault: bool) returns (r: Result<StoredAttempt>)
      modifies this
      ensures fault ==> r == Failure(DatabaseError) && rows == old(rows)
      ensures !fault ==> r == CreateIn(old(rows), record) && rows == Written(old(rows), record.Id(), r)
    {
      if fault { return Failure(DatabaseError); }
      if record.state != Prepared { return Failure(InvalidInitialAttempt); }
      var id := record.Id();
      if id in rows {
        if rows[id].record.plan == record.plan {
          assert rows == rows[id := rows[id]];
          return Success(rows[id]);
        }
        return Failure(ExecutionAttemptConflict);
      }
      if EffectTaken(rows, record) { return Failure(ExecutionAttemptConflict); }
      rows := rows[id := StoredAttempt(record, 1)];
      r := Success(rows[id]);
    }

    method Get(id: AttemptId, fault: bool) returns (r: Result<Option<StoredAttempt>>)
      ensures r == if fault then Failure(DatabaseError)
                   else Success(if id in rows then Some(rows[id]) else None)
    {
      if fault { return Failure(DatabaseError); }
      r := Success(if id in rows then Some(rows[id]) else None);
    }

    method ListRecoveryCandidates(fault: bool) returns (r: Result<set<AttemptId>>)
      ensures r == if fault then Failure(DatabaseError) else Success(RecoveryCandidates(rows))
    {
      if fault { return Failure(DatabaseError); }
      r := Success(RecoveryCandidates(rows));
    }

    method Transition(id: AttemptId, expected: nat, target: AttemptState, at: int, fault: bool)
      returns (r: Result<StoredAttempt>)
      modifies this
      ensures fault ==> r == Failure(DatabaseError) && rows == old(rows)
      ensures !fault ==> r == MoveIn(old(rows), id, expected, target, at) && rows == Written(old(rows), id, r)
    {
      if fault { return Failure(DatabaseError); }
      if id !in rows { return Failure(AttemptNotFound); }
      if rows[id].revision != expected { return Failure(StaleRevision); }
      var next := TransitionAttempt(rows[id].record, target, at);
      if next.Failure? { return Failure(next.code); }
      rows := rows[id := StoredAttempt(next.value, rows[id].revision + 1)];
      r := Success(rows[id]);
    }
  }
}
