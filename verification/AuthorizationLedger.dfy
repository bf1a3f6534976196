/** The one-shot authorization ledger and the append-only provider-reference journal. */
module AuthorizationLedger {
  import opened Outcomes
  import opened Attempts
  import opened Authorizations

  /** A claim goes through if and only if its approval is new and this attempt was never claimed for this phase, so a
      simulation never stands in the way of the broadcast of the same attempt. */
  lemma ClaimingIsExact(rows: map<string, Authorization>, row: Authorization)
    requires row.state == Claimed
    ensures ClaimIn(rows, row) == Success(row) <==>
      row.approval !in rows && forall a :: a in rows ==> rows[a].phase != row.phase || rows[a].attemptId != row.attemptId
    ensures ClaimIn(rows, row) != Success(row) ==> ClaimIn(rows, row) == Failure(AuthorizationAlreadyConsumed)
  {
    if PhaseTaken(rows, row.phase, row.attemptId) {
      var a :| a in rows && rows[a].phase == row.phase && rows[a].attemptId == row.attemptId;
    }
  }

  /** A claimed authorization becomes final once: rejected or unknown in either phase, eligible only as a simulation,
      accepted only as a broadcast, and never backwards in time. */
  lemma FinalizingIsExact(rows: map<string, Authorization>, approval: string, target: AuthorizationState, at: int)
    requires approval in rows
    ensures FinalizeIn(rows, approval, target, at).Success? <==>
      && rows[approval].state == Claimed && rows[approval].updated <= at
      && (|| target == AuthorizationState.RejectedFinal || target == OutcomeUnknown
          || (target == EligibleForBroadcastApproval && rows[approval].phase == Simulation)
          || (target == Accepted && rows[approval].phase == Broadcast))
    ensures FinalizeIn(rows, approval, target, at).Success? ==>
      && FinalizeIn(rows, approval, target, at) == Success(rows[approval].(state := target, updated := at))
      && FinalizeIn(rows[approval := FinalizeIn(rows, approval, target, at).value], approval, target, at).Failure?
  {
  }

  /** A reference is recorded if and only if it is the one the attempt has, or the attempt has none and nobody has it. */
  lemma ReferringIsExact(rows: map<AttemptId, Reference>, record: Reference)
    ensures CreateReferenceIn(rows, record).Success? <==>
      if record.attemptId in rows then rows[record.attemptId] == record
      else forall id :: id in rows ==> rows[id].namespace != record.namespace || rows[id].reference != record.reference
    ensures CreateReferenceIn(rows, record).Success? ==> CreateReferenceIn(rows, record) == Success(record)
  {
    if exists id :: id in rows && rows[id].namespace == record.namespace && rows[id].reference == record.reference {
      var id :| id in rows && rows[id].namespace == record.namespace && rows[id].reference == record.reference;
    }
  }

  class Ledger {
    var rows: map<string, Authorization>

    constructor ()
      ensures rows == map[]
    {
      rows := map[];
    }

    method Claim(row: Authorization, fault: bool) returns (r: Result<Authorization>)
      modifies this
      ensures fault ==> r == Failure(DatabaseError) && rows == old(rows)
      ensures !fault ==>
        && r == ClaimIn(old(rows), row)
        && rows == if r.Success? then old(rows)[row.approval := r.value] else old(rows)
    {
      if fault { return Failure(DatabaseError); }
      if row.state != Claimed { return Failure(ClaimStateRequired); }
      if row.approval in rows || PhaseTaken(rows, row.phase, row.attemptId) {
        return Failure(AuthorizationAlreadyConsumed);
      }
      rows := rows[row.approval := row];
      r := Success(row);
    }

    method Transition(approval: string, target: AuthorizationState, at: int, fault: bool)
      returns (r: Result<Authorization>)
      modifies this
      ensures fault ==> r == Failure(DatabaseError) && rows == old(rows)
      ensures !fault ==>
        && r == FinalizeIn(old(rows), approval, target, at)
        && rows == if r.Success? then old(rows)[approval := r.value] else old(rows)
    {
      if fault { return Failure(DatabaseError); }
      if approval !in rows { return Failure(AuthorizationNotFound); }
      var current := rows[approval];
      if current.state != Claimed { return Failure(AuthorizationAlreadyFinalized); }
      if target !in FinalStates(current.phase) { return Failure(AuthorizationTransitionNotAllowed); }
      if at < current.updated { return Failure(TimestampBeforeCurrent); }
      rows := rows[approval := current.(state := target, updated := at)];
      r := Success(rows[approval]);
    }

    method Get(approval: string, fault: bool) returns (r: Result<Option<Authorization>>)
      ensures r == if fault then Failure(DatabaseError)
                   else Success(if approval in rows then Some(rows[approval]) else None)
    {
      if fault { return Failure(DatabaseError); }
      r := Success(if approval in rows then Some(rows[approval]) else None);
    }
  }

  class ReferenceStore {
    var rows: map<AttemptId, Reference>

    constructor ()
      ensures rows == map[]
    {
      rows := map[];
    }

    method Create(record: Reference, fault: bool) returns (r: Result<Reference>)
      modifies this
      ensures fault ==> r == Failure(DatabaseError) && rows == old(rows)
      ensures !fault ==>
        && r == CreateReferenceIn(old(rows), record)
        && rows == if r.Success? then old(rows)[record.attemptId := record] else old(rows)
    {
      if fault { return Failure(DatabaseError); }
      if record.attemptId in rows {
        if rows[record.attemptId] == record {
          assert rows == rows[record.attemptId := record];
          return Success(record);
        }
        return Failure(ProviderReferenceConflict);
      }
      if exists id :: id in rows && rows[id].namespace == record.namespace && rows[id].reference == record.reference {
        return Failure(ProviderReferenceConflict);
      }
      rows := rows[record.attemptId := record];
      r := Success(record);
    }

    method Get(id: AttemptId, fault: bool) returns (r: Result<Option<Reference>>)
      ensures r == if fault then Failure(DatabaseError)
                   else Success(if id in rows then Some(rows[id]) else None)
    {
      if fault { return Failure(DatabaseError); }
      r := Success(if id in rows then Some(rows[id]) else None);
    }
  }
}
