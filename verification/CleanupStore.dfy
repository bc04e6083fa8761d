/**
 The durable table of deletion jobs (src/infrastructure/state_store.py).

 Each repository method is one atomic transaction.  Every transaction touches at
 most one row, so the table operations are stated row by row; the class below
 performs them on its own map.  Clocks are arguments.
 */
module CleanupStore {
  import opened Common

  type Time = real

  /** A lease id is an opaque token; only equality and freshness matter. */
  type Lease = nat

  datatype JobState = Pending | Running | Completed | Failed | Retained | Cancelled

  datatype Status = NotObserved | VerifiedAbsent | RetainedByRequest | RetainedAfterClaim | OtherStatus(name: string)

  datatype Code = RetainAfterClaim | CancelledByRequest | ContextChanged | OtherCode(name: string)

  datatype Key = Key(scope: string, resource: string)

  datatype Row = Row(
    job: string,
    key: Key,
    state: JobState,
    dueAt: Time,
    createdAt: Time,
    updatedAt: Time,
    expiresAt: Time,
    attempts: nat,
    status: Status,
    error: Option<Code>,
    version: nat,
    lease: Option<Lease>,
    leaseUntil: Option<Time>)

  type Table = map<Key, Row>

  /** The keyword arguments of `update`; `lease_id` there is a guard, never a change. */
  datatype Changes = Changes(
    state: Change<JobState> := Keep,
    dueAt: Change<Time> := Keep,
    attempts: Change<nat> := Keep,
    status: Change<Status> := Keep,
    error: Change<Option<Code>> := Keep,
    leaseUntil: Change<Option<Time>> := Keep,
    expiresAt: Change<Time> := Keep)

  datatype StoreError = CompletionRequiresAbsence | JobIdTaken

  /** Python's `lease_until or 0`. */
  function Deadline(row: Row): Time {
    row.leaseUntil.Or(0.0)
  }

  predicate Marked(row: Row) {
    row.state == Running && row.error == Some(RetainAfterClaim)
  }

  predicate Withdrawn(row: Row) {
    row.state == Completed || row.state == Retained || row.state == Cancelled
  }

  /** What the transaction checks before an update is written. */
  predicate Admits(row: Row, expected: Option<nat>, lease: Option<Lease>, changes: Changes) {
    && (expected.Some? ==> row.version == expected.value)
    && (lease.Some? ==> row.lease == lease && row.state == Running)
    && !(row.state == Completed && changes.state.Over(Completed) != Completed)
  }

  function Rewritten(row: Row, changes: Changes, clock: Time): Row {
    var updated := row.(
      state := changes.state.Over(row.state),
      dueAt := changes.dueAt.Over(row.dueAt),
      attempts := changes.attempts.Over(row.attempts),
      status := changes.status.Over(row.status),
      error := changes.error.Over(row.error),
      leaseUntil := changes.leaseUntil.Over(row.leaseUntil),
      expiresAt := changes.expiresAt.Over(row.expiresAt),
      updatedAt := clock,
      version := row.version + 1);
    if updated.state == Running then updated else updated.(lease := None, leaseUntil := None)
  }

  /** Field by field: what a change names is taken from it, everything else stays; only a running row has a lease. */
  predicate Carries(row: Row, updated: Row, changes: Changes, clock: Time) {
    && updated.job == row.job && updated.key == row.key && updated.createdAt == row.createdAt
    && updated.updatedAt == clock && updated.version == row.version + 1
    && (match changes.state case Set(v) => updated.state == v case Keep => updated.state == row.state)
    && (match changes.dueAt case Set(v) => updated.dueAt == v case Keep => updated.dueAt == row.dueAt)
    && (match changes.attempts case Set(v) => updated.attempts == v case Keep => updated.attempts == row.attempts)
    && (match changes.status case Set(v) => updated.status == v case Keep => updated.status == row.status)
    && (match changes.error case Set(v) => updated.error == v case Keep => updated.error == row.error)
    && (match changes.expiresAt case Set(v) => updated.expiresAt == v case Keep => updated.expiresAt == row.expiresAt)
    && if updated.state == Running
       then updated.lease == row.lease
            && (match changes.leaseUntil case Set(v) => updated.leaseUntil == v case Keep => updated.leaseUntil == row.leaseUntil)
       else updated.lease.None? && updated.leaseUntil.None?
  }

  /** A renewal moves the deadline and nothing else that matters. */
  predicate Renewed(row: Row, renewed: Row, until: Time) {
    && renewed.leaseUntil == Some(until) && renewed.lease == row.lease && renewed.state == row.state
    && renewed.dueAt == row.dueAt && renewed.attempts == row.attempts && renewed.error == row.error
    && renewed.status == row.status && renewed.expiresAt == row.expiresAt && renewed.key == row.key && renewed.job == row.job
  }

  /** What a granted claim leaves: a running row under the new lease, one attempt more, all else as it was. */
  predicate Grasped(row: Row, claimed: Row, lease: Lease, until: Time, now: Time) {
    && claimed.job == row.job && claimed.key == row.key && claimed.createdAt == row.createdAt
    && claimed.dueAt == row.dueAt && claimed.status == row.status && claimed.error == row.error && claimed.expiresAt == row.expiresAt
    && claimed.state == Running && claimed.lease == Some(lease) && claimed.leaseUntil == Some(until)
    && claimed.attempts == row.attempts + 1 && claimed.version == row.version + 1 && claimed.updatedAt == now
  }

  function UpdateRow(row: Row, expected: Option<nat>, lease: Option<Lease>, changes: Changes, clock: Time): Option<Row> {
    if Admits(row, expected, lease, changes) then Some(Rewritten(row, changes, clock)) else None
  }

  predicate Claimable(row: Row, now: Time) {
    || ((row.state == Pending || row.state == Failed) && row.dueAt <= now)
    || (row.state == Running && Deadline(row) <= now)
  }

  lemma UpdateCarries(row: Row, expected: Option<nat>, lease: Option<Lease>, changes: Changes, clock: Time)
    ensures var updated := UpdateRow(row, expected, lease, changes, clock);
            updated.Some? ==> Carries(row, updated.value, changes, clock)
  {
  }

  function ClaimRow(row: Row, expected: nat, lease: Lease, until: Time, now: Time): Option<Row> {
    if row.version == expected && Claimable(row, now) && now < until then
      Some(row.(state := Running, attempts := row.attempts + 1, version := row.version + 1, updatedAt := now,
           lease := Some(lease), leaseUntil := Some(until)))
    else
      None
  }

  lemma ClaimGrasps(row: Row, expected: nat, lease: Lease, until: Time, now: Time)
    ensures var claimed := ClaimRow(row, expected, lease, until, now);
            claimed.Some? ==> Grasped(row, claimed.value, lease, until, now)
  {
  }

  /** The shape every row keeps under the calls the manager makes. */
  predicate WellFormed(row: Row) {
    && (row.state == Running <==> row.lease.Some?)
    && (row.lease.Some? <==> row.leaseUntil.Some?)
    && (row.state == Completed ==> row.status == VerifiedAbsent)
  }

  predicate JobIdUsed(table: Table, job: string) {
    exists k :: k in table && table[k].job == job
  }

  /**
   Arbitrary `update` calls do not respect withdrawal: the repository alone would
   turn a cancelled row back into pending work.  The manager's own calls are what
   keeps it withdrawn (see CleanupSafety.WithdrawnForever).
   */
  lemma RepositoryAloneRevivesCancelled(row: Row, clock: Time)
    requires row.state == Cancelled
    ensures var revived := UpdateRow(row, None, None, Changes(state := Set(Pending)), clock);
            revived.Some? && revived.value.state == Pending
            && Claimable(revived.value, row.dueAt)
  {
    assert Rewritten(row, Changes(state := Set(Pending)), clock).dueAt == row.dueAt;
  }

  /** Nor is the read-back evidence of a completed row protected against a bare status change. */
  lemma RepositoryAloneDropsEvidence(row: Row, clock: Time)
    requires row.state == Completed && WellFormed(row)
    ensures var edited := UpdateRow(row, None, None, Changes(status := Set(NotObserved)), clock);
            edited.Some? && edited.value.state == Completed && !WellFormed(edited.value)
  {
    assert Rewritten(row, Changes(status := Set(NotObserved)), clock).status == NotObserved;
  }

  /** `CleanupRepository`: the table held in place, one method per transaction. */
  class CleanupRepository {
    var rows: Table

    constructor ()
      ensures rows == map[]
    {
      rows := map[];
    }

    /** INSERT OR IGNORE followed by a read: an existing job wins. */
    method Upsert(record: Row) returns (r: Result<Row, StoreError>)
      modifies this
      ensures r.Ok? ==> record.key in rows && r.value == rows[record.key]
      ensures record.key in old(rows) && !(record.state == Completed && record.status != VerifiedAbsent)
              ==> r == Ok(old(rows)[record.key])
      ensures record.state == Completed && record.status != VerifiedAbsent ==> r == Err(CompletionRequiresAbsence)
      ensures rows == if r.Ok? && record.key !in old(rows) then old(rows)[record.key := record] else old(rows)
      ensures r == Err(JobIdTaken) ==> record.key !in old(rows) && JobIdUsed(old(rows), record.job)
      ensures r.Ok? && record.key !in old(rows) ==> !JobIdUsed(old(rows), record.job)
    {
      if record.state == Completed && record.status != VerifiedAbsent {
        return Err(CompletionRequiresAbsence);
      }
      if record.key !in rows && !JobIdUsed(rows, record.job) {
        rows := rows[record.key := record];
      }
      if record.key !in rows {
        return Err(JobIdTaken);
      }
      return Ok(rows[record.key]);
    }

    method Get(key: Key) returns (r: Option<Row>)
      ensures r == if key in rows then Some(rows[key]) else None
    {
      if key in rows {
        return Some(rows[key]);
      }
      return None;
    }

    method Update(key: Key, expected: Option<nat>, lease: Option<Lease>, changes: Changes, clock: Time)
      returns (r: Result<Option<Row>, StoreError>)
      modifies this
      ensures r.Err? <==> changes.state == Set(Completed) && changes.status != Set(VerifiedAbsent)
      ensures r.Ok? ==> r.value == if key in old(rows) then UpdateRow(old(rows)[key], expected, lease, changes, clock)
                                   else None
      ensures r.Ok? && r.value.Some? ==> key in old(rows) && Carries(old(rows)[key], r.value.value, changes, clock)
      ensures r.Ok? && key in old(rows) ==>
                var row := old(rows)[key];
                (r.value.None? <==> || (expected.Some? && row.version != expected.value)
                                    || (lease.Some? && (row.lease != lease || row.state != Running))
                                    || (row.state == Completed && changes.state.Set? && changes.state.value != Completed))
      ensures rows == if r.Ok? && r.value.Some? then old(rows)[key := r.value.value] else old(rows)
    {
      if changes.state == Set(Completed) && changes.status != Set(VerifiedAbsent) {
        return Err(CompletionRequiresAbsence);
      }
      if key !in rows {
        return Ok(None);
      }
      var row := rows[key];
      if expected.Some? && row.version != expected.value {
        return Ok(None);
      }
      if lease.Some? && (row.lease != lease || row.state != Running) {
        return Ok(None);
      }
      if row.state == Completed && changes.state.Over(Completed) != Completed {
        return Ok(None);
      }
      var updated := row.(
        state := changes.state.Over(row.state), dueAt := changes.dueAt.Over(row.dueAt),
        attempts := changes.attempts.Over(row.attempts), status := changes.status.Over(row.status),
        error := changes.error.Over(row.error), leaseUntil := changes.leaseUntil.Over(row.leaseUntil),
        expiresAt := changes.expiresAt.Over(row.expiresAt));
      updated := updated.(updatedAt := clock, version := row.version + 1);
      if updated.state != Running {
        updated := updated.(lease := None, leaseUntil := None);
      }
      rows := rows[key := updated];
      return Ok(Some(updated));
    }

    method Claim(key: Key, expected: nat, lease: Lease, until: Time, now: Time) returns (r: Option<Row>)
      modifies this
      ensures r == if key in old(rows) then ClaimRow(old(rows)[key], expected, lease, until, now) else None
      ensures r.Some? ==> key in old(rows) && Grasped(old(rows)[key], r.value, lease, until, now)
      ensures key in old(rows) ==>
                var row := old(rows)[key];
                (r.Some? <==> && row.version == expected && now < until
                              && (((row.state == Pending || row.state == Failed) && row.dueAt <= now)
                                  || (row.state == Running && row.leaseUntil.Or(0.0) <= now)))
      ensures rows == if r.Some? then old(rows)[key := r.value] else old(rows)
    {
      if key !in rows || rows[key].version != expected {
        return None;
      }
      var row := rows[key];
      var eligible := (row.state == Pending || row.state == Failed) && row.dueAt <= now;
      eligible := eligible || (row.state == Running && Deadline(row) <= now);
      if !eligible || until <= now {
        return None;
      }
      var current := row.(state := Running, attempts := row.attempts + 1);
      current := current.(version := row.version + 1, updatedAt := now);
      current := current.(lease := Some(lease), leaseUntil := Some(until));
      rows := rows[key := current];
      return Some(current);
    }

    method Renew(key: Key, lease: Lease, until: Time, clock: Time) returns (r: Option<Row>)
      modifies this
      ensures r == if key in old(rows)
                   then UpdateRow(old(rows)[key], None, Some(lease), Changes(leaseUntil := Set(Some(until))), clock)
                   else None
      ensures r.Some? <==> key in old(rows) && old(rows)[key].state == Running && old(rows)[key].lease == Some(lease)
      ensures r.Some? ==> Renewed(old(rows)[key], r.value, until)
      ensures rows == if r.Some? then old(rows)[key := r.value] else old(rows)
    {
      var updated := Update(key, None, Some(lease), Changes(leaseUntil := Set(Some(until))), clock);
      r := updated.value;
    }
  }
}
