/**
 The table of long-running operations (`OperationRepository` in
 src/infrastructure/state_store.py): idempotent creation, fenced updates and leases.

 Columns that no transaction looks at are one field, `content`.  The unique index on
 (scope, idempotency key) is part of the table.
 */
module OperationStore {
  import opened Common

  type Time = real
  type Lease = nat

  datatype OpState =
    | Accepted | Queued | Running | Completed | Partial | TimedOut
    | CancelRequested | Cancelled | Expired | Failed | Unavailable

  datatype IndexKey = IndexKey(scope: string, key: string)

  datatype Operation = Operation(
    id: string,
    scope: string,
    kind: string,
    state: OpState,
    updatedAt: Time,
    expiresAt: Time,
    attempts: nat,
    content: string,
    version: nat,
    idempotencyKey: Option<string>,
    lease: Option<Lease>,
    leaseUntil: Option<Time>)

  datatype Table = Table(rows: map<string, Operation>, byKey: map<IndexKey, string>)

  datatype Changes = Changes(
    state: Change<OpState> := Keep,
    attempts: Change<nat> := Keep,
    content: Change<string> := Keep)

  datatype OpError = KeyOfAnotherKind | TerminalState | Duplicate

  predicate Terminal(state: OpState) {
    state == Completed || state == Cancelled || state == Expired
  }

  /** The states a requested cancellation may turn into; any other wish leaves it requested. */
  predicate AfterCancelRequest(state: OpState) {
    || state == CancelRequested || state == Cancelled || state == Completed
    || state == Partial || state == Failed || state == TimedOut
  }

  function Deadline(row: Operation): Time {
    row.leaseUntil.Or(0.0)
  }

  function Granted(current: OpState, desired: OpState): OpState {
    if current == CancelRequested && !AfterCancelRequest(desired) then CancelRequested else desired
  }

  predicate Admits(row: Operation, expected: Option<nat>, lease: Option<Lease>) {
    (expected.Some? ==> row.version == expected.value) && (lease.Some? ==> row.lease == lease)
  }

  function UpdateRow(row: Operation, expected: Option<nat>, lease: Option<Lease>, changes: Changes, clock: Time)
    : Result<Option<Operation>, OpError>
  {
    if !Admits(row, expected, lease) then Ok(None)
    else if changes.state.Set? && Terminal(row.state) && changes.state.value != row.state then Err(TerminalState)
    else
      Ok(Some(row.(
        state := if changes.state.Set? then Granted(row.state, changes.state.value) else row.state,
        attempts := changes.attempts.Over(row.attempts),
        content := changes.content.Over(row.content),
        updatedAt := clock,
        version := row.version + 1)))
  }

  predicate Claimable(row: Operation, now: Time) {
    !Terminal(row.state) && row.expiresAt > now && Deadline(row) <= now
  }

  function ClaimRow(row: Operation, lease: Lease, until: Time, now: Time): Option<Operation> {
    if Claimable(row, now) && until > now
    then Some(row.(lease := Some(lease), leaseUntil := Some(until), version := row.version + 1, updatedAt := now))
    else None
  }

  function RenewRow(row: Operation, lease: Lease, until: Time): Option<Operation> {
    if row.lease == Some(lease) then Some(row.(leaseUntil := Some(until))) else None
  }

  function ReleaseRow(row: Operation, lease: Lease): Option<Operation> {
    if row.lease == Some(lease) then Some(row.(lease := None, leaseUntil := None)) else None
  }

  predicate Keyed(record: Operation) {
    record.idempotencyKey.Some? && record.idempotencyKey.value != ""
  }

  function IndexOf(record: Operation): IndexKey
    requires record.idempotencyKey.Some?
  {
    IndexKey(record.scope, record.idempotencyKey.value)
  }

  /** Create once: a known key answers with its operation, and an insert may not collide. */
  function CreateIn(t: Table, record: Operation): (Table, Result<(Operation, bool), OpError>) {
    if Keyed(record) && IndexOf(record) in t.byKey && t.byKey[IndexOf(record)] in t.rows then
      var existing := t.rows[t.byKey[IndexOf(record)]];
      (t, if existing.kind != record.kind then Err(KeyOfAnotherKind) else Ok((existing, false)))
    else if record.id in t.rows || (record.idempotencyKey.Some? && IndexOf(record) in t.byKey) then (t, Err(Duplicate))
    else (Inserted(t, record), Ok((record, true)))
  }

  function Inserted(t: Table, record: Operation): Table {
    Table(t.rows[record.id := record],
          if record.idempotencyKey.Some? then t.byKey[IndexOf(record) := record.id] else t.byKey)
  }

  /** A row is visible only within its scope. */
  predicate Visible(t: Table, scope: string, id: string) {
    id in t.rows && t.rows[id].scope == scope
  }

  function WithRow(t: Table, row: Operation): Table {
    t.(rows := t.rows[row.id := row])
  }

  /** Everything but what a transaction is about stays. */
  predicate SameOperation(o: Operation, n: Operation) {
    && n.id == o.id && n.scope == o.scope && n.kind == o.kind && n.expiresAt == o.expiresAt && n.idempotencyKey == o.idempotencyKey
  }

  /** The state an update leaves: the one asked for, unless a requested cancellation has to come to its end first. */
  predicate StateAfter(o: OpState, asked: Change<OpState>, n: OpState) {
    match asked
    case Keep => n == o
    case Set(desired) =>
      if o == CancelRequested && desired in {Accepted, Queued, Running, Expired, Unavailable} then n == CancelRequested else n == desired
  }

  // ---------------------------------------------------------------- the class

  class OperationRepository {
    var rows: map<string, Operation>
    var byKey: map<IndexKey, string>

    ghost function State(): Table
      reads this
    {
      Table(rows, byKey)
    }

    constructor ()
      ensures State() == Table(map[], map[])
    {
      rows, byKey := map[], map[];
    }

    method Create(record: Operation) returns (r: Result<(Operation, bool), OpError>)
      modifies this
      ensures (State(), r) == CreateIn(old(State()), record)
      ensures r.Ok? && r.value.1 ==> r.value.0 == record && rows == old(rows)[record.id := record] && record.id !in old(rows)
      ensures r.Ok? && !r.value.1 ==>
                && rows == old(rows) && record.idempotencyKey.Some? && record.idempotencyKey.value != ""
                && IndexKey(record.scope, record.idempotencyKey.value) in old(byKey)
                && old(byKey)[IndexKey(record.scope, record.idempotencyKey.value)] in rows && r.value.0.kind == record.kind
                && r.value.0 == rows[old(byKey)[IndexKey(record.scope, record.idempotencyKey.value)]]
      ensures r.Err? ==> rows == old(rows) && byKey == old(byKey)
      ensures record.idempotencyKey.None? ==> (r.Ok? <==> record.id !in old(rows))
    {
      if record.idempotencyKey.Some? && record.idempotencyKey.value != "" {
        var index := IndexKey(record.scope, record.idempotencyKey.value);
        if index in byKey && byKey[index] in rows {
          var existing := rows[byKey[index]];
          if existing.kind != record.kind {
            return Err(KeyOfAnotherKind);
          }
          return Ok((existing, false));
        }
      }
      if record.id in rows {
        return Err(Duplicate);
      }
      if record.idempotencyKey.Some? {
        var index := IndexKey(record.scope, record.idempotencyKey.value);
        if index in byKey {
          return Err(Duplicate);
        }
        byKey := byKey[index := record.id];
      }
      rows := rows[record.id := record];
      return Ok((record, true));
    }

    method Update(scope: string, id: string, expected: Option<nat>, lease: Option<Lease>, changes: Changes, clock: Time)
      returns (r: Result<Option<Operation>, OpError>)
      modifies this`rows
      ensures r == if Visible(old(State()), scope, id) then UpdateRow(old(rows)[id], expected, lease, changes, clock) else Ok(None)
      ensures rows == if r.Ok? && r.value.Some? then old(rows)[id := r.value.value] else old(rows)
      ensures id in old(rows) && old(rows)[id].scope == scope ==>
                var row := old(rows)[id];
                var refused := (expected.Some? && row.version != expected.value) || (lease.Some? && row.lease != lease);
                && (refused ==> r == Ok(None))
                && (!refused ==>
                      (r == Err(TerminalState) <==>
                         row.state in {Completed, Cancelled, Expired} && changes.state.Set? && changes.state.value != row.state)
                      && (r.Ok? ==> r.value.Some?))
                && (r.Ok? && r.value.Some? ==>
                      var n := r.value.value;
                      && SameOperation(row, n) && n.version == row.version + 1 && n.updatedAt == clock
                      && n.lease == row.lease && n.leaseUntil == row.leaseUntil && StateAfter(row.state, changes.state, n.state)
                      && (match changes.attempts case Set(v) => n.attempts == v case Keep => n.attempts == row.attempts)
                      && (match changes.content case Set(v) => n.content == v case Keep => n.content == row.content))
    {
      if id !in rows || rows[id].scope != scope {
        return Ok(None);
      }
      var row := rows[id];
      if (expected.Some? && row.version != expected.value) || (lease.Some? && row.lease != lease) {
        return Ok(None);
      }
      if changes.state.Set? {
        var desired := changes.state.value;
        if Terminal(row.state) && desired != row.state {
          return Err(TerminalState);
        }
        if row.state == CancelRequested && !AfterCancelRequest(desired) {
          desired := CancelRequested;
        }
        row := row.(state := desired);
      }
      row := row.(attempts := changes.attempts.Over(row.attempts), content := changes.content.Over(row.content));
      row := row.(updatedAt := clock, version := row.version + 1);
      rows := rows[id := row];
      return Ok(Some(row));
    }

    method Claim(scope: string, id: string, lease: Lease, until: Time, now: Time) returns (r: Option<Operation>)
      modifies this`rows
      ensures r == if Visible(old(State()), scope, id) then ClaimRow(old(rows)[id], lease, until, now) else None
      ensures rows == if r.Some? then old(rows)[id := r.value] else old(rows)
      ensures r.Some? <==>
                && id in old(rows) && old(rows)[id].scope == scope && !(old(rows)[id].state in {Completed, Cancelled, Expired})
                && now < old(rows)[id].expiresAt && old(rows)[id].leaseUntil.Or(0.0) <= now < until
      ensures r.Some? ==>
                && SameOperation(old(rows)[id], r.value) && r.value.state == old(rows)[id].state && r.value.attempts == old(rows)[id].attempts
                && r.value.lease == Some(lease) && r.value.leaseUntil == Some(until) && r.value.version == old(rows)[id].version + 1
                && r.value.content == old(rows)[id].content && r.value.updatedAt == now
    {
      if id !in rows || rows[id].scope != scope {
        return None;
      }
      var row := rows[id];
      if Terminal(row.state) || row.expiresAt <= now {
        return None;
      }
      if Deadline(row) > now || until <= now {
        return None;
      }
      row := row.(lease := Some(lease), leaseUntil := Some(until));
      row := row.(version := row.version + 1, updatedAt := now);
      rows := rows[id := row];
      return Some(row);
    }

    method Renew(scope: string, id: string, lease: Lease, until: Time) returns (renewed: bool)
      modifies this`rows
      ensures renewed <==> Visible(old(State()), scope, id) && RenewRow(old(rows)[id], lease, until).Some?
      ensures rows == if renewed then old(rows)[id := RenewRow(old(rows)[id], lease, until).value] else old(rows)
      ensures renewed <==> id in old(rows) && old(rows)[id].scope == scope && old(rows)[id].lease == Some(lease)
      ensures renewed ==> rows == old(rows)[id := old(rows)[id].(leaseUntil := Some(until))]
    {
      renewed := id in rows && rows[id].scope == scope && rows[id].lease == Some(lease);
      if renewed {
        rows := rows[id := rows[id].(leaseUntil := Some(until))];
      }
    }

    method Release(scope: string, id: string, lease: Lease)
      modifies this`rows
      ensures rows == if Visible(old(State()), scope, id) && ReleaseRow(old(rows)[id], lease).Some?
                      then old(rows)[id := ReleaseRow(old(rows)[id], lease).value] else old(rows)
      ensures if id in old(rows) && old(rows)[id].scope == scope && old(rows)[id].lease == Some(lease)
              then rows == old(rows)[id := old(rows)[id].(lease := None, leaseUntil := None)] else rows == old(rows)
    {
      if id in rows && rows[id].scope == scope && rows[id].lease == Some(lease) {
        rows := rows[id := rows[id].(lease := None, leaseUntil := None)];
      }
    }
  }

  // ---------------------------------------------------------------- runs

  /** `issued` remembers which operation each granted lease id was drawn for. */
  datatype Sys = Sys(clock: Time, table: Table, issued: map<Lease, string>)

  datatype Event =
    | Tick(elapsed: Time)
    | Create(record: Operation)
    | Update(scope: string, id: string, expected: Option<nat>, holder: Option<Lease>, changes: Changes)
    | Claim(scope: string, id: string, drawn: Lease, until: Time, now: Time)
    | Renew(scope: string, id: string, lease: Lease, until: Time)
    | Release(scope: string, id: string, lease: Lease)

  function Written(s: Sys, row: Option<Operation>): Sys {
    if row.Some? then s.(table := WithRow(s.table, row.value)) else s
  }

  /** New records carry no lease; lease ids are fresh and `now` was read before the transaction. */
  function Step(s: Sys, e: Event): Sys {
    match e
    case Tick(elapsed) => if elapsed >= 0.0 then s.(clock := s.clock + elapsed) else s
    case Create(record) => if record.lease.None? && record.leaseUntil.None? then s.(table := CreateIn(s.table, record).0) else s
    case Update(scope, id, expected, holder, changes) =>
      if !Visible(s.table, scope, id) then s
      else
        var r := UpdateRow(s.table.rows[id], expected, holder, changes, s.clock);
        if r.Ok? then Written(s, r.value) else s
    case Claim(scope, id, drawn, until, now) =>
      if !Visible(s.table, scope, id) || drawn in s.issued || now > s.clock then s
      else
        var claimed := ClaimRow(s.table.rows[id], drawn, until, now);
        if claimed.Some? then Written(s, claimed).(issued := s.issued[drawn := id]) else s
    case Renew(scope, id, lease, until) =>
      if Visible(s.table, scope, id) then Written(s, RenewRow(s.table.rows[id], lease, until)) else s
    case Release(scope, id, lease) =>
      if Visible(s.table, scope, id) then Written(s, ReleaseRow(s.table.rows[id], lease)) else s
  }

  function Run(s: Sys, events: seq<Event>): Sys
    decreases |events|
  {
    if events == [] then s else Step(Run(s, events[..|events| - 1]), events[|events| - 1])
  }

  predicate Initial(s: Sys) {
    s.table == Table(map[], map[]) && s.issued == map[]
  }

  ghost predicate Reachable(s: Sys) {
    exists start, events :: Initial(start) && s == Run(start, events)
  }

  // ---------------------------------------------------------------- what runs keep

  ghost predicate RowOk(s: Sys, id: string) {
    id in s.table.rows ==>
      var row := s.table.rows[id];
      && row.id == id
      && (row.lease.Some? <==> row.leaseUntil.Some?)
      && (row.lease.Some? ==> row.lease.value in s.issued && s.issued[row.lease.value] == id)
      && (row.idempotencyKey.Some? ==> IndexOf(row) in s.table.byKey && s.table.byKey[IndexOf(row)] == id)
  }

  ghost predicate Inv(s: Sys) {
    && (forall id :: RowOk(s, id))
    && (forall index :: index in s.table.byKey ==> s.table.byKey[index] in s.table.rows)
  }

  /** How one operation may develop; lease renewal and release leave the version alone. */
  ghost predicate Advances(o: Operation, n: Operation) {
    && n.id == o.id && n.scope == o.scope && n.kind == o.kind && n.idempotencyKey == o.idempotencyKey
    && o.version <= n.version
    && (o.version == n.version ==> n == o.(lease := n.lease, leaseUntil := n.leaseUntil))
    && (Terminal(o.state) ==> n.state == o.state)
  }

  ghost predicate RowAdvances(s: Sys, t: Sys, id: string) {
    id in s.table.rows ==>
      && id in t.table.rows && Advances(s.table.rows[id], t.table.rows[id])
      && (t.table.rows[id].lease.Some? ==>
            t.table.rows[id].lease == s.table.rows[id].lease || t.table.rows[id].lease.value !in s.issued)
  }

  ghost predicate Evolves(s: Sys, t: Sys) {
    && s.clock <= t.clock
    && (forall id :: RowAdvances(s, t, id))
    && (forall lease :: lease in s.issued ==> lease in t.issued && t.issued[lease] == s.issued[lease])
  }

  lemma WriteKeeps(s: Sys, row: Operation)
    requires Inv(s) && row.id in s.table.rows && Advances(s.table.rows[row.id], row)
    requires row.lease.Some? <==> row.leaseUntil.Some?
    requires row.lease.Some? ==> row.lease == s.table.rows[row.id].lease
    ensures Inv(Written(s, Some(row))) && Evolves(s, Written(s, Some(row)))
  {
    var t := Written(s, Some(row));
    assert RowOk(s, row.id);
    forall id ensures RowOk(t, id) && RowAdvances(s, t, id) { assert RowOk(s, id); }
  }

  lemma ClaimKeeps(s: Sys, row: Operation, drawn: Lease)
    requires Inv(s) && row.id in s.table.rows && Advances(s.table.rows[row.id], row)
    requires drawn !in s.issued && row.lease == Some(drawn) && row.leaseUntil.Some?
    ensures var t := Written(s, Some(row)).(issued := s.issued[drawn := row.id]); Inv(t) && Evolves(s, t)
  {
    var t := Written(s, Some(row)).(issued := s.issued[drawn := row.id]);
    assert RowOk(s, row.id);
    forall id ensures RowOk(t, id) && RowAdvances(s, t, id) { assert RowOk(s, id); }
  }

  lemma CreateKeeps(s: Sys, record: Operation)
    requires Inv(s) && record.lease.None? && record.leaseUntil.None?
    ensures var t := s.(table := CreateIn(s.table, record).0); Inv(t) && Evolves(s, t)
  {
    var t := s.(table := CreateIn(s.table, record).0);
    forall id ensures RowOk(t, id) && RowAdvances(s, t, id) { assert RowOk(s, id); }
  }

  lemma StepKeeps(s: Sys, e: Event)
    requires Inv(s)
    ensures Inv(Step(s, e)) && Evolves(s, Step(s, e))
  {
    match e
    case Tick(_) => Unchanged(s, Step(s, e));
    case Create(record) =>
      if record.lease.None? && record.leaseUntil.None? { CreateKeeps(s, record); } else { Unchanged(s, s); }
    case Update(scope, id, expected, holder, changes) =>
      Unchanged(s, s);
      if Visible(s.table, scope, id) {
        assert RowOk(s, id);
        var r := UpdateRow(s.table.rows[id], expected, holder, changes, s.clock);
        if r.Ok? && r.value.Some? { WriteKeeps(s, r.value.value); }
      }
    case Claim(scope, id, drawn, until, now) =>
      Unchanged(s, s);
      if Visible(s.table, scope, id) && drawn !in s.issued && now <= s.clock {
        assert RowOk(s, id);
        var claimed := ClaimRow(s.table.rows[id], drawn, until, now);
        if claimed.Some? { ClaimKeeps(s, claimed.value, drawn); }
      }
    case Renew(scope, id, lease, until) =>
      Unchanged(s, s);
      if Visible(s.table, scope, id) {
        assert RowOk(s, id);
        var renewed := RenewRow(s.table.rows[id], lease, until);
        if renewed.Some? { WriteKeeps(s, renewed.value); }
      }
    case Release(scope, id, lease) =>
      Unchanged(s, s);
      if Visible(s.table, scope, id) {
        assert RowOk(s, id);
        var released := ReleaseRow(s.table.rows[id], lease);
        if released.Some? { WriteKeeps(s, released.value); }
      }
  }

  lemma Unchanged(s: Sys, t: Sys)
    requires Inv(s) && t.table == s.table && t.issued == s.issued && s.clock <= t.clock
    ensures Inv(t) && Evolves(s, t)
  {
    forall id ensures RowOk(t, id) && RowAdvances(s, t, id) { assert RowOk(s, id); }
  }

  lemma EvolvesTrans(s: Sys, t: Sys, u: Sys)
    requires Evolves(s, t) && Evolves(t, u)
    ensures Evolves(s, u)
  {
    forall id ensures RowAdvances(s, u, id) { assert RowAdvances(s, t, id) && RowAdvances(t, u, id); }
  }

  lemma {:induction false} RunKeeps(s: Sys, events: seq<Event>)
    requires Inv(s)
    ensures Inv(Run(s, events)) && Evolves(s, Run(s, events))
    decreases |events|
  {
    if events == [] {
      Unchanged(s, s);
    } else {
      var t := Run(s, events[..|events| - 1]);
      RunKeeps(s, events[..|events| - 1]);
      StepKeeps(t, events[|events| - 1]);
      EvolvesTrans(s, t, Run(s, events));
    }
  }

  // ---------------------------------------------------------------- theorems

  lemma ReachableHolds(s: Sys)
    requires Reachable(s)
    ensures Inv(s)
  {
    var start, events :| Initial(start) && s == Run(start, events);
    RunKeeps(start, events);
  }

  /** A finished operation keeps its state whatever any caller asks, over any run. */
  lemma TerminalForever(s: Sys, events: seq<Event>, id: string)
    requires Reachable(s) && id in s.table.rows && Terminal(s.table.rows[id].state)
    ensures var t := Run(s, events); id in t.table.rows && t.table.rows[id].state == s.table.rows[id].state
  {
    ReachableHolds(s);
    RunKeeps(s, events);
    assert RowAdvances(s, Run(s, events), id);
  }

  /** A requested cancellation stays requested until the operation is cancelled, or over in some other way. */
  lemma CancelRequestHolds(s: Sys, e: Event, id: string)
    requires Reachable(s) && id in s.table.rows && s.table.rows[id].state == CancelRequested
    ensures id in Step(s, e).table.rows
    ensures Step(s, e).table.rows[id].state in {CancelRequested, Cancelled, Completed, Partial, Failed, TimedOut}
  {
    ReachableHolds(s);
    assert RowOk(s, id);
    StepKeeps(s, e);
    assert RowAdvances(s, Step(s, e), id);
    if !e.Tick? && !e.Create? && e.id in s.table.rows { assert RowOk(s, e.id); }
  }

  /** The claim transaction that grants operation `id`. */
  predicate Grants(s: Sys, e: Event, id: string) {
    && e.Claim? && e.id == id && Visible(s.table, e.scope, id)
    && e.drawn !in s.issued && e.now <= s.clock
    && !Terminal(s.table.rows[id].state) && e.now < s.table.rows[id].expiresAt
    && Deadline(s.table.rows[id]) <= e.now < e.until
  }

  /** An operation passes to another lease exactly by a claim after the previous lease ran out, to a fresh id. */
  lemma LeaseExclusivity(s: Sys, e: Event, id: string)
    requires Reachable(s) && id in s.table.rows
    ensures var t := Step(s, e);
            && id in t.table.rows
            && (t.table.rows[id].lease.Some? && t.table.rows[id].lease != s.table.rows[id].lease <==> Grants(s, e, id))
            && (Grants(s, e, id) ==>
                  && t.table.rows[id].lease == Some(e.drawn) && t.table.rows[id].leaseUntil == Some(e.until)
                  && t.table.rows[id].state == s.table.rows[id].state
                  && t.table.rows[id].version == s.table.rows[id].version + 1)
  {
    ReachableHolds(s);
    assert RowOk(s, id);
    StepKeeps(s, e);
    assert RowAdvances(s, Step(s, e), id);
    if !e.Tick? && !e.Create? && e.id in s.table.rows { assert RowOk(s, e.id); }
  }

  ghost predicate Displaced(s: Sys, lease: Lease) {
    lease in s.issued && (s.issued[lease] in s.table.rows ==> s.table.rows[s.issued[lease]].lease != Some(lease))
  }

  /** Once its operation was claimed again or released, a lease never renews, releases or commits. */
  lemma DisplacedForever(s: Sys, events: seq<Event>, lease: Lease, until: Time, expected: Option<nat>, changes: Changes)
    requires Reachable(s) && lease in s.issued && s.issued[lease] in s.table.rows && Displaced(s, lease)
    ensures var t := Run(s, events); var id := s.issued[lease];
            && Displaced(t, lease) && t.issued[lease] == id && id in t.table.rows
            && RenewRow(t.table.rows[id], lease, until).None?
            && ReleaseRow(t.table.rows[id], lease).None?
            && UpdateRow(t.table.rows[id], expected, Some(lease), changes, t.clock) == Ok(None)
  {
    ReachableHolds(s);
    RunKeeps(s, events);
    assert RowAdvances(s, Run(s, events), s.issued[lease]);
  }

  /**
   A caller's version is evidence about everything but the lease: an update with the version
   it read is admitted if and only if the operation is the same up to its lease.
   */
  lemma VersionWitnessesRead(s: Sys, events: seq<Event>, id: string, changes: Changes)
    requires Reachable(s) && id in s.table.rows
    ensures var t := Run(s, events);
            && id in t.table.rows
            && var now := t.table.rows[id]; var read := s.table.rows[id];
               (UpdateRow(now, Some(read.version), None, changes, t.clock) != Ok(None)
                <==> now == read.(lease := now.lease, leaseUntil := now.leaseUntil))
  {
    ReachableHolds(s);
    RunKeeps(s, events);
    assert RowAdvances(s, Run(s, events), id);
  }

  /** Whoever read a claimed operation before its lease was renewed still passes as having seen it. */
  lemma VersionMissesRenewal(record: Operation, lease: Lease, until: Time, later: Time, changes: Changes)
    returns (read: Sys, events: seq<Event>)
    requires record.lease.None? && record.leaseUntil.None? && record.idempotencyKey.None?
    requires !Terminal(record.state) && record.expiresAt > 0.0 && 0.0 < until < later
    requires changes.state.Keep?
    ensures Reachable(read) && record.id in read.table.rows
    ensures var t := Run(read, events);
            && record.id in t.table.rows && t.table.rows[record.id] != read.table.rows[record.id]
            && var updated := UpdateRow(t.table.rows[record.id], Some(read.table.rows[record.id].version), None, changes, t.clock);
               updated.Ok? && updated.value.Some?
  {
    var start := Sys(0.0, Table(map[], map[]), map[]);
    var claim := Claim(record.scope, record.id, lease, until, 0.0);
    var renew := Renew(record.scope, record.id, lease, later);
    read := Step(Step(start, Create(record)), claim);
    assert Reachable(read) by { RunOfTwo(start, Create(record), claim); }
    events := [renew];
    assert [renew][..0] == [];
    assert Run(read, events) == Step(read, renew);
  }

  lemma RunOfTwo(s: Sys, a: Event, b: Event)
    ensures Run(s, [a, b]) == Step(Step(s, a), b)
  {
    assert [a, b][..1] == [a] && [a][..0] == [];
    assert Run(s, [a]) == Step(Run(s, []), a);
  }

  /** A key names at most one operation of its scope. */
  lemma OneOperationPerKey(s: Sys, a: string, b: string)
    requires Reachable(s) && a in s.table.rows && b in s.table.rows
    requires s.table.rows[a].idempotencyKey.Some? && s.table.rows[a].idempotencyKey == s.table.rows[b].idempotencyKey
    requires s.table.rows[a].scope == s.table.rows[b].scope
    ensures a == b
  {
    ReachableHolds(s);
    assert RowOk(s, a) && RowOk(s, b);
  }

  /** However the run goes on, creating again under a key answers with the operation that has it. */
  lemma CreateIsIdempotent(s: Sys, record: Operation, events: seq<Event>, again: Operation)
    requires Reachable(s) && record.lease.None? && record.leaseUntil.None? && Keyed(record)
    requires CreateIn(s.table, record).1 == Ok((record, true))
    requires again.scope == record.scope && again.idempotencyKey == record.idempotencyKey && again.kind == record.kind
    ensures var t := Run(Step(s, Create(record)), events); var (table, answer) := CreateIn(t.table, again);
            && table == t.table
            && answer.Ok? && !answer.value.1 && answer.value.0.id == record.id
  {
    ReachableHolds(s);
    StepKeeps(s, Create(record));
    var u := Step(s, Create(record));
    RunKeeps(u, events);
    var t := Run(u, events);
    assert RowAdvances(u, t, record.id);
    assert RowOk(t, record.id);
  }
}
