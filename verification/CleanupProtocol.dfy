/**
 The durable cleanup protocol of src/remote_chat_cleanup_manager.py, for any number
 of managers (one per process) over one shared table of deletion jobs.

 A manager's `_lock` is its `plan`: the call that holds the lock and what that call
 will do next.  A call advances one transaction at a time, so transactions of
 other managers and heartbeats of any worker interleave between its read and its
 write.  A worker is named by the lease id its claim drew, and stops at each `await`
 and each lock boundary.  An event that is not enabled changes nothing, hence every
 sequence of events is a run.
 */
module CleanupProtocol {
  import opened Common
  import opened CleanupStore

  const RETENTION: Time := 604800.0

  /** A conditional write prepared from a row read earlier under the same lock. */
  datatype Edit =
    | Mark
    | RetainByRequest
    | RetainExpiredClaim
    | Reschedule(due: Time)
    | MakeDue(now: Time)
    | CancelByRequest

  datatype Plan =
    | Free
    | RetainSeen(snap: Row)
    | InsertJob(record: Row, thenClaim: bool)
    | ClaimSeen(snap: Row, automatic: bool)
    | Edited(snap: Row, edit: Edit)
    | Reread(key: Key, now: Time)
    | ClaimNext(snap: Row, now: Time)
    | Sweep(todo: map<Key, Row>)
    | FinishSeen(lease: Lease, snap: Row)

  datatype Manager = Manager(generation: nat, scope: Option<string>, leaseSeconds: Time, plan: Plan)

  /** What a worker learned before it writes its terminal state. */
  datatype Evidence = Evidence(verified: bool, code: string, status: Status)

  datatype Pc = Resolving | Observing | Ready | Deleting | Finishing(evidence: Evidence) | Exited

  datatype Worker = Worker(manager: nat, generation: nat, key: Key, attempts: nat, started: bool, pc: Pc)

  /** `claims` and `starts` only count: successful claims, and remote deletes begun, per row. */
  datatype Sys = Sys(
    clock: Time,
    table: Table,
    managers: map<nat, Manager>,
    workers: map<Lease, Worker>,
    claims: map<Key, nat>,
    starts: map<Key, nat>)

  datatype Event =
    | Tick(elapsed: Time)
    | Bind(m: nat, scope: string)
    | SwitchAccount(m: nat)
    | Retain(m: nat, cid: string)
    | Remove(m: nat, cid: string, due: Time, explicitDelay: bool, job: string)
    | Claim(m: nat, cid: string, expected: Option<nat>, durable: bool, job: string)
    | Cancel(m: nat, cid: string)
    | Decide(m: nat)
    | Write(m: nat, drawn: Lease)
    | SweepOne(m: nat, key: Key)
    | SweepDone(m: nat)
    | Abort(m: nat)
    | Heartbeat(lease: Lease, now: Time)
    | Authorize(lease: Lease)
    | Observe(lease: Lease, absent: bool)
    | StartDelete(lease: Lease)
    | Outcome(lease: Lease, evidence: Evidence)
    | Interrupt(lease: Lease, code: string)
    | BeginFinish(lease: Lease)

  // ---------------------------------------------------------------- transactions

  function EditChanges(edit: Edit, clock: Time): Changes {
    match edit
    case Mark => Changes(error := Set(Some(RetainAfterClaim)))
    case RetainByRequest => Changes(state := Set(Retained), status := Set(Status.RetainedByRequest))
    case RetainExpiredClaim => Changes(state := Set(Retained), status := Set(Status.RetainedAfterClaim))
    case Reschedule(due) => Changes(dueAt := Set(due), expiresAt := Set(Max(clock, due) + RETENTION))
    case MakeDue(now) => Changes(dueAt := Set(now))
    case CancelByRequest => Changes(state := Set(Cancelled), error := Set(Some(Code.CancelledByRequest)),
                                    status := Set(NotObserved), expiresAt := Set(clock + RETENTION))
  }

  function SweepChanges(clock: Time): Changes {
    Changes(state := Set(Cancelled), error := Set(Some(ContextChanged)),
            status := Set(NotObserved), expiresAt := Set(clock + RETENTION))
  }

  function Pow2(n: nat): nat { if n == 0 then 1 else 2 * Pow2(n - 1) }

  /** `min(3600, 2 ** min(attempts, 10))` seconds. */
  function Backoff(attempts: nat): Time {
    Min(3600.0, Pow2(if attempts <= 10 then attempts else 10) as real)
  }

  /** The terminal write of a worker, decided from the row read just before. */
  function FinishChanges(snap: Row, evidence: Evidence, attempts: nat, clock: Time): Changes {
    var retain := snap.error == Some(RetainAfterClaim) && !evidence.verified;
    Changes(
      state := Set(if retain then Retained else if evidence.verified then Completed else Failed),
      status := Set(if evidence.verified then VerifiedAbsent
                    else if retain then Status.RetainedAfterClaim else evidence.status),
      error := Set(if evidence.verified then None else Some(OtherCode(evidence.code))),
      dueAt := Set(clock + Backoff(attempts)),
      expiresAt := Set(clock + RETENTION))
  }

  function NewJob(key: Key, due: Time, job: string, clock: Time): Row {
    Row(job, key, Pending, due, clock, clock, Max(clock, due) + RETENTION, 0, NotObserved, None, 0, None, None)
  }

  // ---------------------------------------------------------------- state access

  predicate Known(s: Sys, m: nat) { m in s.managers }

  predicate Idle(s: Sys, m: nat) { m in s.managers && s.managers[m].plan.Free? }

  function WithPlan(s: Sys, m: nat, plan: Plan): Sys
    requires m in s.managers
  {
    s.(managers := s.managers[m := s.managers[m].(plan := plan)])
  }

  function WithPc(s: Sys, lease: Lease, pc: Pc): Sys
    requires lease in s.workers
  {
    s.(workers := s.workers[lease := s.workers[lease].(pc := pc)])
  }

  function WithRow(s: Sys, row: Row): Sys {
    s.(table := s.table[row.key := row])
  }

  /** Two states that differ in their managers alone: nothing was written. */
  predicate OnlyPlans(s: Sys, t: Sys) {
    t.(managers := s.managers) == s
  }

  /** At most plans and worker positions differ: no row, no counter, no new worker, no delete begun. */
  predicate OnlyMoves(s: Sys, t: Sys) {
    && t.(managers := s.managers, workers := s.workers) == s
    && t.workers.Keys == s.workers.Keys
    && forall l :: l in s.workers ==> t.workers[l] == s.workers[l].(pc := t.workers[l].pc)
  }

  /** The key a manager uses for a chat, when it has a scope. */
  function KeyFor(s: Sys, m: nat, cid: string): Key
    requires m in s.managers && s.managers[m].scope.Some?
  {
    Key(s.managers[m].scope.value, cid)
  }

  predicate CanCall(s: Sys, m: nat) {
    Idle(s, m) && s.managers[m].scope.Some?
  }

  /** The row still runs under this worker's lease and its manager is still in the worker's generation. */
  predicate Authorized(s: Sys, lease: Lease) {
    && lease in s.workers
    && s.workers[lease].manager in s.managers
    && s.workers[lease].generation == s.managers[s.workers[lease].manager].generation
    && s.workers[lease].key in s.table
    && s.table[s.workers[lease].key].state == Running
    && s.table[s.workers[lease].key].lease == Some(lease)
  }

  // ---------------------------------------------------------------- calls: the read

  function BeginRetain(s: Sys, m: nat, cid: string): (t: Sys)
    ensures OnlyPlans(s, t)
  {
    if !CanCall(s, m) || KeyFor(s, m, cid) !in s.table then s
    else
      var row := s.table[KeyFor(s, m, cid)];
      if row.state == Completed then s else WithPlan(s, m, RetainSeen(row))
  }

  function BeginRemove(s: Sys, m: nat, cid: string, due: Time, explicitDelay: bool, job: string): (t: Sys)
    ensures OnlyPlans(s, t)
  {
    if !CanCall(s, m) then s
    else
      var key := KeyFor(s, m, cid);
      if key !in s.table then WithPlan(s, m, InsertJob(NewJob(key, due, job, s.clock), false))
      else
        var row := s.table[key];
        if (row.state == Pending || row.state == Failed) && explicitDelay && due < row.dueAt
        then WithPlan(s, m, Edited(row, Reschedule(due)))
        else s
  }

  function BeginClaim(s: Sys, m: nat, cid: string, expected: Option<nat>, durable: bool, job: string): (t: Sys)
    ensures OnlyPlans(s, t)
  {
    if !CanCall(s, m) then s
    else
      var key := KeyFor(s, m, cid);
      if key !in s.table then
        if durable && expected.None? then WithPlan(s, m, InsertJob(NewJob(key, s.clock, job, s.clock), true)) else s
      else if expected.Some? && s.table[key].version != expected.value then s
      else WithPlan(s, m, ClaimSeen(s.table[key], expected.Some?))
  }

  function BeginCancel(s: Sys, m: nat, cid: string): (t: Sys)
    ensures OnlyPlans(s, t)
  {
    if !CanCall(s, m) || KeyFor(s, m, cid) !in s.table then s
    else
      var row := s.table[KeyFor(s, m, cid)];
      if Withdrawn(row) then s else WithPlan(s, m, Edited(row, CancelByRequest))
  }

  /** An account switch lists every live job of the scope before it cancels them one by one. */
  function BeginSwitch(s: Sys, m: nat): (t: Sys)
    ensures OnlyPlans(s, t)
  {
    if !Idle(s, m) then s
    else if s.managers[m].scope.None? then
      s.(managers := s.managers[m := s.managers[m].(generation := s.managers[m].generation + 1)])
    else
      var scope := s.managers[m].scope.value;
      WithPlan(s, m, Sweep(map key | key in s.table && key.scope == scope && !Withdrawn(s.table[key]) :: s.table[key]))
  }

  /** A manager adopts a scope only when it has none, or already this one. */
  function BindScope(s: Sys, m: nat, scope: string): (t: Sys)
    ensures OnlyPlans(s, t)
  {
    if Idle(s, m) && (s.managers[m].scope == None || s.managers[m].scope == Some(scope))
    then s.(managers := s.managers[m := s.managers[m].(scope := Some(scope))])
    else s
  }

  // ---------------------------------------------------------------- calls: the decision

  /** The branch a call takes after its read; the clock is sampled here. */
  function DecideNext(s: Sys, m: nat): (t: Sys)
    ensures OnlyPlans(s, t)
  {
    if !Known(s, m) then s
    else match s.managers[m].plan
      case RetainSeen(snap) =>
        if snap.state == Running && Deadline(snap) > s.clock
        then WithPlan(s, m, Edited(snap, Mark))
        else WithPlan(s, m, Edited(snap, RetainByRequest))
      case ClaimSeen(snap, automatic) =>
        if Marked(snap) then
          if Deadline(snap) <= s.clock
          then WithPlan(s, m, Edited(snap, RetainExpiredClaim))
          else WithPlan(s, m, Free)
        else if !automatic && (snap.state == Pending || snap.state == Failed) && snap.dueAt > s.clock
        then WithPlan(s, m, Edited(snap, MakeDue(s.clock)))
        else WithPlan(s, m, ClaimNext(snap, s.clock))
      case _ => s
  }

  // ---------------------------------------------------------------- calls: the write

  function WriteInsert(s: Sys, m: nat, record: Row, thenClaim: bool): Sys
    requires Known(s, m)
  {
    if record.key !in s.table && JobIdUsed(s.table, record.job) then WithPlan(s, m, Free)
    else
      var written := if record.key in s.table then s else WithRow(s, record);
      WithPlan(written, m, if thenClaim then ClaimSeen(written.table[record.key], false) else Free)
  }

  function WriteEdit(s: Sys, m: nat, snap: Row, edit: Edit): Sys
    requires Known(s, m)
  {
    var updated := if snap.key in s.table
                   then UpdateRow(s.table[snap.key], Some(snap.version), None, EditChanges(edit, s.clock), s.clock)
                   else None;
    var written := if updated.Some? then WithRow(s, updated.value) else s;
    match edit
    case MakeDue(now) =>
      WithPlan(written, m, if updated.Some? then ClaimNext(updated.value, now) else Reread(snap.key, now))
    case _ => WithPlan(written, m, Free)
  }

  function WriteClaim(s: Sys, m: nat, snap: Row, now: Time, drawn: Lease): Sys
    requires Known(s, m)
  {
    var until := now + s.managers[m].leaseSeconds;
    if drawn in s.workers || snap.key !in s.table then s
    else
      var claimed := ClaimRow(s.table[snap.key], snap.version, drawn, until, now);
      if claimed.None? then WithPlan(s, m, Free)
      else
        WithPlan(GrantRow(s, m, claimed.value, drawn), m, Free)
  }

  /** The claimed row is stored and its worker created under the drawn lease. */
  function GrantRow(s: Sys, m: nat, row: Row, drawn: Lease): Sys
    requires Known(s, m)
  {
    WithRow(s, row).(
      workers := s.workers[drawn := Worker(m, s.managers[m].generation, row.key, row.attempts, false, Resolving)],
      claims := s.claims[row.key := Count(s.claims, row.key) + 1])
  }

  function WriteFinish(s: Sys, m: nat, lease: Lease, snap: Row): Sys
    requires Known(s, m)
  {
    if lease !in s.workers || !s.workers[lease].pc.Finishing? || s.workers[lease].key !in s.table then WithPlan(s, m, Free)
    else
      var worker := s.workers[lease];
      var updated := UpdateRow(s.table[worker.key], None, Some(lease),
                               FinishChanges(snap, worker.pc.evidence, worker.attempts, s.clock), s.clock);
      var written := if updated.Some? then WithRow(s, updated.value) else s;
      WithPc(WithPlan(written, m, Free), lease, Exited)
  }

  function WriteNext(s: Sys, m: nat, drawn: Lease): Sys {
    if !Known(s, m) then s
    else match s.managers[m].plan
      case InsertJob(record, thenClaim) => WriteInsert(s, m, record, thenClaim)
      case Edited(snap, edit) => WriteEdit(s, m, snap, edit)
      case Reread(key, now) => if key in s.table then WithPlan(s, m, ClaimNext(s.table[key], now)) else s
      case ClaimNext(snap, now) => WriteClaim(s, m, snap, now, drawn)
      case FinishSeen(lease, snap) => WriteFinish(s, m, lease, snap)
      case _ => s
  }

  function WriteSweep(s: Sys, m: nat, key: Key): Sys {
    if !Known(s, m) || !s.managers[m].plan.Sweep? || key !in s.managers[m].plan.todo then s
    else
      var snap := s.managers[m].plan.todo[key];
      var updated := if key in s.table
                     then UpdateRow(s.table[key], Some(snap.version), None, SweepChanges(s.clock), s.clock)
                     else None;
      var written := if updated.Some? then WithRow(s, updated.value) else s;
      WithPlan(written, m, Sweep(s.managers[m].plan.todo - {key}))
  }

  function EndSweep(s: Sys, m: nat): (t: Sys)
    ensures OnlyPlans(s, t)
  {
    if Known(s, m) && s.managers[m].plan == Sweep(map[]) then
      s.(managers := s.managers[m := s.managers[m].(generation := s.managers[m].generation + 1, scope := None, plan := Free)])
    else s
  }

  /** A storage error or a call that gives up: the lock is released and nothing is written. */
  function AbortCall(s: Sys, m: nat): Sys {
    if !Known(s, m) then s
    else match s.managers[m].plan
      case FinishSeen(lease, _) => if lease in s.workers then WithPc(WithPlan(s, m, Free), lease, Exited) else s
      case _ => WithPlan(s, m, Free)
  }

  // ---------------------------------------------------------------- workers

  /**
   `now` was sampled before the transaction.  A worker samples it for one renewal after
   another, and first after its claim, so a renewal never asks for an earlier deadline.
   */
  function RenewLease(s: Sys, lease: Lease, now: Time): Sys {
    if lease !in s.workers || s.workers[lease].pc.Exited? || now > s.clock then s
    else
      var worker := s.workers[lease];
      if worker.key !in s.table || worker.manager !in s.managers then s
      else
        var until := now + s.managers[worker.manager].leaseSeconds;
        if until < Deadline(s.table[worker.key]) then s else
        var renewed := UpdateRow(s.table[worker.key], None, Some(lease), Changes(leaseUntil := Set(Some(until))), s.clock);
        if renewed.Some? then WithRow(s, renewed.value) else s
  }

  predicate LockFreeFor(s: Sys, lease: Lease) {
    lease in s.workers && Idle(s, s.workers[lease].manager)
  }

  function CheckAuthority(s: Sys, lease: Lease): (t: Sys)
    ensures OnlyMoves(s, t)
  {
    if !LockFreeFor(s, lease) || s.workers[lease].pc != Resolving then s
    else if !Authorized(s, lease) then WithPc(s, lease, Exited)
    else WithPc(s, lease, if s.workers[lease].attempts > 1 then Observing else Ready)
  }

  /** After an earlier attempt, positive absence completes recovery without a second delete. */
  function ObserveAbsence(s: Sys, lease: Lease, absent: bool): (t: Sys)
    ensures OnlyMoves(s, t)
  {
    if lease !in s.workers || s.workers[lease].pc != Observing then s
    else WithPc(s, lease, if absent then Finishing(Evidence(true, "", NotObserved)) else Ready)
  }

  /** The last check and the start of the irreversible remote delete: no `await` lies between. */
  function BeginDelete(s: Sys, lease: Lease): Sys {
    if !LockFreeFor(s, lease) || s.workers[lease].pc != Ready then s
    else if !Authorized(s, lease) then WithPc(s, lease, Exited)
    else StartRemote(s, lease)
  }

  function StartRemote(s: Sys, lease: Lease): Sys
    requires lease in s.workers
  {
    var key := s.workers[lease].key;
    s.(workers := s.workers[lease := s.workers[lease].(pc := Deleting, started := true)],
       starts := s.starts[key := Count(s.starts, key) + 1])
  }

  function DeleteReturned(s: Sys, lease: Lease, evidence: Evidence): (t: Sys)
    ensures OnlyMoves(s, t)
  {
    if lease !in s.workers || s.workers[lease].pc != Deleting then s
    else WithPc(s, lease, Finishing(evidence))
  }

  /** An exception or a cancellation before the terminal section: at an `await`, or of the store in a check. */
  function Interrupted(s: Sys, lease: Lease, code: string): (t: Sys)
    ensures OnlyMoves(s, t)
  {
    if lease !in s.workers then s
    else
      var pc := s.workers[lease].pc;
      if pc.Resolving? || pc.Observing? || pc.Ready? || pc.Deleting?
      then WithPc(s, lease, Finishing(Evidence(false, code, NotObserved)))
      else s
  }

  /** The terminal section takes the lock, checks the generation and reads the row once more. */
  function FinishRead(s: Sys, lease: Lease): (t: Sys)
    ensures OnlyMoves(s, t)
  {
    if !LockFreeFor(s, lease) || !s.workers[lease].pc.Finishing? || s.workers[lease].key !in s.table then s
    else
      var worker := s.workers[lease];
      if worker.generation != s.managers[worker.manager].generation then WithPc(s, lease, Exited)
      else WithPlan(s, worker.manager, FinishSeen(lease, s.table[worker.key]))
  }

  // ---------------------------------------------------------------- runs

  function Step(s: Sys, e: Event): Sys {
    match e
    case Tick(elapsed) => if elapsed >= 0.0 then s.(clock := s.clock + elapsed) else s
    case Bind(m, scope) => BindScope(s, m, scope)
    case SwitchAccount(m) => BeginSwitch(s, m)
    case Retain(m, cid) => BeginRetain(s, m, cid)
    case Remove(m, cid, due, explicitDelay, job) => BeginRemove(s, m, cid, due, explicitDelay, job)
    case Claim(m, cid, expected, durable, job) => BeginClaim(s, m, cid, expected, durable, job)
    case Cancel(m, cid) => BeginCancel(s, m, cid)
    case Decide(m) => DecideNext(s, m)
    case Write(m, drawn) => WriteNext(s, m, drawn)
    case SweepOne(m, key) => WriteSweep(s, m, key)
    case SweepDone(m) => EndSweep(s, m)
    case Abort(m) => AbortCall(s, m)
    case Heartbeat(lease, now) => RenewLease(s, lease, now)
    case Authorize(lease) => CheckAuthority(s, lease)
    case Observe(lease, absent) => ObserveAbsence(s, lease, absent)
    case StartDelete(lease) => BeginDelete(s, lease)
    case Outcome(lease, evidence) => DeleteReturned(s, lease, evidence)
    case Interrupt(lease, code) => Interrupted(s, lease, code)
    case BeginFinish(lease) => FinishRead(s, lease)
  }

  function Run(s: Sys, events: seq<Event>): Sys
    decreases |events|
  {
    if events == [] then s else Step(Run(s, events[..|events| - 1]), events[|events| - 1])
  }

  /** An empty table shared by managers that have no scope yet. */
  predicate Initial(s: Sys) {
    && s.table == map[] && s.workers == map[] && s.claims == map[] && s.starts == map[]
    && forall m :: m in s.managers ==> s.managers[m].plan == Free && s.managers[m].leaseSeconds > 0.0
  }

  ghost predicate Reachable(s: Sys) {
    exists start, events :: Initial(start) && s == Run(start, events)
  }
}
