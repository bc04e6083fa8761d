/**
 Safety of the durable cleanup protocol over whole runs: for every number of managers
 and every interleaving of their transactions, heartbeats and workers.
 */
module CleanupSafety {
  import opened Common
  import opened CleanupStore
  import opened CleanupProtocol
  import opened CleanupInvariant

  lemma ReachableHolds(s: Sys)
    requires Reachable(s)
    ensures Inv(s)
  {
    var start, events :| Initial(start) && s == Run(start, events);
    InitialHolds(start);
    RunKeeps(start, events);
  }

  lemma ReachableStep(s: Sys, e: Event)
    requires Reachable(s)
    ensures Reachable(Step(s, e))
  {
    var start, events :| Initial(start) && s == Run(start, events);
    var longer := events + [e];
    assert longer[..|longer| - 1] == events;
    assert Step(s, e) == Run(start, longer);
  }

  // ---------------------------------------------------------------- what a step may touch

  /** No row is granted, and no remote delete begun. */
  ghost predicate Modest(s: Sys, t: Sys) {
    && t.claims == s.claims && t.starts == s.starts
    && t.workers.Keys == s.workers.Keys
    && (forall l :: l in s.workers ==> t.workers[l].started == s.workers[l].started)
    && (forall k :: k in s.table ==> k in t.table && ModestRow(s.table[k], t.table[k]))
  }

  ghost predicate ModestRow(o: Row, n: Row) {
    n.attempts == o.attempts && (n.lease == o.lease || n.lease == None)
  }

  /** The claim transaction that will grant row `k`. */
  ghost predicate Grants(s: Sys, e: Event, k: Key) {
    && e.Write? && e.m in s.managers && s.managers[e.m].plan.ClaimNext?
    && k in s.table && s.managers[e.m].plan.snap == s.table[k] && s.table[k].key == k
    && s.managers[e.m].plan.now <= s.clock && Claimable(s.table[k], s.managers[e.m].plan.now)
    && e.drawn !in s.workers && s.managers[e.m].leaseSeconds > 0.0
  }

  /** The last authority check of a worker that is about to delete. */
  ghost predicate Begins(s: Sys, e: Event) {
    e.StartDelete? && LockFreeFor(s, e.lease) && s.workers[e.lease].pc == Ready && Authorized(s, e.lease)
  }

  lemma CallsAreModest(s: Sys, e: Event)
    requires IsCall(e)
    ensures Modest(s, Step(s, e))
  {
    if !e.Tick? {
      assert OnlyPlans(s, Step(s, e));
    }
  }

  lemma UpdateIsModest(s: Sys, k: Key, expected: Option<nat>, lease: Option<Lease>, changes: Changes)
    requires RowsOk(s) && k in s.table && changes.attempts.Keep?
    ensures var u := UpdateRow(s.table[k], expected, lease, changes, s.clock);
            u.Some? ==> Modest(s, WithRow(s, u.value))
  {
    assert RowOk(s, k);
  }

  lemma HeartbeatIsModest(s: Sys, lease: Lease, now: Time)
    requires RowsOk(s)
    ensures Modest(s, RenewLease(s, lease, now))
  {
    if lease in s.workers && s.workers[lease].key in s.table && s.workers[lease].manager in s.managers {
      var until := now + s.managers[s.workers[lease].manager].leaseSeconds;
      UpdateIsModest(s, s.workers[lease].key, None, Some(lease), Changes(leaseUntil := Set(Some(until))));
    }
  }

  lemma WorkersAreModest(s: Sys, e: Event)
    requires RowsOk(s)
    requires IsWorker(e) || IsDelete(e)
    requires !Begins(s, e)
    ensures Modest(s, Step(s, e))
  {
    if e.Heartbeat? {
      HeartbeatIsModest(s, e.lease, e.now);
    } else if e.StartDelete? {
      assert OnlyMoves(s, BeginDelete(s, e.lease));
    } else {
      assert OnlyMoves(s, Step(s, e));
    }
  }

  lemma EditIsModest(s: Sys, m: nat, snap: Row, edit: Edit)
    requires RowsOk(s) && m in s.managers
    ensures Modest(s, WriteEdit(s, m, snap, edit))
  {
    if snap.key in s.table {
      UpdateIsModest(s, snap.key, Some(snap.version), None, EditChanges(edit, s.clock));
    }
  }

  lemma FinishIsModest(s: Sys, m: nat, lease: Lease, snap: Row)
    requires RowsOk(s) && m in s.managers
    ensures Modest(s, WriteFinish(s, m, lease, snap))
  {
    if lease in s.workers && s.workers[lease].pc.Finishing? && s.workers[lease].key in s.table {
      var w := s.workers[lease];
      UpdateIsModest(s, w.key, None, Some(lease), FinishChanges(snap, w.pc.evidence, w.attempts, s.clock));
    }
  }

  lemma SweepIsModest(s: Sys, m: nat, key: Key)
    requires RowsOk(s)
    ensures Modest(s, WriteSweep(s, m, key))
  {
    if m in s.managers && s.managers[m].plan.Sweep? && key in s.managers[m].plan.todo && key in s.table {
      UpdateIsModest(s, key, Some(s.managers[m].plan.todo[key].version), None, SweepChanges(s.clock));
    }
  }

  lemma InsertIsModest(s: Sys, m: nat, record: Row, thenClaim: bool)
    requires m in s.managers
    ensures Modest(s, WriteInsert(s, m, record, thenClaim))
  {
  }

  lemma WritesAreModest(s: Sys, m: nat, drawn: Lease)
    requires RowsOk(s)
    requires m in s.managers ==> !s.managers[m].plan.ClaimNext?
    ensures Modest(s, WriteNext(s, m, drawn))
  {
    if m in s.managers {
      match s.managers[m].plan
      case InsertJob(record, thenClaim) => InsertIsModest(s, m, record, thenClaim);
      case Edited(snap, edit) => EditIsModest(s, m, snap, edit);
      case FinishSeen(lease, snap) => FinishIsModest(s, m, lease, snap);
      case _ =>
    }
  }

  /** What a successful claim does to the state. */
  ghost predicate Granting(s: Sys, t: Sys, k: Key, drawn: Lease) {
    && k in s.table && k in t.table && t.table == s.table[k := t.table[k]]
    && t.table[k].lease == Some(drawn) && t.table[k].attempts == s.table[k].attempts + 1
    && t.claims == s.claims[k := Count(s.claims, k) + 1] && t.starts == s.starts
  }

  lemma ClaimGrantsOrIsModest(s: Sys, m: nat, snap: Row, now: Time, drawn: Lease)
    requires RowsOk(s) && m in s.managers && Seen(s, snap)
    ensures var t := WriteClaim(s, m, snap, now, drawn);
            if && drawn !in s.workers && s.table[snap.key] == snap
               && Claimable(snap, now) && s.managers[m].leaseSeconds > 0.0
            then Granting(s, t, snap.key, drawn)
            else Modest(s, t) || s.managers[m].leaseSeconds <= 0.0
  {
    assert RowOk(s, snap.key);
  }

  lemma ClaimsGrantOrAreModest(s: Sys, m: nat, drawn: Lease)
    requires Inv(s) && m in s.managers && s.managers[m].plan.ClaimNext?
    ensures var k := s.managers[m].plan.snap.key; var t := WriteNext(s, m, drawn);
            if Grants(s, Write(m, drawn), k) then Granting(s, t, k, drawn) else Modest(s, t)
  {
    var plan := s.managers[m].plan;
    assert PlanOk(s, m, plan);
    assert RowOk(s, plan.snap.key);
    ClaimGrantsOrIsModest(s, m, plan.snap, plan.now, drawn);
  }

  /** Away from claims and delete starts, every step is modest. */
  lemma OtherStepsAreModest(s: Sys, e: Event)
    requires RowsOk(s)
    requires !(e.Write? && e.m in s.managers && s.managers[e.m].plan.ClaimNext?)
    requires !Begins(s, e)
    ensures Modest(s, Step(s, e))
  {
    if IsCall(e) {
      CallsAreModest(s, e);
    } else if IsWorker(e) || IsDelete(e) {
      WorkersAreModest(s, e);
    } else {
      match e
      case Write(m, drawn) => WritesAreModest(s, m, drawn);
      case SweepOne(m, key) => SweepIsModest(s, m, key);
      case Decide(m) => assert OnlyPlans(s, DecideNext(s, m));
      case Abort(m) =>
    }
  }

  // ---------------------------------------------------------------- leases

  lemma StepGrantsOrKeeps(s: Sys, e: Event, t: Sys, k: Key)
    requires Inv(s) && t == Step(s, e) && k in s.table
    ensures if Grants(s, e, k) then Granting(s, t, k, e.drawn)
            else k in t.table && ModestRow(s.table[k], t.table[k]) && Count(t.claims, k) == Count(s.claims, k)
  {
    if e.Write? && e.m in s.managers && s.managers[e.m].plan.ClaimNext? {
      ClaimsGrantOrAreModest(s, e.m, e.drawn);
    } else if Begins(s, e) {
      assert t.table == s.table && t.claims == s.claims;
    } else {
      OtherStepsAreModest(s, e);
    }
  }

  /**
   A row passes to another lease only by the claim transaction of a manager, and only
   after the previous lease has run out; the new lease id was never held by any worker.
   */
  lemma LeaseExclusivity(s: Sys, e: Event, t: Sys, k: Key)
    requires Reachable(s) && t == Step(s, e) && k in s.table
    ensures k in t.table
    ensures t.table[k].lease.Some? && t.table[k].lease != s.table[k].lease <==> Grants(s, e, k)
    ensures Grants(s, e, k) && s.table[k].lease.Some? ==> Deadline(s.table[k]) <= s.clock
    ensures Grants(s, e, k) ==> t.table[k].lease == Some(e.drawn) && t.table[k].attempts == s.table[k].attempts + 1
  {
    ReachableHolds(s);
    StepGrantsOrKeeps(s, e, t, k);
    assert RowOk(s, k);
  }

  ghost predicate Displaced(s: Sys, lease: Lease) {
    lease in s.workers && s.workers[lease].key in s.table && s.table[s.workers[lease].key].lease != Some(lease)
  }

  /** Nothing a displaced worker does can renew, complete or fail the row, or begin a delete. */
  predicate Fenced(s: Sys, lease: Lease, now: Time, m: nat, drawn: Lease) {
    && RenewLease(s, lease, now) == s
    && BeginDelete(s, lease).starts == s.starts
    && (m in s.managers && s.managers[m].plan.FinishSeen? && s.managers[m].plan.lease == lease
        ==> WriteNext(s, m, drawn).table == s.table)
  }

  lemma DisplacedIsFenced(s: Sys, lease: Lease, now: Time, m: nat, drawn: Lease)
    requires Displaced(s, lease)
    ensures Fenced(s, lease, now, m, drawn)
  {
  }

  /**
   A worker whose row has gone to someone else, or to nobody, never gets it back, and
   whatever it does at any later point of the run is fenced off.
   */
  lemma DisplacedForever(s: Sys, events: seq<Event>, lease: Lease, now: Time, m: nat, drawn: Lease)
    requires Reachable(s) && Displaced(s, lease)
    ensures Displaced(Run(s, events), lease) && Fenced(Run(s, events), lease, now, m, drawn)
  {
    ReachableHolds(s);
    RunKeeps(s, events);
    var t := Run(s, events);
    assert LeaseIsNew(s, s.table[s.workers[lease].key], t.table[s.workers[lease].key]);
    DisplacedIsFenced(t, lease, now, m, drawn);
  }

  // ---------------------------------------------------------------- withdrawal

  /**
   A completed row never changes again; a retained row stays retained; a cancelled
   row may only become retained.  None of them is claimed, so no new worker exists.
   */
  lemma WithdrawnForever(s: Sys, events: seq<Event>, k: Key)
    requires Reachable(s) && k in s.table && Withdrawn(s.table[k])
    ensures var t := Run(s, events);
            && k in t.table && Withdrawn(t.table[k])
            && (s.table[k].state == Completed ==> t.table[k] == s.table[k])
            && (s.table[k].state == Retained ==> t.table[k].state == Retained)
            && (s.table[k].state == Cancelled ==> t.table[k].state == Cancelled || t.table[k].state == Retained)
            && t.table[k].attempts == s.table[k].attempts
            && Granted(t.workers, k) == Granted(s.workers, k)
  {
    ReachableHolds(s);
    RunKeeps(s, events);
    var t := Run(s, events);
    assert Advances(s.table[k], t.table[k]);
    assert Counted(s, k) && Counted(t, k);
    assert Granted(s.workers, k) <= Granted(t.workers, k);
    EqualBySize(Granted(s.workers, k), Granted(t.workers, k));
  }

  lemma EqualBySize<T>(a: set<T>, b: set<T>)
    requires a <= b && |a| == |b|
    ensures a == b
  {
    assert |b - a| == |b| - |a|;
  }

  // ---------------------------------------------------------------- accounting

  /** Attempts count claims, and no row has more remote deletes begun than claims granted. */
  lemma DeleteAccounting(s: Sys, k: Key)
    requires Reachable(s) && k in s.table
    ensures s.table[k].attempts == Count(s.claims, k)
    ensures Count(s.starts, k) <= s.table[k].attempts
  {
    ReachableHolds(s);
    assert Counted(s, k);
    SmallerSet(Begun(s.workers, k), Granted(s.workers, k));
  }

  lemma SmallerSet<T>(a: set<T>, b: set<T>)
    requires a <= b
    ensures |a| <= |b|
  {
    assert |b - a| == |b| - |a|;
  }

  /** The claim counter moves exactly when a row passes to a new lease. */
  lemma ClaimsAreCounted(s: Sys, e: Event, t: Sys, k: Key)
    requires Reachable(s) && t == Step(s, e) && k in s.table
    ensures k in t.table
    ensures Count(t.claims, k) ==
            Count(s.claims, k) + if t.table[k].lease.Some? && t.table[k].lease != s.table[k].lease then 1 else 0
  {
    LeaseExclusivity(s, e, t, k);
    ReachableHolds(s);
    StepGrantsOrKeeps(s, e, t, k);
  }

  /**
   A remote delete begins only as the step of one worker whose lease the row still
   runs under and whose manager is still in the worker's generation; that worker
   has begun none before.
   */
  lemma StartsAreAuthorized(s: Sys, e: Event, t: Sys, k: Key)
    requires Reachable(s) && t == Step(s, e)
    ensures Count(t.starts, k) == Count(s.starts, k) + if Begins(s, e) && s.workers[e.lease].key == k then 1 else 0
    ensures Begins(s, e) ==> !s.workers[e.lease].started && t.workers[e.lease].started
  {
    ReachableHolds(s);
    if e.Write? && e.m in s.managers && s.managers[e.m].plan.ClaimNext? {
      ClaimsGrantOrAreModest(s, e.m, e.drawn);
    } else if Begins(s, e) {
    } else {
      OtherStepsAreModest(s, e);
    }
  }

  // ---------------------------------------------------------------- rows and conditional writes

  lemma RowsWellFormed(s: Sys, k: Key)
    requires Reachable(s) && k in s.table
    ensures s.table[k].state == Running <==> s.table[k].lease.Some? && s.table[k].leaseUntil.Some?
    ensures s.table[k].state == Completed ==> s.table[k].status == VerifiedAbsent
  {
    ReachableHolds(s);
    assert RowOk(s, k);
  }

  /** Every write is a newer version. */
  lemma WritesRaiseVersion(s: Sys, e: Event, t: Sys, k: Key)
    requires Reachable(s) && t == Step(s, e) && k in s.table
    ensures k in t.table
    ensures t.table[k] != s.table[k] ==> t.table[k].version > s.table[k].version
  {
    ReachableHolds(s);
    StepKeeps(s, e);
    assert Advances(s.table[k], t.table[k]);
  }

  /** A conditional edit that changes the table found its row exactly as it was read. */
  lemma EditSawRow(s: Sys, m: nat, snap: Row, edit: Edit)
    requires Reachable(s) && m in s.managers && s.managers[m].plan == Edited(snap, edit)
    ensures WriteEdit(s, m, snap, edit).table ==
            if snap.key in s.table && s.table[snap.key] == snap
            then s.table[snap.key := Rewritten(snap, EditChanges(edit, s.clock), s.clock)]
            else s.table
  {
    ReachableHolds(s);
    assert PlanOk(s, m, s.managers[m].plan);
    EditedRow(s, snap, EditChanges(edit, s.clock));
  }
}
