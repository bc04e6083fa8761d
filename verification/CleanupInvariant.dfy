/**
 What every reachable state of the cleanup protocol satisfies, and how far one step
 may move a row.  The theorems about whole runs are in CleanupSafety.
 */
module CleanupInvariant {
  import opened Common
  import opened CleanupStore
  import opened CleanupProtocol

  /** One row's permitted development: nothing, or newer versions that respect withdrawal. */
  ghost predicate Advances(o: Row, n: Row) {
    || n == o
    || (&& n.version > o.version
        && n.key == o.key && n.job == o.job
        && n.attempts >= o.attempts
        && o.state != Completed
        && (o.state == Retained ==> n.state == Retained)
        && (o.state == Cancelled ==> n.state == Cancelled || n.state == Retained)
        && (Withdrawn(o) ==> n.attempts == o.attempts))
  }

  ghost predicate SameIdentity(o: Worker, n: Worker) {
    n.manager == o.manager && n.generation == o.generation && n.key == o.key && n.attempts == o.attempts
  }

  /** The relation a step keeps, and that composes over runs. */
  ghost predicate Evolves(s: Sys, t: Sys) {
    && s.clock <= t.clock
    && s.managers.Keys == t.managers.Keys
    && (forall k :: k in s.table ==> k in t.table && Advances(s.table[k], t.table[k]))
    && (forall l :: l in s.workers ==> l in t.workers && SameIdentity(s.workers[l], t.workers[l]))
    && (forall k :: k in s.table ==> LeaseIsNew(s, s.table[k], t.table[k]))
  }

  /** A row only ever comes under a lease that no earlier claim drew, and a lease only gets longer. */
  ghost predicate LeaseIsNew(s: Sys, o: Row, n: Row) {
    && (n.lease == o.lease || n.lease == None || n.lease.value !in s.workers)
    && (n.lease == o.lease && n.lease.Some? && n.lease.value in s.workers ==> Deadline(o) <= Deadline(n))
  }

  /** A row as some call read it: still current exactly when the version is still current. */
  ghost predicate Seen(s: Sys, r: Row) {
    && r.key in s.table
    && r.version <= s.table[r.key].version
    && (r.version == s.table[r.key].version ==> r == s.table[r.key])
  }

  ghost predicate EditFits(r: Row, edit: Edit) {
    match edit
    case Mark => r.state == Running
    case RetainByRequest => r.state != Completed
    case RetainExpiredClaim => r.state == Running
    case Reschedule(_) => r.state == Pending || r.state == Failed
    case MakeDue(_) => r.state == Pending || r.state == Failed
    case CancelByRequest => !Withdrawn(r)
  }

  ghost predicate PlanOk(s: Sys, m: nat, plan: Plan) {
    match plan
    case Free => true
    case RetainSeen(snap) => Seen(s, snap) && snap.state != Completed
    case InsertJob(record, _) =>
      record.state == Pending && record.version == 0 && record.attempts == 0 && record.lease.None? && record.leaseUntil.None?
    case ClaimSeen(snap, _) => Seen(s, snap)
    case Edited(snap, edit) => Seen(s, snap) && EditFits(snap, edit) && (edit.MakeDue? ==> edit.now <= s.clock)
    case Reread(key, now) => key in s.table && now <= s.clock
    case ClaimNext(snap, now) => Seen(s, snap) && now <= s.clock
    case Sweep(todo) => forall k :: k in todo ==> todo[k].key == k && Seen(s, todo[k]) && !Withdrawn(todo[k])
    case FinishSeen(lease, snap) =>
      && lease in s.workers && s.workers[lease].pc.Finishing? && s.workers[lease].manager == m
      && s.workers[lease].key == snap.key && Seen(s, snap)
  }

  ghost predicate PlansOk(s: Sys) {
    forall m :: m in s.managers ==> PlanOk(s, m, s.managers[m].plan) && s.managers[m].leaseSeconds > 0.0
  }

  ghost predicate RowOk(s: Sys, k: Key) {
    k in s.table ==>
      var row := s.table[k];
      && row.key == k
      && WellFormed(row)
      && (row.lease.Some? ==>
            && row.lease.value in s.workers
            && s.workers[row.lease.value].key == k
            && s.workers[row.lease.value].attempts == row.attempts)
  }

  ghost predicate RowsOk(s: Sys) {
    forall k :: RowOk(s, k)
  }

  ghost predicate WorkersOk(s: Sys) {
    forall l :: l in s.workers ==>
      && s.workers[l].key in s.table
      && s.workers[l].manager in s.managers
      && (s.workers[l].pc.Deleting? ==> s.workers[l].started)
      && (s.workers[l].pc.Resolving? || s.workers[l].pc.Observing? || s.workers[l].pc.Ready? ==> !s.workers[l].started)
  }

  /** The workers ever granted a row, and those that began its remote delete. */
  ghost function Granted(workers: map<Lease, Worker>, k: Key): set<Lease> {
    set l | l in workers && workers[l].key == k
  }

  ghost function Begun(workers: map<Lease, Worker>, k: Key): set<Lease> {
    set l | l in workers && workers[l].key == k && workers[l].started
  }

  ghost predicate Counted(s: Sys, k: Key) {
    && Count(s.claims, k) == |Granted(s.workers, k)|
    && Count(s.starts, k) == |Begun(s.workers, k)|
    && (k in s.table ==> s.table[k].attempts == Count(s.claims, k))
  }

  ghost predicate CountersOk(s: Sys) {
    forall k :: Counted(s, k)
  }

  ghost predicate Inv(s: Sys) {
    RowsOk(s) && WorkersOk(s) && PlansOk(s) && CountersOk(s)
  }

  // ---------------------------------------------------------------- building blocks

  lemma SeenSurvives(s: Sys, t: Sys, r: Row)
    requires Seen(s, r) && Evolves(s, t)
    ensures Seen(t, r)
  {
    assert Advances(s.table[r.key], t.table[r.key]);
  }

  /** Other managers' plans stay good when the table only advances. */
  lemma PlanSurvives(s: Sys, t: Sys, m: nat, plan: Plan)
    requires PlanOk(s, m, plan) && Evolves(s, t)
    requires plan.FinishSeen? ==> plan.lease in t.workers && t.workers[plan.lease].pc.Finishing?
    ensures PlanOk(t, m, plan)
  {
    match plan
    case RetainSeen(snap) => SeenSurvives(s, t, snap);
    case ClaimSeen(snap, _) => SeenSurvives(s, t, snap);
    case Edited(snap, _) => SeenSurvives(s, t, snap);
    case ClaimNext(snap, _) => SeenSurvives(s, t, snap);
    case FinishSeen(_, snap) => SeenSurvives(s, t, snap);
    case Sweep(todo) =>
      forall k | k in todo ensures Seen(t, todo[k]) { SeenSurvives(s, t, todo[k]); }
    case _ =>
  }

  /** Plans of a state whose table only advanced and whose finishing workers still finish. */
  lemma PlansSurvive(s: Sys, t: Sys)
    requires PlansOk(s) && Evolves(s, t)
    requires forall m :: m in s.managers ==> t.managers[m].leaseSeconds == s.managers[m].leaseSeconds
    requires forall m :: m in s.managers ==>
               t.managers[m].plan == s.managers[m].plan || PlanOk(t, m, t.managers[m].plan)
    requires forall l :: l in s.workers && s.workers[l].pc.Finishing? ==> t.workers[l].pc.Finishing?
    ensures PlansOk(t)
  {
    forall m | m in t.managers ensures PlanOk(t, m, t.managers[m].plan) {
      if t.managers[m].plan == s.managers[m].plan {
        assert PlanOk(s, m, s.managers[m].plan);
        PlanSurvives(s, t, m, t.managers[m].plan);
      }
    }
  }

  /** Rows stay good while nothing but plans, clocks and worker counters change. */
  lemma RowsSurvive(s: Sys, t: Sys)
    requires RowsOk(s) && t.table == s.table
    requires forall l :: l in s.workers ==> l in t.workers && SameIdentity(s.workers[l], t.workers[l])
    ensures RowsOk(t)
  {
    forall k ensures RowOk(t, k) { assert RowOk(s, k); }
  }

  lemma SetPlan(s: Sys, m: nat, plan: Plan)
    requires Inv(s) && m in s.managers && PlanOk(s, m, plan)
    ensures Inv(WithPlan(s, m, plan)) && Evolves(s, WithPlan(s, m, plan))
  {
    var t := WithPlan(s, m, plan);
    assert Evolves(s, t);
    PlanSurvives(s, t, m, plan);
    PlansSurvive(s, t);
    SameCounters(s, t);
    RowsSurvive(s, t);
  }

  lemma SameCounters(s: Sys, t: Sys)
    requires CountersOk(s)
    requires t.claims == s.claims && t.starts == s.starts
    requires forall l :: l in s.workers <==> l in t.workers
    requires forall l :: l in s.workers ==> t.workers[l].key == s.workers[l].key && t.workers[l].started == s.workers[l].started
    requires forall k :: k in t.table ==> t.table[k].attempts == if k in s.table then s.table[k].attempts else Count(s.claims, k)
    ensures CountersOk(t)
  {
    forall k ensures Counted(t, k) {
      assert Counted(s, k);
      assert Granted(s.workers, k) == Granted(t.workers, k);
      assert Begun(s.workers, k) == Begun(t.workers, k);
    }
  }

  lemma PcEvolves(s: Sys, lease: Lease, pc: Pc)
    requires PlansOk(s) && lease in s.workers
    requires pc.Finishing? || forall m :: m in s.managers ==> !(s.managers[m].plan.FinishSeen? && s.managers[m].plan.lease == lease)
    ensures Evolves(s, WithPc(s, lease, pc)) && PlansOk(WithPc(s, lease, pc))
  {
    var t := WithPc(s, lease, pc);
    assert Evolves(s, t);
    forall n | n in t.managers ensures PlanOk(t, n, t.managers[n].plan) {
      assert PlanOk(s, n, s.managers[n].plan);
      PlanSurvives(s, t, n, t.managers[n].plan);
    }
  }

  lemma PcCounts(s: Sys, lease: Lease, pc: Pc)
    requires CountersOk(s) && lease in s.workers
    ensures CountersOk(WithPc(s, lease, pc))
  {
    SameCounters(s, WithPc(s, lease, pc));
  }

  /** A worker moves on without beginning a delete. */
  lemma SetPc(s: Sys, lease: Lease, pc: Pc)
    requires Inv(s) && lease in s.workers
    requires pc.Deleting? ==> s.workers[lease].started
    requires pc.Resolving? || pc.Observing? || pc.Ready? ==> !s.workers[lease].started
    requires pc.Finishing? || forall m :: m in s.managers ==> !(s.managers[m].plan.FinishSeen? && s.managers[m].plan.lease == lease)
    ensures Inv(WithPc(s, lease, pc)) && Evolves(s, WithPc(s, lease, pc))
  {
    PcEvolves(s, lease, pc);
    PcCounts(s, lease, pc);
    RowsSurvive(s, WithPc(s, lease, pc));
  }

  lemma ReplaceEvolves(s: Sys, n: Row)
    requires PlansOk(s) && n.key in s.table
    requires Advances(s.table[n.key], n)
    requires n.lease == None || n.lease == s.table[n.key].lease
    requires n.lease.Some? ==> Deadline(s.table[n.key]) <= Deadline(n)
    ensures Evolves(s, WithRow(s, n)) && PlansOk(WithRow(s, n))
  {
    assert Evolves(s, WithRow(s, n));
    PlansSurvive(s, WithRow(s, n));
  }

  lemma ReplaceRowsOk(s: Sys, n: Row)
    requires RowsOk(s) && n.key in s.table && WellFormed(n)
    requires n.attempts == s.table[n.key].attempts
    requires n.lease == None || n.lease == s.table[n.key].lease
    ensures RowsOk(WithRow(s, n))
  {
    forall k ensures RowOk(WithRow(s, n), k) {
      assert RowOk(s, k);
      assert RowOk(s, n.key);
    }
  }

  /** One row is replaced by a newer version of itself under the same or no lease. */
  lemma ReplaceRow(s: Sys, n: Row)
    requires Inv(s) && n.key in s.table
    requires Advances(s.table[n.key], n) && WellFormed(n)
    requires n.attempts == s.table[n.key].attempts
    requires n.lease == None || n.lease == s.table[n.key].lease
    requires n.lease.Some? ==> Deadline(s.table[n.key]) <= Deadline(n)
    ensures Inv(WithRow(s, n)) && Evolves(s, WithRow(s, n))
  {
    ReplaceEvolves(s, n);
    ReplaceRowsOk(s, n);
    SameCounters(s, WithRow(s, n));
  }

  lemma InsertRow(s: Sys, n: Row)
    requires Inv(s) && n.key !in s.table
    requires PlanOk(s, 0, InsertJob(n, false))
    ensures Inv(WithRow(s, n)) && Evolves(s, WithRow(s, n))
  {
    var t := WithRow(s, n);
    assert Evolves(s, t);
    PlansSurvive(s, t);
    assert Count(s.claims, n.key) == 0 by {
      assert Counted(s, n.key);
      assert Granted(s.workers, n.key) == {};
    }
    SameCounters(s, t);
    assert RowsOk(t) by { forall k ensures RowOk(t, k) { assert RowOk(s, k); } }
  }

  lemma EvolvesRefl(s: Sys)
    ensures Evolves(s, s)
  {
  }

  lemma EvolvesTrans(s: Sys, t: Sys, u: Sys)
    requires Evolves(s, t) && Evolves(t, u)
    ensures Evolves(s, u)
  {
    forall k | k in s.table ensures k in u.table && Advances(s.table[k], u.table[k]) {
      assert Advances(s.table[k], t.table[k]) && Advances(t.table[k], u.table[k]);
    }
  }

  // ---------------------------------------------------------------- single rows

  lemma EditAdvances(r: Row, edit: Edit, clock: Time)
    requires WellFormed(r) && EditFits(r, edit)
    ensures var n := Rewritten(r, EditChanges(edit, clock), clock);
            Advances(r, n) && WellFormed(n) && n.attempts == r.attempts && (n.lease == None || n.lease == r.lease)
  {
  }

  lemma FinishAdvances(r: Row, snap: Row, evidence: Evidence, attempts: nat, clock: Time)
    requires WellFormed(r) && r.state == Running
    ensures var n := Rewritten(r, FinishChanges(snap, evidence, attempts, clock), clock);
            Advances(r, n) && WellFormed(n) && n.attempts == r.attempts && n.lease == None
  {
  }

  lemma ClaimAdvances(r: Row, expected: nat, lease: Lease, until: Time, now: Time)
    requires WellFormed(r)
    ensures var n := ClaimRow(r, expected, lease, until, now);
            n.Some? ==> Advances(r, n.value) && WellFormed(n.value) && n.value.attempts == r.attempts + 1
                        && n.value.lease == Some(lease) && n.value.key == r.key
  {
  }

  // ---------------------------------------------------------------- one lemma per transaction

  lemma InsertKeeps(s: Sys, m: nat, record: Row, thenClaim: bool)
    requires Inv(s) && m in s.managers && s.managers[m].plan == InsertJob(record, thenClaim)
    ensures Inv(WriteInsert(s, m, record, thenClaim)) && Evolves(s, WriteInsert(s, m, record, thenClaim))
  {
    assert PlanOk(s, m, s.managers[m].plan);
    if record.key !in s.table && JobIdUsed(s.table, record.job) {
      SetPlan(s, m, Free);
    } else {
      var written := if record.key in s.table then s else WithRow(s, record);
      if record.key !in s.table { InsertRow(s, record); } else { EvolvesRefl(s); assert RowOk(s, record.key); }
      var plan := if thenClaim then ClaimSeen(written.table[record.key], false) else Free;
      assert RowOk(written, record.key);
      SetPlan(written, m, plan);
      EvolvesTrans(s, written, WithPlan(written, m, plan));
    }
  }

  /** A conditional write that succeeds finds the row exactly as it was read. */
  lemma EditedRow(s: Sys, snap: Row, changes: Changes)
    requires Inv(s) && Seen(s, snap)
    ensures var u := UpdateRow(s.table[snap.key], Some(snap.version), None, changes, s.clock);
            u.Some? ==> s.table[snap.key] == snap && u.value == Rewritten(snap, changes, s.clock)
  {
  }

  lemma EditKeeps(s: Sys, m: nat, snap: Row, edit: Edit)
    requires Inv(s) && m in s.managers && s.managers[m].plan == Edited(snap, edit)
    ensures Inv(WriteEdit(s, m, snap, edit)) && Evolves(s, WriteEdit(s, m, snap, edit))
  {
    assert PlanOk(s, m, s.managers[m].plan);
    var changes := EditChanges(edit, s.clock);
    EditedRow(s, snap, changes);
    var u := UpdateRow(s.table[snap.key], Some(snap.version), None, changes, s.clock);
    var written := if u.Some? then WithRow(s, u.value) else s;
    assert RowOk(s, snap.key);
    if u.Some? { EditAdvances(snap, edit, s.clock); ReplaceRow(s, u.value); } else { EvolvesRefl(s); }
    var plan := if !edit.MakeDue? then Free
                else if u.Some? then ClaimNext(u.value, edit.now) else Reread(snap.key, edit.now);
    SetPlan(written, m, plan);
    EvolvesTrans(s, written, WithPlan(written, m, plan));
  }

  lemma SweepKeeps(s: Sys, m: nat, key: Key)
    requires Inv(s)
    ensures Inv(WriteSweep(s, m, key)) && Evolves(s, WriteSweep(s, m, key))
  {
    EvolvesRefl(s);
    if Known(s, m) && s.managers[m].plan.Sweep? && key in s.managers[m].plan.todo {
      var todo := s.managers[m].plan.todo;
      assert PlanOk(s, m, s.managers[m].plan);
      var snap := todo[key];
      EditedRow(s, snap, SweepChanges(s.clock));
      var u := UpdateRow(s.table[key], Some(snap.version), None, SweepChanges(s.clock), s.clock);
      var written := if u.Some? then WithRow(s, u.value) else s;
      assert RowOk(s, key);
      if u.Some? { ReplaceRow(s, u.value); }
      PlanSurvives(s, written, m, Sweep(todo));
      SetPlan(written, m, Sweep(todo - {key}));
      EvolvesTrans(s, written, WithPlan(written, m, Sweep(todo - {key})));
    }
  }

  lemma GrantEvolves(s: Sys, m: nat, row: Row, drawn: Lease)
    requires Inv(s) && m in s.managers && drawn !in s.workers && row.key in s.table
    requires Advances(s.table[row.key], row) && row.lease == Some(drawn)
    ensures Evolves(s, GrantRow(s, m, row, drawn)) && PlansOk(GrantRow(s, m, row, drawn))
  {
    var t := GrantRow(s, m, row, drawn);
    assert Evolves(s, t);
    PlansSurvive(s, t);
  }

  lemma OneMoreWorker(workers: map<Lease, Worker>, drawn: Lease, w: Worker, k: Key)
    requires drawn !in workers && !w.started
    ensures |Granted(workers[drawn := w], k)| == |Granted(workers, k)| + if k == w.key then 1 else 0
    ensures Begun(workers[drawn := w], k) == Begun(workers, k)
  {
    assert Granted(workers[drawn := w], k) == if k == w.key then Granted(workers, k) + {drawn} else Granted(workers, k);
  }

  lemma GrantCounts(s: Sys, m: nat, row: Row, drawn: Lease)
    requires CountersOk(s) && m in s.managers && drawn !in s.workers && row.key in s.table
    requires row.attempts == s.table[row.key].attempts + 1
    ensures CountersOk(GrantRow(s, m, row, drawn))
  {
    var t := GrantRow(s, m, row, drawn);
    forall k ensures Counted(t, k) {
      assert Counted(s, k);
      OneMoreWorker(s.workers, drawn, t.workers[drawn], k);
    }
  }

  lemma GrantKeeps(s: Sys, m: nat, row: Row, drawn: Lease)
    requires Inv(s) && m in s.managers && drawn !in s.workers && row.key in s.table
    requires Advances(s.table[row.key], row) && WellFormed(row) && row.lease == Some(drawn)
    requires row.attempts == s.table[row.key].attempts + 1
    ensures Inv(GrantRow(s, m, row, drawn)) && Evolves(s, GrantRow(s, m, row, drawn))
  {
    var t := GrantRow(s, m, row, drawn);
    GrantEvolves(s, m, row, drawn);
    GrantCounts(s, m, row, drawn);
    assert RowsOk(t) by { forall k ensures RowOk(t, k) { assert RowOk(s, k); } }
  }

  lemma GrantAndRelease(s: Sys, m: nat, row: Row, drawn: Lease)
    requires Inv(s) && m in s.managers && drawn !in s.workers && row.key in s.table
    requires Advances(s.table[row.key], row) && WellFormed(row) && row.lease == Some(drawn)
    requires row.attempts == s.table[row.key].attempts + 1
    ensures var t := WithPlan(GrantRow(s, m, row, drawn), m, Free); Inv(t) && Evolves(s, t)
  {
    var t := GrantRow(s, m, row, drawn);
    GrantKeeps(s, m, row, drawn);
    SetPlan(t, m, Free);
    EvolvesTrans(s, t, WithPlan(t, m, Free));
  }

  /** A claim grants the row to a worker that no earlier claim created. */
  lemma ClaimKeeps(s: Sys, m: nat, snap: Row, now: Time, drawn: Lease)
    requires Inv(s) && m in s.managers && s.managers[m].plan == ClaimNext(snap, now)
    ensures Inv(WriteClaim(s, m, snap, now, drawn)) && Evolves(s, WriteClaim(s, m, snap, now, drawn))
  {
    if drawn in s.workers {
      EvolvesRefl(s);
    } else {
      assert PlanOk(s, m, s.managers[m].plan);
      assert RowOk(s, snap.key);
      var until := now + s.managers[m].leaseSeconds;
      ClaimAdvances(s.table[snap.key], snap.version, drawn, until, now);
      var claimed := ClaimRow(s.table[snap.key], snap.version, drawn, until, now);
      if claimed.None? {
        SetPlan(s, m, Free);
      } else {
        GrantAndRelease(s, m, claimed.value, drawn);
      }
    }
  }

  lemma FinishKeeps(s: Sys, m: nat, lease: Lease, snap: Row)
    requires Inv(s) && m in s.managers && s.managers[m].plan == FinishSeen(lease, snap)
    ensures Inv(WriteFinish(s, m, lease, snap)) && Evolves(s, WriteFinish(s, m, lease, snap))
  {
    assert PlanOk(s, m, s.managers[m].plan);
    var worker := s.workers[lease];
    var changes := FinishChanges(snap, worker.pc.evidence, worker.attempts, s.clock);
    var u := UpdateRow(s.table[worker.key], None, Some(lease), changes, s.clock);
    assert RowOk(s, worker.key);
    var written := if u.Some? then WithRow(s, u.value) else s;
    if u.Some? {
      FinishAdvances(s.table[worker.key], snap, worker.pc.evidence, worker.attempts, s.clock);
      ReplaceRow(s, u.value);
    } else {
      EvolvesRefl(s);
    }
    ReleaseAndExit(written, m, lease);
    EvolvesTrans(s, written, WithPc(WithPlan(written, m, Free), lease, Exited));
  }

  /** The plan that names a finishing worker belongs to that worker's manager only. */
  lemma ReleaseAndExit(s: Sys, m: nat, lease: Lease)
    requires Inv(s) && m in s.managers && lease in s.workers
    requires s.managers[m].plan.FinishSeen? && s.managers[m].plan.lease == lease
    ensures Inv(WithPc(WithPlan(s, m, Free), lease, Exited)) && Evolves(s, WithPc(WithPlan(s, m, Free), lease, Exited))
  {
    assert PlanOk(s, m, s.managers[m].plan);
    SetPlan(s, m, Free);
    var t := WithPlan(s, m, Free);
    forall n | n in t.managers && t.managers[n].plan.FinishSeen? ensures t.managers[n].plan.lease != lease {
      assert PlanOk(t, n, t.managers[n].plan);
    }
    SetPc(t, lease, Exited);
    EvolvesTrans(s, t, WithPc(t, lease, Exited));
  }

  lemma RenewKeeps(s: Sys, lease: Lease, now: Time)
    requires Inv(s)
    ensures Inv(RenewLease(s, lease, now)) && Evolves(s, RenewLease(s, lease, now))
  {
    EvolvesRefl(s);
    if lease in s.workers && RenewLease(s, lease, now) != s {
      var key := s.workers[lease].key;
      assert RowOk(s, key);
      var until := now + s.managers[s.workers[lease].manager].leaseSeconds;
      var renewed := UpdateRow(s.table[key], None, Some(lease), Changes(leaseUntil := Set(Some(until))), s.clock);
      ReplaceRow(s, renewed.value);
    }
  }

  /** A worker that is not in its terminal section is not named by any plan. */
  lemma Unplanned(s: Sys, lease: Lease, m: nat)
    requires Inv(s) && lease in s.workers && m in s.managers
    requires !s.workers[lease].pc.Finishing? || Idle(s, s.workers[lease].manager)
    ensures !(s.managers[m].plan.FinishSeen? && s.managers[m].plan.lease == lease)
  {
    assert PlanOk(s, m, s.managers[m].plan);
  }

  lemma MoveWorker(s: Sys, lease: Lease, pc: Pc)
    requires Inv(s) && lease in s.workers
    requires !pc.Deleting? && !pc.Resolving?
    requires pc.Observing? || pc.Ready? ==> !s.workers[lease].started
    requires !s.workers[lease].pc.Finishing? || Idle(s, s.workers[lease].manager)
    ensures Inv(WithPc(s, lease, pc)) && Evolves(s, WithPc(s, lease, pc))
  {
    forall m | m in s.managers ensures !(s.managers[m].plan.FinishSeen? && s.managers[m].plan.lease == lease) {
      Unplanned(s, lease, m);
    }
    SetPc(s, lease, pc);
  }

  lemma StartEvolves(s: Sys, lease: Lease)
    requires Inv(s) && lease in s.workers && s.workers[lease].pc.Ready?
    ensures Evolves(s, StartRemote(s, lease)) && PlansOk(StartRemote(s, lease))
  {
    var t := StartRemote(s, lease);
    assert Evolves(s, t);
    forall m | m in t.managers ensures PlanOk(t, m, t.managers[m].plan) {
      Unplanned(s, lease, m);
      PlanSurvives(s, t, m, t.managers[m].plan);
    }
  }

  lemma OneMoreStart(workers: map<Lease, Worker>, lease: Lease, w: Worker, k: Key)
    requires lease in workers && !workers[lease].started && w.started && w.key == workers[lease].key
    ensures Granted(workers[lease := w], k) == Granted(workers, k)
    ensures |Begun(workers[lease := w], k)| == |Begun(workers, k)| + if k == w.key then 1 else 0
  {
    assert Begun(workers[lease := w], k) == if k == w.key then Begun(workers, k) + {lease} else Begun(workers, k);
  }

  lemma StartCounts(s: Sys, lease: Lease)
    requires CountersOk(s) && lease in s.workers && !s.workers[lease].started
    ensures CountersOk(StartRemote(s, lease))
  {
    var t := StartRemote(s, lease);
    forall k ensures Counted(t, k) {
      assert Counted(s, k);
      OneMoreStart(s.workers, lease, t.workers[lease], k);
    }
  }

  lemma DeleteKeeps(s: Sys, lease: Lease)
    requires Inv(s)
    ensures Inv(BeginDelete(s, lease)) && Evolves(s, BeginDelete(s, lease))
  {
    EvolvesRefl(s);
    if LockFreeFor(s, lease) && s.workers[lease].pc == Ready {
      if Authorized(s, lease) {
        var t := StartRemote(s, lease);
        StartEvolves(s, lease);
        StartCounts(s, lease);
        assert RowsOk(t) by { forall k ensures RowOk(t, k) { assert RowOk(s, k); } }
      } else {
        MoveWorker(s, lease, Exited);
      }
    }
  }

  lemma FinishReadKeeps(s: Sys, lease: Lease)
    requires Inv(s)
    ensures Inv(FinishRead(s, lease)) && Evolves(s, FinishRead(s, lease))
  {
    EvolvesRefl(s);
    if LockFreeFor(s, lease) && s.workers[lease].pc.Finishing? && s.workers[lease].key in s.table {
      var worker := s.workers[lease];
      assert RowOk(s, worker.key);
      if worker.generation != s.managers[worker.manager].generation {
        MoveWorker(s, lease, Exited);
      } else {
        SetPlan(s, worker.manager, FinishSeen(lease, s.table[worker.key]));
      }
    }
  }

  lemma DecideKeeps(s: Sys, m: nat)
    requires Inv(s)
    ensures Inv(DecideNext(s, m)) && Evolves(s, DecideNext(s, m))
  {
    EvolvesRefl(s);
    if Known(s, m) {
      assert PlanOk(s, m, s.managers[m].plan);
      match s.managers[m].plan
      case RetainSeen(snap) =>
        SetPlan(s, m, Edited(snap, if snap.state == Running && Deadline(snap) > s.clock then Mark else RetainByRequest));
      case ClaimSeen(snap, automatic) =>
        if Marked(snap) {
          SetPlan(s, m, if Deadline(snap) <= s.clock then Edited(snap, RetainExpiredClaim) else Free);
        } else if !automatic && (snap.state == Pending || snap.state == Failed) && snap.dueAt > s.clock {
          SetPlan(s, m, Edited(snap, MakeDue(s.clock)));
        } else {
          SetPlan(s, m, ClaimNext(snap, s.clock));
        }
      case _ =>
    }
  }

  lemma CurrentIsSeen(s: Sys, k: Key)
    requires Inv(s) && k in s.table
    ensures s.table[k].key == k && Seen(s, s.table[k])
  {
    assert RowOk(s, k);
  }

  lemma RetainKeeps(s: Sys, m: nat, cid: string)
    requires Inv(s)
    ensures Inv(BeginRetain(s, m, cid)) && Evolves(s, BeginRetain(s, m, cid))
  {
    EvolvesRefl(s);
    if CanCall(s, m) && KeyFor(s, m, cid) in s.table && s.table[KeyFor(s, m, cid)].state != Completed {
      CurrentIsSeen(s, KeyFor(s, m, cid));
      SetPlan(s, m, RetainSeen(s.table[KeyFor(s, m, cid)]));
    }
  }

  lemma RemoveKeeps(s: Sys, m: nat, cid: string, due: Time, explicitDelay: bool, job: string)
    requires Inv(s)
    ensures var t := BeginRemove(s, m, cid, due, explicitDelay, job); Inv(t) && Evolves(s, t)
  {
    EvolvesRefl(s);
    if CanCall(s, m) {
      var key := KeyFor(s, m, cid);
      if key !in s.table {
        SetPlan(s, m, InsertJob(NewJob(key, due, job, s.clock), false));
      } else {
        CurrentIsSeen(s, key);
        var row := s.table[key];
        if (row.state == Pending || row.state == Failed) && explicitDelay && due < row.dueAt {
          SetPlan(s, m, Edited(row, Reschedule(due)));
        }
      }
    }
  }

  lemma BeginClaimKeeps(s: Sys, m: nat, cid: string, expected: Option<nat>, durable: bool, job: string)
    requires Inv(s)
    ensures var t := BeginClaim(s, m, cid, expected, durable, job); Inv(t) && Evolves(s, t)
  {
    EvolvesRefl(s);
    if CanCall(s, m) {
      var key := KeyFor(s, m, cid);
      if key !in s.table {
        if durable && expected.None? {
          SetPlan(s, m, InsertJob(NewJob(key, s.clock, job, s.clock), true));
        }
      } else {
        CurrentIsSeen(s, key);
        SetPlan(s, m, ClaimSeen(s.table[key], expected.Some?));
      }
    }
  }

  lemma CancelKeeps(s: Sys, m: nat, cid: string)
    requires Inv(s)
    ensures Inv(BeginCancel(s, m, cid)) && Evolves(s, BeginCancel(s, m, cid))
  {
    EvolvesRefl(s);
    if CanCall(s, m) && KeyFor(s, m, cid) in s.table && !Withdrawn(s.table[KeyFor(s, m, cid)]) {
      CurrentIsSeen(s, KeyFor(s, m, cid));
      SetPlan(s, m, Edited(s.table[KeyFor(s, m, cid)], CancelByRequest));
    }
  }

  /** Only clocks, generations, scopes and finished sweeps change: no row and no worker does. */
  lemma QuietKeeps(s: Sys, t: Sys)
    requires Inv(s)
    requires t.table == s.table && t.workers == s.workers && t.claims == s.claims && t.starts == s.starts
    requires s.clock <= t.clock && t.managers.Keys == s.managers.Keys
    requires forall m :: m in s.managers ==> t.managers[m].leaseSeconds == s.managers[m].leaseSeconds
    requires forall m :: m in s.managers ==> t.managers[m].plan == s.managers[m].plan || t.managers[m].plan.Free?
    ensures Inv(t) && Evolves(s, t)
  {
    assert Evolves(s, t);
    PlansSurvive(s, t);
    SameCounters(s, t);
    RowsSurvive(s, t);
  }

  lemma SwitchKeeps(s: Sys, m: nat)
    requires Inv(s)
    ensures Inv(BeginSwitch(s, m)) && Evolves(s, BeginSwitch(s, m))
  {
    EvolvesRefl(s);
    if Idle(s, m) {
      if s.managers[m].scope.None? {
        QuietKeeps(s, BeginSwitch(s, m));
      } else {
        var plan := BeginSwitch(s, m).managers[m].plan;
        forall k | k in plan.todo ensures plan.todo[k].key == k && Seen(s, plan.todo[k]) { CurrentIsSeen(s, k); }
        SetPlan(s, m, plan);
      }
    }
  }

  lemma AbortKeeps(s: Sys, m: nat)
    requires Inv(s)
    ensures Inv(AbortCall(s, m)) && Evolves(s, AbortCall(s, m))
  {
    EvolvesRefl(s);
    if Known(s, m) {
      if s.managers[m].plan.FinishSeen? {
        ReleaseAndExit(s, m, s.managers[m].plan.lease);
      } else {
        SetPlan(s, m, Free);
      }
    }
  }

  lemma WriteKeeps(s: Sys, m: nat, drawn: Lease)
    requires Inv(s)
    ensures Inv(WriteNext(s, m, drawn)) && Evolves(s, WriteNext(s, m, drawn))
  {
    EvolvesRefl(s);
    if Known(s, m) {
      match s.managers[m].plan
      case InsertJob(record, thenClaim) => InsertKeeps(s, m, record, thenClaim);
      case Edited(snap, edit) => EditKeeps(s, m, snap, edit);
      case Reread(key, now) =>
        assert PlanOk(s, m, s.managers[m].plan) && RowOk(s, key);
        SetPlan(s, m, ClaimNext(s.table[key], now));
      case ClaimNext(snap, now) => ClaimKeeps(s, m, snap, now, drawn);
      case FinishSeen(lease, snap) => FinishKeeps(s, m, lease, snap);
      case _ =>
    }
  }

  lemma AuthorityKeeps(s: Sys, lease: Lease)
    requires Inv(s)
    ensures Inv(CheckAuthority(s, lease)) && Evolves(s, CheckAuthority(s, lease))
  {
    EvolvesRefl(s);
    if LockFreeFor(s, lease) && s.workers[lease].pc == Resolving {
      MoveWorker(s, lease, if !Authorized(s, lease) then Exited else if s.workers[lease].attempts > 1 then Observing else Ready);
    }
  }

  lemma ObserveKeeps(s: Sys, lease: Lease, absent: bool)
    requires Inv(s)
    ensures Inv(ObserveAbsence(s, lease, absent)) && Evolves(s, ObserveAbsence(s, lease, absent))
  {
    EvolvesRefl(s);
    if lease in s.workers && s.workers[lease].pc == Observing {
      MoveWorker(s, lease, if absent then Finishing(Evidence(true, "", NotObserved)) else Ready);
    }
  }

  lemma OutcomeKeeps(s: Sys, lease: Lease, evidence: Evidence)
    requires Inv(s)
    ensures Inv(DeleteReturned(s, lease, evidence)) && Evolves(s, DeleteReturned(s, lease, evidence))
  {
    EvolvesRefl(s);
    if lease in s.workers && s.workers[lease].pc == Deleting {
      MoveWorker(s, lease, Finishing(evidence));
    }
  }

  lemma InterruptKeeps(s: Sys, lease: Lease, code: string)
    requires Inv(s)
    ensures Inv(Interrupted(s, lease, code)) && Evolves(s, Interrupted(s, lease, code))
  {
    EvolvesRefl(s);
    if lease in s.workers && !s.workers[lease].pc.Finishing? && !s.workers[lease].pc.Exited? {
      MoveWorker(s, lease, Finishing(Evidence(false, code, NotObserved)));
    }
  }

  predicate IsCall(e: Event) {
    e.Retain? || e.Remove? || e.Claim? || e.Cancel? || e.Tick? || e.Bind? || e.SwitchAccount? || e.SweepDone?
  }

  predicate IsWorker(e: Event) {
    e.Authorize? || e.Observe? || e.Interrupt? || e.Heartbeat?
  }

  predicate IsDelete(e: Event) {
    e.StartDelete? || e.Outcome? || e.BeginFinish?
  }

  lemma BindKeeps(s: Sys, m: nat, scope: string)
    requires Inv(s)
    ensures Inv(BindScope(s, m, scope)) && Evolves(s, BindScope(s, m, scope))
  {
    QuietKeeps(s, BindScope(s, m, scope));
  }

  lemma EndSweepKeeps(s: Sys, m: nat)
    requires Inv(s)
    ensures Inv(EndSweep(s, m)) && Evolves(s, EndSweep(s, m))
  {
    QuietKeeps(s, EndSweep(s, m));
  }

  lemma TickKeeps(s: Sys, elapsed: Time)
    requires Inv(s)
    ensures Inv(Step(s, Tick(elapsed))) && Evolves(s, Step(s, Tick(elapsed)))
  {
    QuietKeeps(s, Step(s, Tick(elapsed)));
  }

  lemma CallEventKeeps(s: Sys, e: Event)
    requires Inv(s) && IsCall(e)
    ensures Inv(Step(s, e)) && Evolves(s, Step(s, e))
  {
    match e
    case Tick(elapsed) => TickKeeps(s, elapsed);
    case Bind(m, scope) => BindKeeps(s, m, scope);
    case SwitchAccount(m) => SwitchKeeps(s, m);
    case SweepDone(m) => EndSweepKeeps(s, m);
    case Retain(m, cid) => RetainKeeps(s, m, cid);
    case Remove(m, cid, due, explicitDelay, job) => RemoveKeeps(s, m, cid, due, explicitDelay, job);
    case Claim(m, cid, expected, durable, job) => BeginClaimKeeps(s, m, cid, expected, durable, job);
    case Cancel(m, cid) => CancelKeeps(s, m, cid);
  }

  lemma WorkerEventKeeps(s: Sys, e: Event)
    requires Inv(s) && IsWorker(e)
    ensures Inv(Step(s, e)) && Evolves(s, Step(s, e))
  {
    match e
    case Heartbeat(lease, now) => RenewKeeps(s, lease, now);
    case Authorize(lease) => AuthorityKeeps(s, lease);
    case Observe(lease, absent) => ObserveKeeps(s, lease, absent);
    case Interrupt(lease, code) => InterruptKeeps(s, lease, code);
  }

  lemma DeleteEventKeeps(s: Sys, e: Event)
    requires Inv(s) && IsDelete(e)
    ensures Inv(Step(s, e)) && Evolves(s, Step(s, e))
  {
    match e
    case StartDelete(lease) => DeleteKeeps(s, lease);
    case Outcome(lease, evidence) => OutcomeKeeps(s, lease, evidence);
    case BeginFinish(lease) => FinishReadKeeps(s, lease);
  }

  /** Every event keeps the invariant and moves rows only as `Advances` allows. */
  lemma StepKeeps(s: Sys, e: Event)
    requires Inv(s)
    ensures Inv(Step(s, e)) && Evolves(s, Step(s, e))
  {
    if IsCall(e) {
      CallEventKeeps(s, e);
    } else if IsWorker(e) {
      WorkerEventKeeps(s, e);
    } else if IsDelete(e) {
      DeleteEventKeeps(s, e);
    } else {
      match e
      case Decide(m) => DecideKeeps(s, m);
      case Write(m, drawn) => WriteKeeps(s, m, drawn);
      case SweepOne(m, key) => SweepKeeps(s, m, key);
      case Abort(m) => AbortKeeps(s, m);
    }
  }

  lemma InitialHolds(s: Sys)
    requires Initial(s)
    ensures Inv(s)
  {
    forall k ensures Counted(s, k) {
      assert Granted(s.workers, k) == {} && Begun(s.workers, k) == {};
    }
  }

  lemma {:induction false} RunKeeps(s: Sys, events: seq<Event>)
    requires Inv(s)
    ensures Inv(Run(s, events)) && Evolves(s, Run(s, events))
    decreases |events|
  {
    if events == [] {
      EvolvesRefl(s);
    } else {
      var t := Run(s, events[..|events| - 1]);
      RunKeeps(s, events[..|events| - 1]);
      StepKeeps(t, events[|events| - 1]);
      EvolvesTrans(s, t, Run(s, events));
    }
  }
}
