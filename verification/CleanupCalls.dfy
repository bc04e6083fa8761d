/**
 What each call of a manager is for: the row it leaves, field by field, when nobody
 interrupts it, and what that row then promises over any run.
 */
module CleanupCalls {
  import opened Common
  import opened CleanupStore
  import opened CleanupProtocol
  import opened CleanupInvariant
  import opened CleanupSafety
  import opened CleanupRetainMark
  import opened CleanupScenarios

  /** Only row `k` has changed, and every lock is as free as before. */
  predicate OneRow(s: Sys, t: Sys, k: Key) {
    && k in t.table && t.table == s.table[k := t.table[k]]
    && t.clock == s.clock && t.managers == s.managers && t.workers == s.workers && t.claims == s.claims && t.starts == s.starts
  }

  /** The fields of a row that say what is to be deleted, and how often that was tried. */
  predicate SameJob(o: Row, n: Row) {
    n.job == o.job && n.key == o.key && n.createdAt == o.createdAt && n.attempts == o.attempts
  }

  lemma EditIsWritten(s: Sys, m: nat, snap: Row, edit: Edit, drawn: Lease)
    requires m in s.managers && s.managers[m].plan == Edited(snap, edit) && !edit.MakeDue?
    requires snap.key in s.table && s.table[snap.key] == snap && snap.state != Completed
    ensures var t := Step(s, Write(m, drawn));
            && OneRow(s.(managers := t.managers), t, snap.key) && t.managers == s.managers[m := s.managers[m].(plan := Free)]
            && Carries(snap, t.table[snap.key], EditChanges(edit, s.clock), s.clock)
  {
    UpdateCarries(snap, Some(snap.version), None, EditChanges(edit, s.clock), s.clock);
  }

  // ---------------------------------------------------------------- retention

  lemma RetainIsRead(s: Sys, m: nat, k: Key)
    requires Serves(s, m, k) && k in s.table && s.table[k].state != Completed
    ensures Step(s, Retain(m, k.resource)) == WithPlan(s, m, RetainSeen(s.table[k]))
  {
    assert KeyFor(s, m, k.resource) == k;
  }

  lemma RetainIsDecided(s: Sys, m: nat, snap: Row)
    requires m in s.managers && s.managers[m].plan == RetainSeen(snap)
    ensures Step(s, Decide(m)) == WithPlan(s, m, Edited(snap, if snap.state == Running && Deadline(snap) > s.clock then Mark else RetainByRequest))
  {
  }

  /** The three steps of a retention that nobody interrupts. */
  function Retaining(s: Sys, m: nat, k: Key): Sys {
    Step(Step(Step(s, Retain(m, k.resource)), Decide(m)), Write(m, 0))
  }

  lemma RetainWrites(s: Sys, m: nat, k: Key)
    requires Serves(s, m, k) && k in s.table && s.table[k].key == k && s.table[k].state != Completed
    ensures var row := s.table[k]; var t := Retaining(s, m, k);
            && OneRow(s, t, k)
            && Carries(row, t.table[k], EditChanges(if row.state == Running && Deadline(row) > s.clock then Mark else RetainByRequest, s.clock), s.clock)
  {
    var row := s.table[k];
    var edit := if row.state == Running && Deadline(row) > s.clock then Mark else RetainByRequest;
    RetainIsRead(s, m, k);
    var s1 := WithPlan(s, m, RetainSeen(row));
    RetainIsDecided(s1, m, row);
    var s2 := WithPlan(s1, m, Edited(row, edit));
    EditIsWritten(s2, m, row, edit, 0);
    PlanRestored(s, m, Edited(row, edit));
    assert s2.managers[m := s2.managers[m].(plan := Free)] == s.managers;
  }

  /**
   Retaining a chat retains it: a row that is not completed, and not running under a live
   lease, becomes retained on request, and no step of any later run ever claims it.
   */
  lemma RetainedForGood(s: Sys, m: nat, k: Key, events: seq<Event>, e: Event)
    requires Reachable(s) && Serves(s, m, k) && k in s.table && s.table[k].state != Completed
    requires !(s.table[k].state == Running && Deadline(s.table[k]) > s.clock)
    ensures var t := Retaining(s, m, k);
            && OneRow(s, t, k) && SameJob(s.table[k], t.table[k])
            && t.table[k].state == Retained && t.table[k].status == RetainedByRequest && t.table[k].lease == None
            && t.table[k].dueAt == s.table[k].dueAt && t.table[k].error == s.table[k].error
            && k in Run(t, events).table && Run(t, events).table[k].state == Retained
            && !Grants(Run(t, events), e, k)
  {
    ReachableHolds(s);
    assert RowOk(s, k);
    RetainWrites(s, m, k);
    ReachableStep3(s, Retain(m, k.resource), Decide(m), Write(m, 0));
    WithdrawnForever(Retaining(s, m, k), events, k);
  }

  /** A row that runs under a live lease is marked, and goes on running under that lease. */
  lemma RunningIsMarked(s: Sys, m: nat, k: Key)
    requires Serves(s, m, k) && k in s.table && s.table[k].key == k
    requires s.table[k].state == Running && Deadline(s.table[k]) > s.clock
    ensures var row := s.table[k]; var t := Retaining(s, m, k);
            && OneRow(s, t, k) && SameJob(row, t.table[k])
            && t.table[k].state == Running && t.table[k].error == Some(RetainAfterClaim)
            && t.table[k].lease == row.lease && t.table[k].leaseUntil == row.leaseUntil
            && t.table[k].dueAt == row.dueAt && t.table[k].status == row.status
  {
    RetainWrites(s, m, k);
  }

  /** A completed or unknown chat is left alone. */
  lemma RetainLeaves(s: Sys, m: nat, k: Key)
    requires Serves(s, m, k) && (k in s.table ==> s.table[k].state == Completed)
    ensures Retaining(s, m, k) == s
  {
    assert KeyFor(s, m, k.resource) == k;
  }

  // ---------------------------------------------------------------- cancellation

  function Cancelling(s: Sys, m: nat, k: Key): Sys {
    Step(Step(s, Cancel(m, k.resource)), Write(m, 0))
  }

  lemma CancelWrites(s: Sys, m: nat, k: Key)
    requires Serves(s, m, k) && k in s.table && s.table[k].key == k && !Withdrawn(s.table[k])
    ensures var t := Cancelling(s, m, k);
            OneRow(s, t, k) && Carries(s.table[k], t.table[k], EditChanges(CancelByRequest, s.clock), s.clock)
  {
    assert KeyFor(s, m, k.resource) == k;
    var row := s.table[k];
    assert Step(s, Cancel(m, k.resource)) == WithPlan(s, m, Edited(row, CancelByRequest));
    var s1 := WithPlan(s, m, Edited(row, CancelByRequest));
    EditIsWritten(s1, m, row, CancelByRequest, 0);
    PlanRestored(s, m, Edited(row, CancelByRequest));
    assert s1.managers[m := s1.managers[m].(plan := Free)] == s.managers;
  }

  /** Cancelling withdraws a row that was not withdrawn yet, and no step of any later run claims it. */
  lemma CancelledForGood(s: Sys, m: nat, k: Key, events: seq<Event>, e: Event)
    requires Reachable(s) && Serves(s, m, k) && k in s.table
    requires s.table[k].state == Pending || s.table[k].state == Running || s.table[k].state == Failed
    ensures var row := s.table[k]; var t := Cancelling(s, m, k); var u := Run(t, events);
            && OneRow(s, t, k) && SameJob(row, t.table[k])
            && t.table[k].state == Cancelled && t.table[k].error == Some(Code.CancelledByRequest)
            && t.table[k].status == NotObserved && t.table[k].lease == None && t.table[k].expiresAt == s.clock + 604800.0
            && k in u.table && (u.table[k].state == Cancelled || u.table[k].state == Retained)
            && !Grants(u, e, k)
  {
    ReachableHolds(s);
    assert RowOk(s, k);
    CancelWrites(s, m, k);
    ReachableStep(s, Cancel(m, k.resource));
    ReachableStep(Step(s, Cancel(m, k.resource)), Write(m, 0));
    WithdrawnForever(Cancelling(s, m, k), events, k);
  }

  // ---------------------------------------------------------------- scheduling

  function Scheduling(s: Sys, m: nat, k: Key, due: Time, explicitDelay: bool, job: string): Sys {
    Step(Step(s, Remove(m, k.resource, due, explicitDelay, job)), Write(m, 0))
  }

  /** A chat scheduled for the first time gets one pending job, due when it was asked for. */
  lemma FirstScheduleStores(s: Sys, m: nat, k: Key, due: Time, job: string)
    requires Serves(s, m, k) && k !in s.table && !JobIdUsed(s.table, job)
    ensures var t := Scheduling(s, m, k, due, false, job);
            && OneRow(s, t, k)
            && t.table[k].key == k && t.table[k].job == job && t.table[k].state == Pending && t.table[k].dueAt == due
            && t.table[k].attempts == 0 && t.table[k].version == 0 && t.table[k].lease == None && t.table[k].leaseUntil == None
            && t.table[k].error == None && t.table[k].status == NotObserved
            && t.table[k].createdAt == s.clock && t.table[k].expiresAt == Max(s.clock, due) + 604800.0
  {
    RemoveAlone(s, m, k, due, job, 0);
  }

  /** An explicit earlier delay moves a waiting job's due time to exactly what was asked. */
  lemma EarlierScheduleMoves(s: Sys, m: nat, k: Key, due: Time, job: string)
    requires Serves(s, m, k) && k in s.table && s.table[k].key == k
    requires s.table[k].state == Pending || s.table[k].state == Failed
    requires due < s.table[k].dueAt
    ensures var row := s.table[k]; var t := Scheduling(s, m, k, due, true, job);
            && OneRow(s, t, k) && SameJob(row, t.table[k])
            && t.table[k].dueAt == due && t.table[k].expiresAt == Max(s.clock, due) + 604800.0
            && t.table[k].state == row.state && t.table[k].status == row.status && t.table[k].error == row.error
  {
    assert KeyFor(s, m, k.resource) == k;
    var row := s.table[k];
    assert Step(s, Remove(m, k.resource, due, true, job)) == WithPlan(s, m, Edited(row, Reschedule(due)));
    var s1 := WithPlan(s, m, Edited(row, Reschedule(due)));
    EditIsWritten(s1, m, row, Reschedule(due), 0);
    PlanRestored(s, m, Edited(row, Reschedule(due)));
    assert s1.managers[m := s1.managers[m].(plan := Free)] == s.managers;
  }

  /** Any other repetition leaves the job as it is. */
  lemma RepeatedScheduleLeaves(s: Sys, m: nat, k: Key, due: Time, explicitDelay: bool, job: string)
    requires Serves(s, m, k) && k in s.table
    requires !explicitDelay || due >= s.table[k].dueAt || s.table[k].state == Running || Withdrawn(s.table[k])
    ensures Scheduling(s, m, k, due, explicitDelay, job) == s
  {
    assert KeyFor(s, m, k.resource) == k;
  }

  // ---------------------------------------------------------------- heartbeats

  /**
   A heartbeat of a worker that still holds its row moves the deadline to one lease after
   the time it sampled, and nothing else.  Over any run the row is taken from under that
   lease by nobody before that time.
   */
  lemma HeartbeatProtects(s: Sys, lease: Lease, now: Time, events: seq<Event>, e: Event)
    requires Reachable(s) && Authorized(s, lease) && !s.workers[lease].pc.Exited? && now <= s.clock
    requires Deadline(s.table[s.workers[lease].key]) <= now + s.managers[s.workers[lease].manager].leaseSeconds
    ensures var k := s.workers[lease].key; var t := Step(s, Heartbeat(lease, now));
            var until := now + s.managers[s.workers[lease].manager].leaseSeconds; var u := Run(t, events);
            && OneRow(s, t, k) && Renewed(s.table[k], t.table[k], until)
            && k in u.table
            && (u.table[k].lease == Some(lease) ==> until <= Deadline(u.table[k]))
            && (u.table[k].lease == Some(lease) && Grants(u, e, k) ==> until <= u.clock)
  {
    var k := s.workers[lease].key;
    ReachableHolds(s);
    assert RowOk(s, k);
    var t := Step(s, Heartbeat(lease, now));
    HeartbeatRenews(s, lease, now);
    ReachableStep(s, Heartbeat(lease, now));
    ReachableHolds(t);
    RunKeeps(t, events);
    HeldIsNotGranted(t, Run(t, events), lease, k, e);
  }

  /** While a row stays under a lease, its deadline only moves on, and nobody claims it before. */
  lemma HeldIsNotGranted(t: Sys, u: Sys, lease: Lease, k: Key, e: Event)
    requires Inv(u) && Evolves(t, u) && k in t.table && t.table[k].lease == Some(lease) && lease in t.workers
    ensures k in u.table
    ensures u.table[k].lease == Some(lease) ==> Deadline(t.table[k]) <= Deadline(u.table[k])
    ensures u.table[k].lease == Some(lease) && Grants(u, e, k) ==> Deadline(t.table[k]) <= u.clock
  {
    assert LeaseIsNew(t, t.table[k], u.table[k]);
    assert RowOk(u, k);
  }

  lemma HeartbeatRenews(s: Sys, lease: Lease, now: Time)
    requires Authorized(s, lease) && now <= s.clock && !s.workers[lease].pc.Exited? && s.table[s.workers[lease].key].key == s.workers[lease].key
    requires Deadline(s.table[s.workers[lease].key]) <= now + s.managers[s.workers[lease].manager].leaseSeconds
    ensures var k := s.workers[lease].key; var t := Step(s, Heartbeat(lease, now));
            OneRow(s, t, k) && Renewed(s.table[k], t.table[k], now + s.managers[s.workers[lease].manager].leaseSeconds)
  {
    var until := now + s.managers[s.workers[lease].manager].leaseSeconds;
    UpdateCarries(s.table[s.workers[lease].key], None, Some(lease), Changes(leaseUntil := Set(Some(until))), s.clock);
  }

  // ---------------------------------------------------------------- claims

  function Claiming(s: Sys, m: nat, k: Key, expected: Option<nat>, drawn: Lease): Sys {
    Step(Step(Step(s, Claim(m, k.resource, expected, false, "")), Decide(m)), Write(m, drawn))
  }

  /** `m` was granted row `k`, read as `row`, under lease `drawn`, and a worker exists that has not begun. */
  predicate Claimed(s: Sys, t: Sys, m: nat, k: Key, row: Row, drawn: Lease)
    requires m in s.managers
  {
    && k in t.table && t.table == s.table[k := t.table[k]]
    && Grasped(row, t.table[k], drawn, s.clock + s.managers[m].leaseSeconds, s.clock)
    && t.workers == s.workers[drawn := Worker(m, s.managers[m].generation, k, row.attempts + 1, false, Resolving)]
    && t.managers == s.managers && t.clock == s.clock && t.starts == s.starts
    && t.claims == s.claims[k := Count(s.claims, k) + 1]
  }

  lemma ClaimIsRead(s: Sys, m: nat, k: Key, expected: Option<nat>)
    requires Serves(s, m, k) && k in s.table && (expected.Some? ==> s.table[k].version == expected.value)
    ensures Step(s, Claim(m, k.resource, expected, false, "")) == WithPlan(s, m, ClaimSeen(s.table[k], expected.Some?))
  {
    assert KeyFor(s, m, k.resource) == k;
  }

  /** A claim whose row can be had at once, explicit or automatic. */
  lemma ReadyRowIsClaimed(s: Sys, m: nat, k: Key, expected: Option<nat>, drawn: Lease)
    requires Serves(s, m, k) && k in s.table && s.table[k].key == k && drawn !in s.workers && s.managers[m].leaseSeconds > 0.0
    requires expected.Some? ==> s.table[k].version == expected.value
    requires || ((s.table[k].state == Pending || s.table[k].state == Failed) && s.table[k].dueAt <= s.clock)
             || (s.table[k].state == Running && Deadline(s.table[k]) <= s.clock && !Marked(s.table[k]))
    ensures Claimed(s, Claiming(s, m, k, expected, drawn), m, k, s.table[k], drawn)
  {
    var row := s.table[k];
    ClaimIsRead(s, m, k, expected);
    var s1 := WithPlan(s, m, ClaimSeen(row, expected.Some?));
    assert Step(s1, Decide(m)) == WithPlan(s1, m, ClaimNext(row, s.clock));
    assert WithPlan(s1, m, ClaimNext(row, s.clock)).managers == WithPlan(s, m, ClaimNext(row, s.clock)).managers;
    WriteToClaim(s, m, row, drawn);
    ClaimGrasps(row, row.version, drawn, s.clock + s.managers[m].leaseSeconds, s.clock);
  }

  /** An explicit claim does not wait for the due time; the job is due from now on. */
  lemma WaitingRowIsClaimed(s: Sys, m: nat, k: Key, drawn: Lease)
    requires Serves(s, m, k) && k in s.table && s.table[k].key == k && drawn !in s.workers && s.managers[m].leaseSeconds > 0.0
    requires (s.table[k].state == Pending || s.table[k].state == Failed) && s.table[k].dueAt > s.clock
    ensures var t := Step(Step(Step(Step(s, Claim(m, k.resource, None, false, "")), Decide(m)), Write(m, 0)), Write(m, drawn));
            && k in t.table && t.table == s.table[k := t.table[k]]
            && t.table[k].state == Running && t.table[k].lease == Some(drawn) && t.table[k].dueAt == s.clock
            && t.table[k].leaseUntil == Some(s.clock + s.managers[m].leaseSeconds)
            && t.table[k].attempts == s.table[k].attempts + 1
            && t.workers == s.workers[drawn := Worker(m, s.managers[m].generation, k, s.table[k].attempts + 1, false, Resolving)]
            && t.managers == s.managers
  {
    EarlyClaimAlone(s, m, k, drawn);
    var due := MadeDue(s.table[k], s.clock);
    UpdateCarries(s.table[k], None, None, EditChanges(MakeDue(s.clock), s.clock), s.clock);
    ClaimGrasps(due, due.version, drawn, s.clock + s.managers[m].leaseSeconds, s.clock);
    GrantReplaces(s, m, due, ClaimRow(due, due.version, drawn, s.clock + s.managers[m].leaseSeconds, s.clock).value, drawn);
  }

  lemma GrantReplaces(s: Sys, m: nat, due: Row, row: Row, drawn: Lease)
    requires m in s.managers && due.key == row.key
    ensures var t := GrantRow(WithRow(s, due), m, row, drawn);
            && t.table == s.table[row.key := row] && t.managers == s.managers
            && t.workers == s.workers[drawn := Worker(m, s.managers[m].generation, row.key, row.attempts, false, Resolving)]
  {
  }

  /** A chat without a job gets one, due at once, when the deletion may be kept durably; else nothing. */
  lemma UnknownChatIsEnqueued(s: Sys, m: nat, k: Key, job: string)
    requires Serves(s, m, k) && k !in s.table && !JobIdUsed(s.table, job)
    ensures var t := Step(Step(s, Claim(m, k.resource, None, true, job)), Write(m, 0));
            && k in t.table && t.table == s.table[k := t.table[k]]
            && t.table[k].state == Pending && t.table[k].dueAt == s.clock && t.table[k].attempts == 0 && t.table[k].key == k
            && t.managers == s.managers[m := s.managers[m].(plan := ClaimSeen(t.table[k], false))] && t.workers == s.workers
    ensures Step(s, Claim(m, k.resource, None, false, job)) == s
  {
    assert KeyFor(s, m, k.resource) == k;
    var record := NewJob(k, s.clock, job, s.clock);
    assert Step(s, Claim(m, k.resource, None, true, job)) == WithPlan(s, m, InsertJob(record, true));
  }

  /** A settled row, a live lease, a job that is not due, or a changed version: nothing is claimed. */
  lemma OtherRowIsNotClaimed(s: Sys, m: nat, k: Key, expected: Option<nat>, drawn: Lease)
    requires Serves(s, m, k) && k in s.table && s.table[k].key == k && drawn !in s.workers
    requires || Withdrawn(s.table[k])
             || (s.table[k].state == Running && Deadline(s.table[k]) > s.clock)
             || (expected.Some? && (s.table[k].version != expected.value || (s.table[k].state != Running && s.table[k].dueAt > s.clock)))
    ensures Claiming(s, m, k, expected, drawn) == s
  {
    if expected.Some? && s.table[k].version != expected.value {
      ChangedIsLeft(s, m, k, expected.value, drawn);
    } else {
      ClaimIsRead(s, m, k, expected);
      SeenIsLeft(s, m, s.table[k], expected.Some?, drawn);
    }
  }

  lemma ChangedIsLeft(s: Sys, m: nat, k: Key, expected: nat, drawn: Lease)
    requires Serves(s, m, k) && k in s.table && s.table[k].version != expected
    ensures Claiming(s, m, k, Some(expected), drawn) == s
  {
    assert KeyFor(s, m, k.resource) == k;
  }

  lemma SeenIsLeft(s: Sys, m: nat, row: Row, automatic: bool, drawn: Lease)
    requires Idle(s, m) && row.key in s.table && s.table[row.key] == row && drawn !in s.workers
    requires || Withdrawn(row) || (row.state == Running && Deadline(row) > s.clock)
             || (automatic && row.state != Running && row.dueAt > s.clock)
    ensures Step(Step(WithPlan(s, m, ClaimSeen(row, automatic)), Decide(m)), Write(m, drawn)) == s
  {
    var s1 := WithPlan(s, m, ClaimSeen(row, automatic));
    PlanRestored(s, m, ClaimSeen(row, automatic));
    PlanRestored(s, m, ClaimNext(row, s.clock));
    if !Marked(row) {
      assert Step(s1, Decide(m)).managers == WithPlan(s, m, ClaimNext(row, s.clock)).managers;
    }
  }

  /** A marked row whose lease has run out is not claimed: it becomes retained. */
  lemma MarkedRowIsRetained(s: Sys, m: nat, k: Key, expected: Option<nat>, drawn: Lease)
    requires Serves(s, m, k) && k in s.table && s.table[k].key == k && Marked(s.table[k]) && Deadline(s.table[k]) <= s.clock
    requires expected.Some? ==> s.table[k].version == expected.value
    ensures var t := Claiming(s, m, k, expected, drawn);
            && OneRow(s, t, k) && SameJob(s.table[k], t.table[k])
            && t.table[k].state == Retained && t.table[k].status == Status.RetainedAfterClaim && t.table[k].lease == None
  {
    var row := s.table[k];
    ClaimIsRead(s, m, k, expected);
    var s1 := WithPlan(s, m, ClaimSeen(row, expected.Some?));
    assert Step(s1, Decide(m)) == WithPlan(s1, m, Edited(row, RetainExpiredClaim));
    EditIsWritten(WithPlan(s1, m, Edited(row, RetainExpiredClaim)), m, row, RetainExpiredClaim, drawn);
    var managers := WithPlan(s1, m, Edited(row, RetainExpiredClaim)).managers;
    assert managers[m := managers[m].(plan := Free)] == s.managers;
  }

  // ---------------------------------------------------------------- workers

  lemma RetryObserves(s: Sys, lease: Lease)
    requires LockFreeFor(s, lease) && Authorized(s, lease) && s.workers[lease].pc == Resolving && s.workers[lease].attempts > 1
    ensures Step(s, Authorize(lease)) == WithPc(s, lease, Observing)
  {
  }

  /** Positive absence on a later attempt completes recovery without a second delete. */
  lemma AbsenceEndsVerified(s: Sys, lease: Lease)
    requires LockFreeFor(s, lease) && Authorized(s, lease) && s.workers[lease].pc == Resolving && s.workers[lease].attempts > 1
    ensures Step(Step(s, Authorize(lease)), Observe(lease, true)) == WithPc(s, lease, Finishing(Evidence(true, "", NotObserved)))
  {
    RetryObserves(s, lease);
    assert WithPc(WithPc(s, lease, Observing), lease, Finishing(Evidence(true, "", NotObserved))).workers
           == WithPc(s, lease, Finishing(Evidence(true, "", NotObserved))).workers;
  }

  /** Without it the delete begins, once more under the worker's own authority. */
  lemma PresenceDeletes(s: Sys, lease: Lease)
    requires LockFreeFor(s, lease) && Authorized(s, lease) && s.workers[lease].pc == Resolving && s.workers[lease].attempts > 1
    ensures Step(Step(Step(s, Authorize(lease)), Observe(lease, false)), StartDelete(lease)) == StartRemote(s, lease)
  {
    RetryObserves(s, lease);
    var t := WithPc(WithPc(s, lease, Observing), lease, Ready);
    assert t.workers == WithPc(s, lease, Ready).workers;
    ReadyDeletes(WithPc(s, lease, Ready), lease);
    assert StartRemote(WithPc(s, lease, Ready), lease).workers == StartRemote(s, lease).workers;
  }

  lemma ReadyDeletes(s: Sys, lease: Lease)
    requires LockFreeFor(s, lease) && Authorized(s, lease) && s.workers[lease].pc == Ready
    ensures Step(s, StartDelete(lease)) == StartRemote(s, lease)
    ensures StartRemote(s, lease).workers == s.workers[lease := s.workers[lease].(pc := Deleting, started := true)]
    ensures Count(StartRemote(s, lease).starts, s.workers[lease].key) == Count(s.starts, s.workers[lease].key) + 1
  {
  }

  /** A worker without authority leaves at its next check, and begins no delete. */
  lemma LostAuthorityLeaves(s: Sys, lease: Lease)
    requires LockFreeFor(s, lease) && !Authorized(s, lease)
    ensures s.workers[lease].pc == Resolving ==> Step(s, Authorize(lease)).workers == s.workers[lease := s.workers[lease].(pc := Exited)]
    ensures s.workers[lease].pc == Ready ==> Step(s, StartDelete(lease)).workers == s.workers[lease := s.workers[lease].(pc := Exited)]
    ensures Step(s, Authorize(lease)).starts == s.starts && Step(s, StartDelete(lease)).starts == s.starts
    ensures Step(s, Authorize(lease)).table == s.table && Step(s, StartDelete(lease)).table == s.table
  {
  }

  /** A worker that is interrupted ends unverified with that code; one of an old account writes nothing. */
  lemma InterruptedEndsUnverified(s: Sys, lease: Lease, code: string)
    requires lease in s.workers && !s.workers[lease].pc.Finishing? && !s.workers[lease].pc.Exited?
    ensures Step(s, Interrupt(lease, code)).workers
            == s.workers[lease := s.workers[lease].(pc := Finishing(Evidence(false, code, NotObserved)))]
    ensures Step(s, Interrupt(lease, code)).table == s.table
  {
  }

  lemma OldAccountWritesNothing(s: Sys, lease: Lease)
    requires LockFreeFor(s, lease) && s.workers[lease].pc.Finishing? && s.workers[lease].key in s.table
    requires s.workers[lease].generation != s.managers[s.workers[lease].manager].generation
    ensures var t := Step(s, BeginFinish(lease));
            t.table == s.table && t.managers == s.managers && t.workers == s.workers[lease := s.workers[lease].(pc := Exited)]
  {
  }

  /** A call that gives up frees its lock and writes nothing; a worker's own terminal section ends with it. */
  lemma AbortFrees(s: Sys, m: nat)
    requires Inv(s) && m in s.managers
    ensures var t := Step(s, Abort(m));
            && t.table == s.table && t.managers == s.managers[m := s.managers[m].(plan := Free)]
            && if s.managers[m].plan.FinishSeen?
               then t.workers == s.workers[s.managers[m].plan.lease := s.workers[s.managers[m].plan.lease].(pc := Exited)]
               else t.workers == s.workers
  {
    assert PlanOk(s, m, s.managers[m].plan);
  }

  /** A manager without a scope takes the one it is given, and serves its chats from then on. */
  lemma BindServes(s: Sys, m: nat, scope: string, cid: string)
    requires Idle(s, m) && s.managers[m].scope.None?
    ensures Serves(Step(s, Bind(m, scope)), m, Key(scope, cid))
    ensures Step(s, Bind(m, scope)).managers == s.managers[m := s.managers[m].(scope := Some(scope))]
  {
  }

  /** It refuses any other scope, and keeps the one it has. */
  lemma BindRefuses(s: Sys, m: nat, scope: string)
    requires Idle(s, m) && s.managers[m].scope.Some?
    ensures Step(s, Bind(m, scope)).managers[m].scope == s.managers[m].scope && Step(s, Bind(m, scope)).table == s.table
  {
  }

  // ---------------------------------------------------------------- account switches

  /** Row `k` after a sweep that saw it as it is. */
  predicate Swept(o: Row, n: Row, clock: Time) {
    && SameJob(o, n) && n.state == Cancelled && n.error == Some(ContextChanged) && n.status == NotObserved
    && n.lease == None && n.expiresAt == clock + 604800.0 && n.dueAt == o.dueAt
  }

  /** A switch cancels a row it has listed exactly if nobody wrote the row since. */
  lemma SweepCancelsExactly(s: Sys, m: nat, k: Key)
    requires Reachable(s) && m in s.managers && s.managers[m].plan.Sweep? && k in s.managers[m].plan.todo
    ensures var t := Step(s, SweepOne(m, k)); var snap := s.managers[m].plan.todo[k];
            && k in s.table && k in t.table && t.table == s.table[k := t.table[k]]
            && (if s.table[k] == snap then Swept(snap, t.table[k], s.clock) else t.table == s.table)
            && t.managers == s.managers[m := s.managers[m].(plan := Sweep(s.managers[m].plan.todo - {k}))]
  {
    ReachableHolds(s);
    assert PlanOk(s, m, s.managers[m].plan);
    SweepOfSeen(s, m, k);
  }

  lemma SweepOfSeen(s: Sys, m: nat, k: Key)
    requires RowsOk(s) && m in s.managers && s.managers[m].plan.Sweep? && k in s.managers[m].plan.todo
    requires var snap := s.managers[m].plan.todo[k]; snap.key == k && Seen(s, snap) && !Withdrawn(snap)
    ensures var t := Step(s, SweepOne(m, k)); var snap := s.managers[m].plan.todo[k];
            && k in s.table && k in t.table && t.table == s.table[k := t.table[k]]
            && (if s.table[k] == snap then Swept(snap, t.table[k], s.clock) else t.table == s.table)
            && t.managers == s.managers[m := s.managers[m].(plan := Sweep(s.managers[m].plan.todo - {k}))]
  {
    assert RowOk(s, k);
    UpdateCarries(s.table[k], Some(s.managers[m].plan.todo[k].version), None, SweepChanges(s.clock), s.clock);
  }

  /** So a heartbeat between the listing and the write keeps a running row from being cancelled. */
  lemma SweepMissesRenewal(s: Sys, m: nat, lease: Lease, now: Time)
    requires Reachable(s) && m in s.managers && s.managers[m].plan.Sweep?
    requires Authorized(s, lease) && !s.workers[lease].pc.Exited? && now <= s.clock
    requires Deadline(s.table[s.workers[lease].key]) <= now + s.managers[s.workers[lease].manager].leaseSeconds
    requires var k := s.workers[lease].key; k in s.managers[m].plan.todo && s.managers[m].plan.todo[k] == s.table[k]
    ensures var k := s.workers[lease].key; var t := Step(Step(s, Heartbeat(lease, now)), SweepOne(m, k));
            k in t.table && t.table[k].state == Running && t.table[k].lease == Some(lease)
  {
    var k := s.workers[lease].key;
    var t := Step(s, Heartbeat(lease, now));
    HeartbeatProtects(s, lease, now, [], Tick(0.0));
    ReachableHolds(s);
    assert RowOk(s, k);
    ReachableStep(s, Heartbeat(lease, now));
    SweepCancelsExactly(t, m, k);
    RenewalIsNewer(s, lease, now);
  }

  lemma RenewalIsNewer(s: Sys, lease: Lease, now: Time)
    requires Authorized(s, lease) && !s.workers[lease].pc.Exited? && now <= s.clock && s.table[s.workers[lease].key].key == s.workers[lease].key
    requires Deadline(s.table[s.workers[lease].key]) <= now + s.managers[s.workers[lease].manager].leaseSeconds
    ensures var k := s.workers[lease].key; var t := Step(s, Heartbeat(lease, now));
            k in t.table && t.table[k].version == s.table[k].version + 1
  {
  }

  lemma {:induction false} RunAfter(s: Sys, e: Event, events: seq<Event>)
    ensures Run(s, [e] + events) == Run(Step(s, e), events)
    decreases |events|
  {
    var all := [e] + events;
    if events == [] {
      assert all[..0] == [] && Run(s, []) == s;
    } else {
      assert all[..|all| - 1] == [e] + events[..|events| - 1];
      RunAfter(s, e, events[..|events| - 1]);
    }
  }

  predicate IsSweep(e: Event, m: nat) { (e.SweepOne? || e.SweepDone?) && e.m == m }

  /** What a whole sweep leaves: every listed row cancelled, every other row untouched, the account gone. */
  ghost predicate SweptAll(s: Sys, t: Sys, m: nat, todo: map<Key, Row>)
    requires m in s.managers
  {
    && t.table.Keys == s.table.Keys
    && (forall k :: k in s.table ==> if k in todo then Swept(s.table[k], t.table[k], s.clock) else t.table[k] == s.table[k])
    && t.managers == s.managers[m := s.managers[m].(generation := s.managers[m].generation + 1, scope := None, plan := Free)]
    && t.workers == s.workers && t.clock == s.clock
  }

  lemma SweepDoneEnds(s: Sys, m: nat)
    requires m in s.managers && s.managers[m].plan == Sweep(map[])
    ensures SweptAll(s, Step(s, SweepDone(m)), m, map[])
  {
  }

  lemma SweepOneMore(s: Sys, u: Sys, t: Sys, m: nat, k: Key, todo: map<Key, Row>)
    requires m in s.managers && m in u.managers && k in todo && k in s.table && k in u.table
    requires u.table == s.table[k := u.table[k]] && Swept(s.table[k], u.table[k], s.clock)
    requires u.managers == s.managers[m := s.managers[m].(plan := Sweep(todo - {k}))] && u.workers == s.workers && u.clock == s.clock
    requires SweptAll(u, t, m, todo - {k})
    ensures SweptAll(s, t, m, todo)
  {
  }

  lemma {:induction false} SweepRest(s: Sys, m: nat) returns (events: seq<Event>)
    requires Reachable(s) && m in s.managers && s.managers[m].plan.Sweep?
    requires forall k :: k in s.managers[m].plan.todo ==> k in s.table && s.table[k] == s.managers[m].plan.todo[k]
    ensures forall i :: 0 <= i < |events| ==> IsSweep(events[i], m)
    ensures SweptAll(s, Run(s, events), m, s.managers[m].plan.todo)
    decreases |s.managers[m].plan.todo|
  {
    var todo := s.managers[m].plan.todo;
    if todo == map[] {
      events := [SweepDone(m)];
      SweepDoneEnds(s, m);
      RunAfter(s, SweepDone(m), []);
      assert [SweepDone(m)] + [] == [SweepDone(m)];
    } else {
      var k :| k in todo;
      var u := Step(s, SweepOne(m, k));
      SweepCancelsExactly(s, m, k);
      SweepKeepsRest(s, m, k);
      ReachableStep(s, SweepOne(m, k));
      assert |todo.Keys - {k}| < |todo.Keys| && (todo - {k}).Keys == todo.Keys - {k};
      var more := SweepRest(u, m);
      events := [SweepOne(m, k)] + more;
      RunAfter(s, SweepOne(m, k), more);
      SweepOneMore(s, u, Run(u, more), m, k, todo);
    }
  }

  lemma SweepKeepsRest(s: Sys, m: nat, k: Key)
    ensures Step(s, SweepOne(m, k)).workers == s.workers && Step(s, SweepOne(m, k)).clock == s.clock
  {
  }

  /** A live job of the scope, as a switch lists it. */
  predicate Listed(s: Sys, scope: string, k: Key) {
    k in s.table && k.scope == scope && (s.table[k].state == Pending || s.table[k].state == Failed || s.table[k].state == Running)
  }

  /**
   An account switch that nobody interrupts cancels every live job of its scope, touches
   no other row, and leaves the manager without a scope in the next generation.
   */
  lemma SwitchCancelsScope(s: Sys, m: nat, scope: string) returns (events: seq<Event>)
    requires Reachable(s) && Idle(s, m) && s.managers[m].scope == Some(scope)
    ensures events != [] && events[0] == SwitchAccount(m) && forall i :: 1 <= i < |events| ==> IsSweep(events[i], m)
    ensures var t := Run(s, events);
            && t.table.Keys == s.table.Keys
            && (forall k :: k in s.table ==> if Listed(s, scope, k) then Swept(s.table[k], t.table[k], s.clock) else t.table[k] == s.table[k])
            && t.managers == s.managers[m := s.managers[m].(generation := s.managers[m].generation + 1, scope := None, plan := Free)]
  {
    var u := Step(s, SwitchAccount(m));
    SwitchLists(s, m, scope);
    ReachableStep(s, SwitchAccount(m));
    var more := SweepRest(u, m);
    events := [SwitchAccount(m)] + more;
    RunAfter(s, SwitchAccount(m), more);
  }

  lemma SwitchLists(s: Sys, m: nat, scope: string)
    requires Idle(s, m) && s.managers[m].scope == Some(scope)
    ensures var t := Step(s, SwitchAccount(m));
            && t == WithPlan(s, m, t.managers[m].plan) && t.managers[m].plan.Sweep?
            && (forall k :: k in t.managers[m].plan.todo <==> Listed(s, scope, k))
            && (forall k :: k in t.managers[m].plan.todo ==> t.managers[m].plan.todo[k] == s.table[k])
  {
  }

  /** Without a scope there is nothing durable to cancel; the generation passes all the same. */
  lemma SwitchWithoutScope(s: Sys, m: nat)
    requires Idle(s, m) && s.managers[m].scope.None?
    ensures Step(s, SwitchAccount(m)) == s.(managers := s.managers[m := s.managers[m].(generation := s.managers[m].generation + 1)])
  {
  }
}
