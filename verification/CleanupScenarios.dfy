/**
 Calls that nobody interrupts do what they are for, and two managers together can lose
 a retention mark, or claim and delete the chat it should protect.
 */
module CleanupScenarios {
  import opened Common
  import opened CleanupStore
  import opened CleanupProtocol
  import opened CleanupInvariant
  import opened CleanupSafety
  import opened CleanupRetainMark

  /** Enough about a manager to run one of its calls on one chat. */
  ghost predicate Serves(s: Sys, m: nat, k: Key) {
    CanCall(s, m) && s.managers[m].scope == Some(k.scope)
  }

  lemma PlanRestored(s: Sys, m: nat, plan: Plan)
    requires Idle(s, m)
    ensures WithPlan(WithPlan(s, m, plan), m, Free) == s
  {
    assert s.managers[m := s.managers[m].(plan := plan)][m := s.managers[m]] == s.managers;
  }

  /** An uninterrupted removal request stores one pending job. */
  lemma RemoveAlone(s: Sys, m: nat, k: Key, due: Time, job: string, drawn: Lease)
    requires Serves(s, m, k) && k !in s.table && !JobIdUsed(s.table, job)
    ensures Step(Step(s, Remove(m, k.resource, due, false, job)), Write(m, drawn)) == WithRow(s, NewJob(k, due, job, s.clock))
  {
    var record := NewJob(k, due, job, s.clock);
    var t := Step(s, Remove(m, k.resource, due, false, job));
    assert KeyFor(s, m, k.resource) == k;
    assert t == WithPlan(s, m, InsertJob(record, false));
    PlanRestored(s, m, InsertJob(record, false));
    assert WriteInsert(t, m, record, false) == WithPlan(WithRow(t, record), m, Free);
    assert WithPlan(WithRow(t, record), m, Free) == WithRow(WithPlan(t, m, Free), record);
  }

  lemma DecideToClaim(s: Sys, m: nat, k: Key)
    requires Serves(s, m, k) && k in s.table && s.table[k].key == k
    requires s.table[k].state == Pending && s.table[k].dueAt <= s.clock
    ensures Step(Step(s, Claim(m, k.resource, None, false, "")), Decide(m)) == WithPlan(s, m, ClaimNext(s.table[k], s.clock))
  {
    assert KeyFor(s, m, k.resource) == k;
    var t := Step(s, Claim(m, k.resource, None, false, ""));
    assert t == WithPlan(s, m, ClaimSeen(s.table[k], false));
    assert WithPlan(t, m, ClaimNext(s.table[k], s.clock)).managers == WithPlan(s, m, ClaimNext(s.table[k], s.clock)).managers;
  }

  lemma WriteToClaim(s: Sys, m: nat, snap: Row, drawn: Lease)
    requires Idle(s, m) && snap.key in s.table && s.table[snap.key] == snap && Claimable(snap, s.clock)
    requires drawn !in s.workers && s.managers[m].leaseSeconds > 0.0
    ensures var row := ClaimRow(snap, snap.version, drawn, s.clock + s.managers[m].leaseSeconds, s.clock);
            row.Some? && WriteNext(WithPlan(s, m, ClaimNext(snap, s.clock)), m, drawn) == GrantRow(s, m, row.value, drawn)
  {
    var u := WithPlan(s, m, ClaimNext(snap, s.clock));
    var row := ClaimRow(snap, snap.version, drawn, s.clock + s.managers[m].leaseSeconds, s.clock).value;
    PlanRestored(s, m, ClaimNext(snap, s.clock));
    assert WriteClaim(u, m, snap, s.clock, drawn) == WithPlan(GrantRow(u, m, row, drawn), m, Free);
    assert WithPlan(GrantRow(u, m, row, drawn), m, Free).managers == WithPlan(u, m, Free).managers;
  }

  /** An uninterrupted claim of a due job grants it. */
  lemma ClaimAlone(s: Sys, m: nat, k: Key, drawn: Lease)
    requires Serves(s, m, k) && k in s.table && s.table[k].key == k
    requires s.table[k].state == Pending && s.table[k].dueAt <= s.clock
    requires drawn !in s.workers && s.managers[m].leaseSeconds > 0.0
    ensures var row := ClaimRow(s.table[k], s.table[k].version, drawn, s.clock + s.managers[m].leaseSeconds, s.clock);
            row.Some? && Step(Step(Step(s, Claim(m, k.resource, None, false, "")), Decide(m)), Write(m, drawn))
                         == GrantRow(s, m, row.value, drawn)
  {
    DecideToClaim(s, m, k);
    WriteToClaim(s, m, s.table[k], drawn);
  }

  lemma ReadyAlone(s: Sys, lease: Lease)
    requires LockFreeFor(s, lease) && Authorized(s, lease)
    requires s.workers[lease].pc == Resolving && s.workers[lease].attempts == 1
    ensures Step(s, Authorize(lease)) == WithPc(s, lease, Ready)
  {
  }

  lemma StartAlone(s: Sys, lease: Lease, evidence: Evidence)
    requires LockFreeFor(s, lease) && Authorized(s, lease) && s.workers[lease].pc == Ready
    ensures Step(Step(s, StartDelete(lease)), Outcome(lease, evidence)) == WithPc(StartRemote(s, lease), lease, Finishing(evidence))
  {
  }

  /** A first attempt that keeps its authority deletes once and reports what it saw. */
  lemma WorkAlone(s: Sys, lease: Lease, evidence: Evidence)
    requires LockFreeFor(s, lease) && Authorized(s, lease)
    requires s.workers[lease].pc == Resolving && s.workers[lease].attempts == 1
    ensures var t := Step(Step(Step(s, Authorize(lease)), StartDelete(lease)), Outcome(lease, evidence));
            && t.table == s.table && t.managers == s.managers && t.clock == s.clock
            && t.workers == s.workers[lease := s.workers[lease].(started := true, pc := Finishing(evidence))]
            && Count(t.starts, s.workers[lease].key) == Count(s.starts, s.workers[lease].key) + 1
  {
    ReadyAlone(s, lease);
    StartAlone(WithPc(s, lease, Ready), lease, evidence);
  }

  /**
   An uninterrupted end of a worker that still holds its row writes exactly what the
   evidence says: completed when absence was verified, retained when the row was marked,
   failed otherwise, and due again only after the backoff.
   */
  lemma FinishAlone(s: Sys, lease: Lease, drawn: Lease)
    requires LockFreeFor(s, lease) && Authorized(s, lease) && s.workers[lease].pc.Finishing?
    requires s.table[s.workers[lease].key].key == s.workers[lease].key
    ensures var k := s.workers[lease].key; var evidence := s.workers[lease].pc.evidence;
            var t := Step(Step(s, BeginFinish(lease)), Write(s.workers[lease].manager, drawn));
            && k in t.table
            && t.table[k].state == (if evidence.verified then Completed else if Marked(s.table[k]) then Retained else Failed)
            && (evidence.verified ==> t.table[k].status == VerifiedAbsent && t.table[k].error == None)
            && (!evidence.verified ==> t.table[k].error == Some(OtherCode(evidence.code)))
            && (!evidence.verified ==> t.table[k].status == if Marked(s.table[k]) then Status.RetainedAfterClaim else evidence.status)
            && t.table == s.table[k := t.table[k]] && t.table[k].attempts == s.table[k].attempts
            && t.table[k].expiresAt == s.clock + 604800.0
            && t.table[k].dueAt == s.clock + Backoff(s.workers[lease].attempts)
            && t.table[k].lease == None
            && t.workers == s.workers[lease := s.workers[lease].(pc := Exited)]
            && Idle(t, s.workers[lease].manager)
  {
    var m, k := s.workers[lease].manager, s.workers[lease].key;
    var t := Step(s, BeginFinish(lease));
    assert t == WithPlan(s, m, FinishSeen(lease, s.table[k]));
    assert t.managers[m].plan == FinishSeen(lease, s.table[k]);
    assert Step(t, Write(m, drawn)) == WriteFinish(t, m, lease, s.table[k]);
  }

  /** Backoff doubles from two seconds up to 1024 and never passes an hour. */
  lemma BackoffGrows(a: nat, b: nat)
    requires a <= b
    ensures 1.0 <= Backoff(a) <= Backoff(b) <= 3600.0
    ensures a <= 10 ==> Backoff(a) == Pow2(a) as real
    ensures a >= 10 ==> Backoff(a) == 1024.0
  {
    Pow2Grows(if a <= 10 then a else 10, if b <= 10 then b else 10);
    Pow2Grows(0, if a <= 10 then a else 10);
    Pow2Grows(if b <= 10 then b else 10, 10);
    assert Pow2(10) == 1024 by { assert Pow2(5) == 32; assert Pow2(8) == 256; }
  }

  lemma {:induction false} Pow2Grows(a: nat, b: nat)
    requires a <= b
    ensures 1 <= Pow2(a) <= Pow2(b)
    decreases b
  {
    if a < b { Pow2Grows(a, b - 1); } else if b > 0 { Pow2Grows(a - 1, b - 1); }
  }

  // ---------------------------------------------------------------- a lost mark

  /**
   Whenever a worker of one manager is about to end an unverified delete while another
   manager serves the same scope, this interleaving marks the row and then loses the mark.
   */
  lemma MarkLostBetween(s: Sys, lease: Lease, other: nat, drawn: Lease)
    requires LockFreeFor(s, lease) && Authorized(s, lease) && s.workers[lease].pc.Finishing?
    requires !s.workers[lease].pc.evidence.verified
    requires s.table[s.workers[lease].key].key == s.workers[lease].key
    requires s.table[s.workers[lease].key].error != Some(RetainAfterClaim) && Deadline(s.table[s.workers[lease].key]) > s.clock
    requires other != s.workers[lease].manager && Serves(s, other, s.workers[lease].key)
    ensures var k := s.workers[lease].key;
            var marked := Step(Step(Step(Step(s, BeginFinish(lease)), Retain(other, k.resource)), Decide(other)), Write(other, drawn));
            var t := Step(marked, Write(s.workers[lease].manager, drawn));
            && k in marked.table && Marked(marked.table[k])
            && k in t.table && t.table[k].state == Failed
  {
    var m, k := s.workers[lease].manager, s.workers[lease].key;
    var snap := s.table[k];
    var s1 := Step(s, BeginFinish(lease));
    assert s1 == WithPlan(s, m, FinishSeen(lease, snap));
    assert KeyFor(s1, other, k.resource) == k;
    var s2 := Step(s1, Retain(other, k.resource));
    assert s2 == WithPlan(s1, other, RetainSeen(snap));
    var s3 := Step(s2, Decide(other));
    assert s3 == WithPlan(s2, other, Edited(snap, Mark));
    MarkIsWritten(s3, other, snap, drawn);
    var s4 := Step(s3, Write(other, drawn));
    assert s4.managers[m].plan == FinishSeen(lease, snap);
    StaleEndFails(s4, m, lease, snap, drawn);
  }

  lemma MarkIsWritten(s: Sys, m: nat, snap: Row, drawn: Lease)
    requires m in s.managers && s.managers[m].plan == Edited(snap, Mark)
    requires snap.key in s.table && s.table[snap.key] == snap && snap.state == Running
    ensures var t := Step(s, Write(m, drawn));
            && t.table == s.table[snap.key := t.table[snap.key]] && t.workers == s.workers
            && Marked(t.table[snap.key]) && t.table[snap.key].lease == snap.lease && t.table[snap.key].key == snap.key
            && t.managers == s.managers[m := s.managers[m].(plan := Free)]
  {
  }

  lemma StaleEndFails(s: Sys, m: nat, lease: Lease, snap: Row, drawn: Lease)
    requires m in s.managers && s.managers[m].plan == FinishSeen(lease, snap) && snap.error != Some(RetainAfterClaim)
    requires lease in s.workers && s.workers[lease].pc.Finishing? && !s.workers[lease].pc.evidence.verified
    requires s.workers[lease].key in s.table && s.table[s.workers[lease].key].state == Running
    requires s.table[s.workers[lease].key].lease == Some(lease) && s.table[s.workers[lease].key].key == s.workers[lease].key
    ensures var t := Step(s, Write(m, drawn)); s.workers[lease].key in t.table && t.table[s.workers[lease].key].state == Failed
  {
  }

  lemma ReachableStep3(s: Sys, e: Event, f: Event, g: Event)
    requires Reachable(s)
    ensures Reachable(Step(Step(Step(s, e), f), g))
  {
    ReachableStep(s, e);
    ReachableStep(Step(s, e), f);
    ReachableStep(Step(Step(s, e), f), g);
  }

  /** A due job that manager 1 may claim, while manager 2 serves the same scope. */
  lemma DueJobReached(k: Key) returns (s: Sys)
    requires k.scope == "scope"
    ensures Reachable(s) && Serves(s, 1, k) && Serves(s, 2, k) && s.workers == map[] && s.clock == 0.0
    ensures s.managers[1].leaseSeconds == 60.0
    ensures k in s.table && s.table[k] == NewJob(k, 0.0, "cleanup_1", 0.0)
  {
    var bound := TwoBound();
    var e := Remove(1, k.resource, 0.0, false, "cleanup_1");
    ReachableStep(bound, e);
    ReachableStep(Step(bound, e), Write(1, 0));
    RemoveAlone(bound, 1, k, 0.0, "cleanup_1", 0);
    s := WithRow(bound, NewJob(k, 0.0, "cleanup_1", 0.0));
  }

  lemma GrantHolds(due: Sys, k: Key, lease: Lease, row: Row)
    requires Serves(due, 1, k) && Serves(due, 2, k) && due.workers == map[] && due.clock < Deadline(row)
    requires row.key == k && row.state == Running && row.lease == Some(lease) && row.attempts == 1
    ensures var s := GrantRow(due, 1, row, lease);
            && Serves(s, 2, k) && LockFreeFor(s, lease) && Authorized(s, lease)
            && s.workers[lease] == Worker(1, due.managers[1].generation, k, 1, false, Resolving) && s.table[k] == row
  {
  }

  lemma ClaimReached(k: Key, lease: Lease) returns (s: Sys)
    requires k.scope == "scope"
    ensures Reachable(s) && Serves(s, 2, k) && LockFreeFor(s, lease) && Authorized(s, lease)
    ensures var w := s.workers[lease]; w.manager == 1 && w.key == k && w.attempts == 1 && w.pc == Resolving
    ensures s.table[k].key == k && s.table[k].error == None && Deadline(s.table[k]) > s.clock
  {
    var due := DueJobReached(k);
    ReachableStep3(due, Claim(1, k.resource, None, false, ""), Decide(1), Write(1, lease));
    ClaimAlone(due, 1, k, lease);
    var row := ClaimRow(due.table[k], 0, lease, 60.0, 0.0).value;
    GrantHolds(due, k, lease, row);
    s := GrantRow(due, 1, row, lease);
  }

  /** Such a state is reached by two managers that bind one scope. */
  lemma TwoManagersReachIt() returns (s: Sys, lease: Lease, other: nat)
    ensures Reachable(s)
    ensures LockFreeFor(s, lease) && Authorized(s, lease) && s.workers[lease].pc.Finishing?
    ensures !s.workers[lease].pc.evidence.verified
    ensures s.table[s.workers[lease].key].key == s.workers[lease].key
    ensures s.table[s.workers[lease].key].error != Some(RetainAfterClaim) && Deadline(s.table[s.workers[lease].key]) > s.clock
    ensures other != s.workers[lease].manager && Serves(s, other, s.workers[lease].key)
  {
    lease, other := 7, 2;
    var failure := Evidence(false, "VERIFICATION_FAILED", NotObserved);
    var claimed := ClaimReached(Key("scope", "c_1"), lease);
    ReachableStep3(claimed, Authorize(lease), StartDelete(lease), Outcome(lease, failure));
    WorkAlone(claimed, lease, failure);
    s := Step(Step(Step(claimed, Authorize(lease)), StartDelete(lease)), Outcome(lease, failure));
  }

  lemma TwoBound() returns (s: Sys)
    ensures Reachable(s) && s.clock == 0.0 && s.table == map[] && s.workers == map[]
    ensures s.managers == map[1 := Manager(0, Some("scope"), 60.0, Free), 2 := Manager(0, Some("scope"), 60.0, Free)]
  {
    var unbound := Manager(0, None, 60.0, Free);
    var s0 := Sys(0.0, map[], map[1 := unbound, 2 := unbound], map[], map[], map[]);
    assert Reachable(s0) by { assert s0 == Run(s0, []); }
    ReachableStep(s0, Bind(1, "scope"));
    ReachableStep(Step(s0, Bind(1, "scope")), Bind(2, "scope"));
    s := Step(Step(s0, Bind(1, "scope")), Bind(2, "scope"));
  }

  /** With two managers the promise of RetainMarkKept fails: a marked row ends up failed. */
  lemma RetainMarkLostAcrossManagers() returns (s: Sys, e: Event, k: Key)
    ensures Reachable(s) && k in s.table && Marked(s.table[k])
    ensures k in Step(s, e).table && Step(s, e).table[k].state == Failed
  {
    var start, lease, other := TwoManagersReachIt();
    k := start.workers[lease].key;
    MarkLostBetween(start, lease, other, 0);
    ReachableStep(start, BeginFinish(lease));
    var s1 := Step(start, BeginFinish(lease));
    ReachableStep(s1, Retain(other, k.resource));
    var s2 := Step(s1, Retain(other, k.resource));
    ReachableStep(s2, Decide(other));
    var s3 := Step(s2, Decide(other));
    ReachableStep(s3, Write(other, 0));
    s, e := Step(s3, Write(other, 0)), Write(start.workers[lease].manager, 0);
  }

  // ---------------------------------------------------------------- a marked chat deleted

  function MadeDue(row: Row, clock: Time): Row { Rewritten(row, EditChanges(MakeDue(clock), clock), clock) }

  function WithMark(row: Row, clock: Time): Row { Rewritten(row, EditChanges(Mark, clock), clock) }

  lemma ClaimSeesRow(s: Sys, m: nat, k: Key)
    requires Serves(s, m, k) && k in s.table
    ensures Step(s, Claim(m, k.resource, None, false, "")) == WithPlan(s, m, ClaimSeen(s.table[k], false))
  {
    assert KeyFor(s, m, k.resource) == k;
  }

  lemma EarlyIsMadeDue(s: Sys, m: nat, snap: Row)
    requires m in s.managers && s.managers[m].plan == ClaimSeen(snap, false) && snap.dueAt > s.clock
    requires snap.state == Pending || snap.state == Failed
    ensures Step(s, Decide(m)) == WithPlan(s, m, Edited(snap, MakeDue(s.clock)))
  {
  }

  lemma MakeDueIsWritten(s: Sys, m: nat, snap: Row, drawn: Lease)
    requires m in s.managers && s.managers[m].plan == Edited(snap, MakeDue(s.clock))
    requires snap.state == Pending || snap.state == Failed
    requires snap.key in s.table && s.table[snap.key] == snap
    ensures Step(s, Write(m, drawn)) == WithPlan(WithRow(s, MadeDue(snap, s.clock)), m, ClaimNext(MadeDue(snap, s.clock), s.clock))
  {
  }

  /** An uninterrupted explicit claim of a waiting job that is not due yet makes it due and grants it. */
  lemma EarlyClaimAlone(s: Sys, m: nat, k: Key, drawn: Lease)
    requires Serves(s, m, k) && k in s.table && s.table[k].key == k && s.table[k].dueAt > s.clock
    requires s.table[k].state == Pending || s.table[k].state == Failed
    requires drawn !in s.workers && s.managers[m].leaseSeconds > 0.0
    ensures var due := MadeDue(s.table[k], s.clock);
            var row := ClaimRow(due, due.version, drawn, s.clock + s.managers[m].leaseSeconds, s.clock);
            && row.Some?
            && Step(Step(Step(Step(s, Claim(m, k.resource, None, false, "")), Decide(m)), Write(m, 0)), Write(m, drawn))
               == GrantRow(WithRow(s, due), m, row.value, drawn)
  {
    var due := MadeDue(s.table[k], s.clock);
    ClaimSeesRow(s, m, k);
    var s1 := WithPlan(s, m, ClaimSeen(s.table[k], false));
    EarlyIsMadeDue(s1, m, s.table[k]);
    var s2 := WithPlan(s, m, Edited(s.table[k], MakeDue(s.clock)));
    assert Step(s1, Decide(m)).managers == s2.managers;
    MakeDueIsWritten(s2, m, s.table[k], 0);
    var s3 := WithPlan(WithRow(s, due), m, ClaimNext(due, s.clock));
    assert Step(s2, Write(m, 0)).managers == s3.managers;
    WriteToClaim(WithRow(s, due), m, due, drawn);
  }

  /** An uninterrupted retention marks a row that runs under a live lease. */
  lemma MarkAlone(s: Sys, m: nat, k: Key)
    requires Serves(s, m, k) && k in s.table && s.table[k].key == k
    requires s.table[k].state == Running && Deadline(s.table[k]) > s.clock
    ensures Step(Step(Step(s, Retain(m, k.resource)), Decide(m)), Write(m, 0)) == WithRow(s, WithMark(s.table[k], s.clock))
  {
    var row := s.table[k];
    assert KeyFor(s, m, k.resource) == k;
    var s1 := Step(s, Retain(m, k.resource));
    assert s1 == WithPlan(s, m, RetainSeen(row));
    var s2 := Step(s1, Decide(m));
    assert s2.managers == WithPlan(s, m, Edited(row, Mark)).managers;
    PlanRestored(s, m, Edited(row, Mark));
    MarkIsWritten(s2, m, row, 0);
  }

  /** After a lost race, the claim reads the marked row again and takes it. */
  lemma MarkedReclaimed(s: Sys, m: nat, snap: Row, now: Time, drawn: Lease)
    requires m in s.managers && s.managers[m].plan == Edited(snap, MakeDue(now)) && s.managers[m].leaseSeconds > 0.0
    requires snap.key in s.table && s.table[snap.key].key == snap.key && s.table[snap.key].version != snap.version
    requires Marked(s.table[snap.key]) && Deadline(s.table[snap.key]) <= now <= s.clock && drawn !in s.workers
    ensures var u := Step(Step(s, Write(m, 0)), Write(m, 0));
            && u == WithPlan(s, m, ClaimNext(s.table[snap.key], now))
            && Grants(u, Write(m, drawn), snap.key) && !Overlooks(u, Write(m, drawn), snap.key)
  {
    var s1 := Step(s, Write(m, 0));
    assert s1 == WithPlan(s, m, Reread(snap.key, now));
    var u := Step(s1, Write(m, 0));
    assert u.managers == WithPlan(s, m, ClaimNext(s.table[snap.key], now)).managers;
  }

  lemma GrantIsHeld(u: Sys, m: nat, k: Key, drawn: Lease)
    requires Grants(u, Write(m, drawn), k) && u.table[k].attempts > 0
    ensures var t := Step(u, Write(m, drawn));
            && LockFreeFor(t, drawn) && Authorized(t, drawn) && t.workers[drawn].key == k
            && t.workers[drawn].attempts > 1 && t.workers[drawn].pc == Resolving
  {
    var plan := u.managers[m].plan;
    var row := ClaimRow(plan.snap, plan.snap.version, drawn, plan.now + u.managers[m].leaseSeconds, plan.now);
    assert Step(u, Write(m, drawn)) == WithPlan(GrantRow(u, m, row.value, drawn), m, Free);
  }

  lemma RetryBegins(t: Sys, lease: Lease)
    requires LockFreeFor(t, lease) && Authorized(t, lease) && t.workers[lease].attempts > 1 && t.workers[lease].pc == Resolving
    ensures var u := Step(Step(t, Authorize(lease)), Observe(lease, false));
            Begins(u, StartDelete(lease)) && lease in u.workers && u.workers[lease].key == t.workers[lease].key
  {
    assert Step(t, Authorize(lease)) == WithPc(t, lease, Observing);
    assert Step(WithPc(t, lease, Observing), Observe(lease, false)) == WithPc(WithPc(t, lease, Observing), lease, Ready);
  }

  /** The reclaimed row's worker finds its authority intact and begins the remote delete. */
  lemma ReclaimedDeletes(u: Sys, m: nat, k: Key, drawn: Lease)
    requires Grants(u, Write(m, drawn), k) && u.table[k].attempts > 0
    ensures var t := Step(Step(Step(u, Write(m, drawn)), Authorize(drawn)), Observe(drawn, false));
            Begins(t, StartDelete(drawn)) && drawn in t.workers && t.workers[drawn].key == k
  {
    GrantIsHeld(u, m, k, drawn);
    RetryBegins(Step(u, Write(m, drawn)), drawn);
  }

  lemma ReachableStep4(s: Sys, a: Event, b: Event, c: Event, d: Event)
    requires Reachable(s)
    ensures Reachable(Step(Step(Step(Step(s, a), b), c), d))
  {
    ReachableStep3(s, a, b, c);
    ReachableStep(Step(Step(Step(s, a), b), c), d);
  }

  lemma EarlyJobReached(k: Key) returns (s: Sys, snap: Row)
    requires k.scope == "scope"
    ensures Reachable(s) && s.clock == 0.0 && s.workers == map[] && s.table == map[k := snap]
    ensures s.managers == map[1 := Manager(0, Some("scope"), 60.0, Free), 2 := Manager(0, Some("scope"), 60.0, Free)]
    ensures snap == NewJob(k, 1000.0, "cleanup_1", 0.0)
  {
    var bound := TwoBound();
    var e := Remove(1, k.resource, 1000.0, false, "cleanup_1");
    ReachableStep(bound, e);
    ReachableStep(Step(bound, e), Write(1, 0));
    RemoveAlone(bound, 1, k, 1000.0, "cleanup_1", 0);
    snap := NewJob(k, 1000.0, "cleanup_1", 0.0);
    s := WithRow(bound, snap);
  }

  /** Manager 1 has read a job that is not due. */
  lemma StalledReached(k: Key) returns (s: Sys, snap: Row)
    requires k.scope == "scope"
    ensures Reachable(s) && s.clock == 0.0 && s.workers == map[] && s.table == map[k := snap]
    ensures snap == NewJob(k, 1000.0, "cleanup_1", 0.0)
    ensures s.managers == map[1 := Manager(0, Some("scope"), 60.0, ClaimSeen(snap, false)), 2 := Manager(0, Some("scope"), 60.0, Free)]
  {
    var early;
    early, snap := EarlyJobReached(k);
    ClaimSeesRow(early, 1, k);
    ReachableStep(early, Claim(1, k.resource, None, false, ""));
    s := WithPlan(early, 1, ClaimSeen(snap, false));
  }

  /** Manager 1 has read a job that is not due; then manager 2 claims it under lease 7. */
  lemma RaceReached(k: Key) returns (s: Sys, snap: Row)
    requires k.scope == "scope"
    ensures Reachable(s) && s.managers.Keys == {1, 2} && Serves(s, 2, k) && s.managers[1].leaseSeconds == 60.0
    ensures s.managers[1].plan == ClaimSeen(snap, false) && snap.key == k && snap.state == Pending && snap.dueAt == 1000.0
    ensures s.clock == 0.0 && s.workers.Keys == {7}
    ensures k in s.table && s.table[k].key == k && s.table[k].state == Running && Deadline(s.table[k]) == 60.0
    ensures s.table[k].version > snap.version && s.table[k].attempts == 1
  {
    var stalled;
    stalled, snap := StalledReached(k);
    var due, row;
    s, due, row := EarlyClaimReached(stalled, 2, k, 7);
    RaceGranted(WithRow(stalled, due), row);
  }

  lemma EarlyClaimReached(s: Sys, m: nat, k: Key, drawn: Lease) returns (t: Sys, due: Row, row: Row)
    requires Reachable(s) && Serves(s, m, k) && k in s.table && s.table[k].key == k
    requires s.table[k].state == Pending && s.table[k].dueAt > s.clock
    requires drawn !in s.workers && s.managers[m].leaseSeconds > 0.0
    ensures Reachable(t) && t == GrantRow(WithRow(s, due), m, row, drawn)
    ensures due.key == k && row.key == k && row.state == Running && row.attempts == s.table[k].attempts + 1
    ensures row.version > s.table[k].version && Deadline(row) == s.clock + s.managers[m].leaseSeconds
  {
    ReachableStep4(s, Claim(m, k.resource, None, false, ""), Decide(m), Write(m, 0), Write(m, drawn));
    EarlyClaimAlone(s, m, k, drawn);
    due := MadeDue(s.table[k], s.clock);
    row := ClaimRow(due, due.version, drawn, s.clock + s.managers[m].leaseSeconds, s.clock).value;
    t := GrantRow(WithRow(s, due), m, row, drawn);
  }

  lemma RaceGranted(s: Sys, row: Row)
    requires Serves(s, 2, row.key) && s.workers == map[]
    ensures var t := GrantRow(s, 2, row, 7);
            && Serves(t, 2, row.key) && t.managers == s.managers && t.clock == s.clock && t.workers.Keys == {7}
            && row.key in t.table && t.table[row.key] == row
  {
  }

  /**
   With two managers the promise fails without any overlooked mark: the retained chat is
   claimed again after the lease ran out, and its remote delete begins.
   */
  lemma MarkedChatDeletedAcrossManagers() returns (marked: Sys, u: Sys, t: Sys, k: Key)
    ensures Reachable(marked) && k in marked.table && Marked(marked.table[k])
    ensures Reachable(u) && u.table == marked.table
    ensures Grants(u, Write(1, 8), k) && !Overlooks(u, Write(1, 8), k)
    ensures Reachable(t) && Begins(t, StartDelete(8)) && t.workers[8].key == k
  {
    k := Key("scope", "c_1");
    var s, snap := RaceReached(k);
    ReachableStep3(s, Retain(2, k.resource), Decide(2), Write(2, 0));
    MarkAlone(s, 2, k);
    marked := WithRow(s, WithMark(s.table[k], 0.0));
    ReachableStep(marked, Tick(70.0));
    var late := Step(marked, Tick(70.0));
    EarlyIsMadeDue(late, 1, snap);
    ReachableStep3(late, Decide(1), Write(1, 0), Write(1, 0));
    var decided := Step(late, Decide(1));
    MarkedReclaimed(decided, 1, snap, 70.0, 8);
    u := Step(Step(decided, Write(1, 0)), Write(1, 0));
    ReclaimedDeletes(u, 1, k, 8);
    ReachableStep3(u, Write(1, 8), Authorize(8), Observe(8, false));
    t := Step(Step(Step(u, Write(1, 8)), Authorize(8)), Observe(8, false));
  }
}
