/**
 Retention of a chat whose deletion was already claimed (RETAIN_AFTER_CLAIM).

 The terminal section of a worker reads the row and then writes under its lease alone,
 without the version it read.  And a claim whose first write lost a race reads the row
 again and claims it without a second look at the mark.  Under one manager's lock nobody
 can mark the row in between, and the mark is kept.  Another process can, and then the
 mark is overlooked, or the marked chat is claimed and deleted.
 */
module CleanupRetainMark {
  import opened Common
  import opened CleanupStore
  import opened CleanupProtocol
  import opened CleanupInvariant
  import opened CleanupSafety

  /** Still marked, or withdrawn for good. */
  predicate Honoured(row: Row) {
    Marked(row) || Withdrawn(row)
  }

  /** The terminal write that fails the row of a mark it did not read. */
  ghost predicate Overlooks(s: Sys, e: Event, k: Key) {
    && e.Write? && e.m in s.managers && s.managers[e.m].plan.FinishSeen?
    && var plan := s.managers[e.m].plan;
       && plan.lease in s.workers && s.workers[plan.lease].key == k && s.workers[plan.lease].pc.Finishing?
       && k in s.table && s.table[k].lease == Some(plan.lease)
       && !s.workers[plan.lease].pc.evidence.verified
       && plan.snap.error != Some(RetainAfterClaim)
  }

  // ---------------------------------------------------------------- one step, any managers

  /** Rewrites that neither lift a mark nor leave withdrawal. */
  predicate Gentle(row: Row, changes: Changes) {
    || (changes.state.Keep? && (changes.error.Keep? || changes.error == Set(Some(RetainAfterClaim))))
    || (changes.state.Set? && (changes.state.value == Completed || changes.state.value == Retained || changes.state.value == Cancelled))
  }

  lemma UpdateHonours(s: Sys, k: Key, target: Key, expected: Option<nat>, lease: Option<Lease>, changes: Changes)
    requires RowsOk(s) && k in s.table && target in s.table && Marked(s.table[k])
    requires Gentle(s.table[target], changes)
    ensures var u := UpdateRow(s.table[target], expected, lease, changes, s.clock);
            u.Some? ==> k in WithRow(s, u.value).table && Honoured(WithRow(s, u.value).table[k])
  {
    assert RowOk(s, target);
  }

  lemma EditHonours(s: Sys, m: nat, snap: Row, edit: Edit, k: Key)
    requires Inv(s) && m in s.managers && s.managers[m].plan == Edited(snap, edit)
    requires k in s.table && Marked(s.table[k])
    ensures k in WriteEdit(s, m, snap, edit).table && Honoured(WriteEdit(s, m, snap, edit).table[k])
  {
    assert PlanOk(s, m, s.managers[m].plan);
    UpdateHonours(s, k, snap.key, Some(snap.version), None, EditChanges(edit, s.clock));
  }

  lemma SweepHonours(s: Sys, m: nat, key: Key, k: Key)
    requires Inv(s) && k in s.table && Marked(s.table[k])
    ensures k in WriteSweep(s, m, key).table && Honoured(WriteSweep(s, m, key).table[k])
  {
    if m in s.managers && s.managers[m].plan.Sweep? && key in s.managers[m].plan.todo {
      assert PlanOk(s, m, s.managers[m].plan);
      UpdateHonours(s, k, key, Some(s.managers[m].plan.todo[key].version), None, SweepChanges(s.clock));
    }
  }

  lemma RenewHonours(s: Sys, lease: Lease, now: Time, k: Key)
    requires Inv(s) && k in s.table && Marked(s.table[k])
    ensures k in RenewLease(s, lease, now).table && Honoured(RenewLease(s, lease, now).table[k])
  {
    if lease in s.workers && s.workers[lease].manager in s.managers {
      var until := now + s.managers[s.workers[lease].manager].leaseSeconds;
      UpdateHonours(s, k, s.workers[lease].key, None, Some(lease), Changes(leaseUntil := Set(Some(until))));
    }
  }

  lemma FinishHonours(s: Sys, m: nat, lease: Lease, snap: Row, drawn: Lease, k: Key)
    requires Inv(s) && m in s.managers && s.managers[m].plan == FinishSeen(lease, snap)
    requires k in s.table && Marked(s.table[k])
    ensures k in WriteFinish(s, m, lease, snap).table
    ensures Honoured(WriteFinish(s, m, lease, snap).table[k]) <==> !Overlooks(s, Write(m, drawn), k)
  {
    assert PlanOk(s, m, s.managers[m].plan);
    assert RowOk(s, k);
    assert RowOk(s, s.workers[lease].key);
  }

  lemma ClaimHonours(s: Sys, m: nat, drawn: Lease, k: Key)
    requires Inv(s) && m in s.managers && s.managers[m].plan.ClaimNext?
    requires k in s.table && Marked(s.table[k])
    ensures k in WriteNext(s, m, drawn).table && Honoured(WriteNext(s, m, drawn).table[k])
  {
    var snap := s.managers[m].plan.snap;
    assert PlanOk(s, m, s.managers[m].plan);
    assert RowOk(s, snap.key);
  }

  lemma WriteHonours(s: Sys, m: nat, drawn: Lease, k: Key)
    requires Inv(s) && m in s.managers
    requires k in s.table && Marked(s.table[k])
    ensures k in WriteNext(s, m, drawn).table
    ensures Honoured(WriteNext(s, m, drawn).table[k]) <==> !Overlooks(s, Write(m, drawn), k)
  {
    match s.managers[m].plan
    case Edited(snap, edit) => EditHonours(s, m, snap, edit, k);
    case ClaimNext(snap, now) => ClaimHonours(s, m, drawn, k);
    case FinishSeen(lease, snap) => FinishHonours(s, m, lease, snap, drawn, k);
    case _ =>
  }

  /**
   With any number of managers, the state of a marked row stops being honoured exactly when
   a worker of this lease writes an unverified end after reading the row before it was marked.
   */
  lemma MarkLostExactly(s: Sys, e: Event, t: Sys, k: Key)
    requires Reachable(s) && t == Step(s, e) && k in s.table && Marked(s.table[k])
    ensures k in t.table
    ensures Honoured(t.table[k]) <==> !Overlooks(s, e, k)
  {
    ReachableHolds(s);
    HonouredStep(s, e, t, k);
  }

  lemma HonouredStep(s: Sys, e: Event, t: Sys, k: Key)
    requires Inv(s) && t == Step(s, e) && k in s.table && Marked(s.table[k])
    ensures k in t.table
    ensures Honoured(t.table[k]) <==> !Overlooks(s, e, k)
  {
    if IsCall(e) || e.Decide? || e.Abort? {
      assert t.table == s.table;
    } else if IsDelete(e) || (IsWorker(e) && !e.Heartbeat?) {
      assert t.table == s.table;
    } else {
      match e
      case Heartbeat(lease, now) => RenewHonours(s, lease, now, k);
      case SweepOne(m, key) => SweepHonours(s, m, key, k);
      case Write(m, drawn) => if m in s.managers { WriteHonours(s, m, drawn, k); }
    }
  }

  /** The claim of a row it has read as marked, and as expired when its call sampled the clock. */
  ghost predicate Reclaims(s: Sys, e: Event, k: Key) {
    && e.Write? && e.m in s.managers && s.managers[e.m].plan.ClaimNext?
    && k in s.table && s.managers[e.m].plan.snap == s.table[k] && Marked(s.table[k])
    && Deadline(s.table[k]) <= s.managers[e.m].plan.now
    && e.drawn !in s.workers
  }

  /** With any number of managers, a marked row is claimed exactly by a plan that read it as marked and expired. */
  lemma MarkedGrantedExactly(s: Sys, e: Event, k: Key)
    requires Reachable(s) && k in s.table && Marked(s.table[k])
    ensures Grants(s, e, k) <==> Reclaims(s, e, k)
  {
    ReachableHolds(s);
    MarkedGranted(s, e, k);
  }

  lemma MarkedGranted(s: Sys, e: Event, k: Key)
    requires Inv(s) && k in s.table && Marked(s.table[k])
    ensures Grants(s, e, k) <==> Reclaims(s, e, k)
  {
    assert RowOk(s, k);
    if e.Write? && e.m in s.managers { assert PlanOk(s, e.m, s.managers[e.m].plan); }
  }

  ghost predicate ClaimsMarked(s: Sys, m: nat) {
    m in s.managers && s.managers[m].plan.ClaimNext? && Marked(s.managers[m].plan.snap)
  }

  /** The second read of a claim whose first write lost a race, when it finds the row marked. */
  predicate RereadsMarked(s: Sys, e: Event, m: nat) {
    && e.Write? && e.m == m && m in s.managers && s.managers[m].plan.Reread?
    && s.managers[m].plan.key in s.table && Marked(s.table[s.managers[m].plan.key])
  }

  /** A manager comes to claim a row it knows to be marked only by such a second read. */
  lemma OnlyRereadClaimsMarked(s: Sys, e: Event, m: nat)
    requires Reachable(s) && !ClaimsMarked(s, m)
    ensures ClaimsMarked(Step(s, e), m) <==> RereadsMarked(s, e, m)
  {
    ReachableHolds(s);
    if IsCall(e) || e.Decide? {
      CallsDoNotClaim(s, e, m);
    } else if e.Abort? || e.SweepOne? {
      OthersDoNotClaim(s, e, m);
    } else if e.Write? {
      if e.m in s.managers { WriteClaimsMarked(s, e.m, e.drawn, m); }
    } else {
      assert !ClaimsMarked(Step(s, e), m);
    }
  }

  lemma CallsDoNotClaim(s: Sys, e: Event, m: nat)
    requires Inv(s) && !ClaimsMarked(s, m)
    requires IsCall(e) || e.Decide?
    ensures !ClaimsMarked(Step(s, e), m)
  {
  }

  lemma OthersDoNotClaim(s: Sys, e: Event, m: nat)
    requires !ClaimsMarked(s, m) && (e.Abort? || e.SweepOne?)
    ensures !ClaimsMarked(Step(s, e), m)
  {
  }

  lemma WriteClaimsMarked(s: Sys, n: nat, drawn: Lease, m: nat)
    requires Inv(s) && n in s.managers && !ClaimsMarked(s, m)
    ensures ClaimsMarked(WriteNext(s, n, drawn), m) <==> RereadsMarked(s, Write(n, drawn), m)
  {
    assert PlanOk(s, n, s.managers[n].plan);
  }

  /** The mark was kept since `s`: running and marked or settled for good, and never claimed again. */
  predicate MarkKept(s: Sys, t: Sys, k: Key)
    requires k in s.table
  {
    && k in t.table
    && (Marked(t.table[k]) || t.table[k].state == Retained || t.table[k].state == Cancelled
        || (t.table[k].state == Completed && t.table[k].status == VerifiedAbsent))
    && t.table[k].attempts == s.table[k].attempts
    && Count(t.claims, k) == Count(s.claims, k)
  }

  lemma SettledStays(s: Sys, u: Sys, e: Event, k: Key)
    requires Inv(u) && k in s.table && MarkKept(s, u, k) && !Marked(u.table[k])
    ensures MarkKept(s, Step(u, e), k) && !Overlooks(u, e, k)
  {
    var t := Step(u, e);
    StepKeeps(u, e);
    assert Advances(u.table[k], t.table[k]);
    assert RowOk(u, k) && RowOk(t, k) && Counted(u, k) && Counted(t, k);
  }

  lemma MarkedStep(s: Sys, u: Sys, e: Event, k: Key)
    requires Inv(u) && k in s.table && MarkKept(s, u, k) && Marked(u.table[k])
    ensures MarkKept(s, Step(u, e), k) <==> !Overlooks(u, e, k) && !Reclaims(u, e, k)
  {
    var t := Step(u, e);
    StepKeeps(u, e);
    StepGrantsOrKeeps(u, e, t, k);
    MarkedGranted(u, e, k);
    HonouredStep(u, e, t, k);
    assert RowOk(t, k);
  }

  /** One step keeps a kept mark exactly if it neither overlooks the mark nor claims the row. */
  lemma MarkKeptStep(s: Sys, u: Sys, e: Event, k: Key)
    requires Inv(u) && k in s.table && MarkKept(s, u, k)
    ensures MarkKept(s, Step(u, e), k) <==> !Overlooks(u, e, k) && !Reclaims(u, e, k)
  {
    if Marked(u.table[k]) { MarkedStep(s, u, e, k); } else { SettledStays(s, u, e, k); }
  }

  /** After every prefix of the run the mark was kept. */
  predicate KeptThroughout(s: Sys, events: seq<Event>, k: Key)
    requires k in s.table
    decreases |events|
  {
    MarkKept(s, Run(s, events), k) && (events != [] ==> KeptThroughout(s, events[..|events| - 1], k))
  }

  /** No step of the run overlooks the mark or claims the row it knows to be marked. */
  ghost predicate NeverPassedOver(s: Sys, events: seq<Event>, k: Key)
    decreases |events|
  {
    events != [] ==>
      var less, e := events[..|events| - 1], events[|events| - 1];
      NeverPassedOver(s, less, k) && !Overlooks(Run(s, less), e, k) && !Reclaims(Run(s, less), e, k)
  }

  /**
   With any number of managers and over any run: once a row is marked, it stays marked or
   settled and is never claimed again, at every point of the run, if and only if no worker
   writes an end that overlooks the mark and no manager claims the row it read as marked.
   */
  lemma {:induction false} MarkKeptExactly(s: Sys, events: seq<Event>, k: Key)
    requires Reachable(s) && k in s.table && Marked(s.table[k])
    ensures KeptThroughout(s, events, k) <==> NeverPassedOver(s, events, k)
    decreases |events|
  {
    ReachableHolds(s);
    if events != [] {
      var less := events[..|events| - 1];
      MarkKeptExactly(s, less, k);
      RunKeeps(s, less);
      if MarkKept(s, Run(s, less), k) { MarkKeptStep(s, Run(s, less), events[|events| - 1], k); }
    }
  }

  // ---------------------------------------------------------------- one manager

  /** What one manager's lock adds: nobody else marks or edits between its read and its write. */
  ghost predicate LockKept(s: Sys, plan: Plan) {
    match plan
    case FinishSeen(lease, snap) =>
      snap.key in s.table && (s.table[snap.key].lease == Some(lease) ==> s.table[snap.key].error == snap.error)
    case ClaimSeen(snap, _) =>
      snap.key in s.table && (snap.state == Pending || snap.state == Failed ==> s.table[snap.key] == snap)
    case ClaimNext(snap, _) => !Marked(snap)
    case Edited(snap, edit) => edit.MakeDue? ==> snap.key in s.table && s.table[snap.key] == snap
    case Reread(_, _) => false
    case _ => true
  }

  ghost predicate Solo(s: Sys, m: nat) {
    s.managers.Keys == {m} && LockKept(s, s.managers[m].plan)
  }

  lemma SoloBeginClaim(s: Sys, e: Event, m: nat)
    requires Inv(s) && Solo(s, m) && e.Claim?
    ensures Solo(Step(s, e), m)
  {
    if CanCall(s, e.m) && KeyFor(s, e.m, e.cid) in s.table {
      assert RowOk(s, KeyFor(s, e.m, e.cid));
    }
  }

  lemma SoloRequest(s: Sys, e: Event, m: nat)
    requires Solo(s, m)
    requires e.Retain? || e.Remove? || e.Cancel?
    ensures Solo(Step(s, e), m)
  {
  }

  lemma SoloAccount(s: Sys, e: Event, m: nat)
    requires Solo(s, m)
    requires e.Tick? || e.Bind? || e.SwitchAccount? || e.SweepDone?
    ensures Solo(Step(s, e), m)
  {
  }

  lemma SoloCall(s: Sys, e: Event, m: nat)
    requires Inv(s) && Solo(s, m) && IsCall(e)
    ensures Solo(Step(s, e), m)
  {
    if e.Claim? {
      SoloBeginClaim(s, e, m);
    } else if e.Retain? || e.Remove? || e.Cancel? {
      SoloRequest(s, e, m);
    } else {
      SoloAccount(s, e, m);
    }
  }

  lemma SoloDecide(s: Sys, m: nat)
    requires Inv(s) && Solo(s, m)
    ensures Solo(DecideNext(s, m), m)
  {
    assert PlanOk(s, m, s.managers[m].plan);
    var plan := DecideNext(s, m).managers[m].plan;
    assert DecideNext(s, m).table == s.table;
    assert LockKept(s, plan);
  }

  lemma SoloAbort(s: Sys, m: nat)
    requires Inv(s) && Solo(s, m)
    ensures Solo(AbortCall(s, m), m)
  {
    assert PlanOk(s, m, s.managers[m].plan);
  }

  lemma SoloInsert(s: Sys, m: nat, record: Row, thenClaim: bool)
    requires Inv(s) && Solo(s, m)
    ensures Solo(WriteInsert(s, m, record, thenClaim), m)
  {
    assert RowOk(s, record.key);
  }

  lemma SoloHeartbeat(s: Sys, lease: Lease, now: Time, m: nat)
    requires Inv(s) && Solo(s, m)
    ensures Solo(RenewLease(s, lease, now), m)
  {
    var t := RenewLease(s, lease, now);
    assert PlanOk(s, m, s.managers[m].plan);
    assert t.managers == s.managers;
    if t != s {
      assert RowOk(s, s.workers[lease].key);
    }
  }

  lemma SoloWorker(s: Sys, e: Event, m: nat)
    requires Solo(s, m)
    requires (IsDelete(e) && !e.BeginFinish?) || (IsWorker(e) && !e.Heartbeat?)
    ensures Solo(Step(s, e), m)
  {
    assert Step(s, e).table == s.table && Step(s, e).managers == s.managers;
  }

  lemma SoloSweep(s: Sys, n: nat, key: Key, m: nat)
    requires Solo(s, m)
    ensures Solo(WriteSweep(s, n, key), m)
  {
  }

  lemma SoloFinishRead(s: Sys, lease: Lease, m: nat)
    requires Inv(s) && Solo(s, m)
    ensures Solo(FinishRead(s, lease), m)
  {
    if lease in s.workers && s.workers[lease].key in s.table {
      assert RowOk(s, s.workers[lease].key);
    }
  }

  lemma SoloWrite(s: Sys, drawn: Lease, m: nat)
    requires Inv(s) && Solo(s, m)
    ensures Solo(WriteNext(s, m, drawn), m)
  {
    assert PlanOk(s, m, s.managers[m].plan);
    match s.managers[m].plan
    case InsertJob(record, thenClaim) => SoloInsert(s, m, record, thenClaim);
    case Edited(snap, edit) =>
      if edit.MakeDue? {
        EditSawRowHere(s, m, snap, edit);
      }
    case ClaimNext(snap, now) => SoloClaim(s, snap, now, drawn, m);
    case FinishSeen(lease, snap) => SoloFinish(s, lease, snap, m);
    case _ =>
  }

  lemma EditSawRowHere(s: Sys, m: nat, snap: Row, edit: Edit)
    requires Inv(s) && m in s.managers && s.managers[m].plan == Edited(snap, edit) && edit.MakeDue?
    requires snap.key in s.table && s.table[snap.key] == snap
    ensures WriteEdit(s, m, snap, edit).managers
            == s.managers[m := s.managers[m].(plan := ClaimNext(Rewritten(snap, EditChanges(edit, s.clock), s.clock), edit.now))]
    ensures !Marked(Rewritten(snap, EditChanges(edit, s.clock), s.clock))
  {
    assert PlanOk(s, m, s.managers[m].plan);
  }

  lemma SoloClaim(s: Sys, snap: Row, now: Time, drawn: Lease, m: nat)
    requires Inv(s) && Solo(s, m) && s.managers[m].plan == ClaimNext(snap, now)
    ensures Solo(WriteClaim(s, m, snap, now, drawn), m)
  {
  }

  lemma SoloFinish(s: Sys, lease: Lease, snap: Row, m: nat)
    requires Inv(s) && Solo(s, m) && s.managers[m].plan == FinishSeen(lease, snap)
    ensures Solo(WriteFinish(s, m, lease, snap), m)
  {
  }

  lemma SoloLockStep(s: Sys, e: Event, m: nat)
    requires Inv(s) && Solo(s, m)
    requires e.Decide? || e.Abort? || e.Write? || e.SweepOne?
    ensures Solo(Step(s, e), m)
  {
    if e.m == m {
      match e
      case Decide(_) => SoloDecide(s, m);
      case Abort(_) => SoloAbort(s, m);
      case Write(_, drawn) => SoloWrite(s, drawn, m);
      case SweepOne(_, key) => SoloSweep(s, m, key, m);
    }
  }

  lemma SoloStep(s: Sys, e: Event, m: nat)
    requires Inv(s) && Solo(s, m)
    ensures Solo(Step(s, e), m)
  {
    if IsCall(e) {
      SoloCall(s, e, m);
    } else if e.BeginFinish? {
      SoloFinishRead(s, e.lease, m);
    } else if e.Heartbeat? {
      SoloHeartbeat(s, e.lease, e.now, m);
    } else if IsDelete(e) || IsWorker(e) {
      SoloWorker(s, e, m);
    } else {
      SoloLockStep(s, e, m);
    }
  }

  /** A mark seen by one manager's claim keeps it from claiming. */
  lemma MarkedIsNotGranted(s: Sys, e: Event, m: nat, k: Key)
    requires Inv(s) && Solo(s, m) && k in s.table && Marked(s.table[k])
    ensures !Grants(s, e, k) && !Overlooks(s, e, k)
  {
    assert RowOk(s, k);
    assert PlanOk(s, m, s.managers[m].plan);
  }

  lemma SoloNeverPasses(u: Sys, e: Event, m: nat, k: Key)
    requires Inv(u) && Solo(u, m) && k in u.table && Honoured(u.table[k])
    ensures !Overlooks(u, e, k) && !Reclaims(u, e, k)
  {
    assert RowOk(u, k);
    if Marked(u.table[k]) {
      MarkedIsNotGranted(u, e, m, k);
      MarkedGranted(u, e, k);
    }
  }

  lemma {:induction false} SoloMarkRun(s: Sys, events: seq<Event>, m: nat, k: Key)
    requires Inv(s) && Solo(s, m) && k in s.table && Marked(s.table[k])
    ensures Inv(Run(s, events)) && Solo(Run(s, events), m)
    ensures MarkKept(s, Run(s, events), k) && NeverPassedOver(s, events, k)
    decreases |events|
  {
    if events != [] {
      var u, e := Run(s, events[..|events| - 1]), events[|events| - 1];
      SoloMarkRun(s, events[..|events| - 1], m, k);
      SoloNeverPasses(u, e, m, k);
      MarkKeptStep(s, u, e, k);
      StepKeeps(u, e);
      SoloStep(u, e, m);
    }
  }

  /**
   Within one manager: once retention has marked a claimed row, every continuation of
   the run leaves the row running and marked, completed with verified absence, retained
   or cancelled, and it is never claimed again.
   */
  lemma RetainMarkKept(start: Sys, before: seq<Event>, after: seq<Event>, m: nat, k: Key)
    requires Initial(start) && start.managers.Keys == {m}
    requires var s := Run(start, before); k in s.table && Marked(s.table[k])
    ensures MarkKept(Run(start, before), Run(Run(start, before), after), k)
    ensures NeverPassedOver(Run(start, before), after, k)
  {
    InitialHolds(start);
    SoloRun(start, before, m);
    var s := Run(start, before);
    SoloMarkRun(s, after, m, k);
  }

  lemma {:induction false} SoloRun(s: Sys, events: seq<Event>, m: nat)
    requires Inv(s) && Solo(s, m)
    ensures Inv(Run(s, events)) && Solo(Run(s, events), m)
    decreases |events|
  {
    if events != [] {
      SoloRun(s, events[..|events| - 1], m);
      StepKeeps(Run(s, events[..|events| - 1]), events[|events| - 1]);
      SoloStep(Run(s, events[..|events| - 1]), events[|events| - 1], m);
    }
  }
}
