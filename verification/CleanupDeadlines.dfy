/**
 When a manager's own timers may delete: not before the deadline that was asked for, and
 what one deletion leaves behind when nobody interrupts it.
 */
module CleanupDeadlines {
  import opened Common
  import opened CleanupManager
  import opened CleanupEvolution
  import opened CleanupWork
  import Store = CleanupStore

  // ---------------------------------------------------------------- deadlines

  /** A task that survives keeps its deadline. */
  predicate SameDeadline(b: Book, t: Book, cid: Cid) {
    cid in b.pending && cid in t.pending && t.pending[cid].ident == b.pending[cid].ident
    ==> t.pending[cid].deleteAt == b.pending[cid].deleteAt
  }

  /** An explicit request for `cid` before `deadline`. */
  predicate Earlier(e: Event, cid: Cid, deadline: Time) {
    e.Schedule? && e.cid == cid && !e.retain && e.explicitDelay && e.deleteAt < deadline
  }

  /** Such a request, before the deadline of the task there is. */
  predicate Hastens(b: Book, e: Event, cid: Cid) {
    cid in b.pending && Earlier(e, cid, b.pending[cid].deleteAt)
  }

  lemma FollowingKeepsDeadline(b: Book, t: Book, cid: Cid, followed: Cid, row: Store.Row)
    requires BookOk(b) && TasksFollow(b, t, followed, row)
    ensures SameDeadline(b, t, cid)
  {
  }

  lemma AdoptKeepsDeadline(b: Book, cid: Cid, followed: Cid, row: Store.Row)
    requires BookOk(b)
    ensures SameDeadline(b, Adopt(b, row.(key := row.key.(resource := followed.text))), cid)
    ensures SameDeadline(b, Adopt(b, row), cid)
  {
    AdoptAs(b, followed, row);
    FollowingKeepsDeadline(b, Adopt(b, row.(key := row.key.(resource := followed.text))), cid, followed, row);
    AdoptFollows(b, row);
    FollowingKeepsDeadline(b, Adopt(b, row), cid, Cid(row.key.resource), row);
  }

  lemma ScheduleKeepsDeadline(b: Book, e: Event, cid: Cid)
    requires BookOk(b) && e.Schedule? && !Hastens(b, e, cid)
    ensures SameDeadline(b, CleanupManager.Schedule(b, e.cid, e.retain, e.explicitDelay, e.deleteAt, e.at, e.answer), cid)
  {
    if e.at.Or(b.generation) == b.generation && b.hasStore && b.scoped && e.answer.Adopted? {
      DurableKeepsDeadline(b, e, cid);
    }
  }

  lemma DurableKeepsDeadline(b: Book, e: Event, cid: Cid)
    requires BookOk(b) && e.Schedule? && b.hasStore && b.scoped && e.answer.Adopted?
    ensures SameDeadline(b, CleanupManager.Schedule(b, e.cid, e.retain, e.explicitDelay, e.deleteAt, None, e.answer), cid)
  {
    ScheduleAnswers(b, e.cid, e.retain, e.explicitDelay, e.deleteAt, e.answer.row);
  }

  lemma AdmitKeepsDeadline(b: Book, e: Event, cid: Cid, worker: nat)
    requires BookOk(b) && e.Delete?
    ensures SameDeadline(b, Admit(b, e.cid, e.at, e.expected, e.now, e.claim, worker).0, cid)
  {
    AdmitDecides(b, e.cid, e.at, e.expected, e.now, e.claim, worker);
    if e.claim.Refused? || e.claim.Granted? { AdoptKeepsDeadline(b, cid, e.cid, e.claim.row); }
  }

  lemma WorkerKeepsDeadline(w: World, e: Event, cid: Cid)
    requires BookOk(w.book)
    requires e.Begin? || e.Succeed? || e.Fail? || e.Abandon? || e.LoseRow? || e.SuspendWork? || e.EndDurable?
    ensures SameDeadline(w.book, WorkerStep(w, e).book, cid)
  {
    if Live(w, e.worker) {
      var me := w.workers[e.worker];
      if e.LoseRow? && e.seen.Some? { AdoptKeepsDeadline(w.book, cid, me.cid, e.seen.value); }
      if e.EndDurable? && e.end.Written? { AdoptKeepsDeadline(w.book, cid, me.cid, e.end.row); }
    }
  }

  /** Nothing but an explicit earlier request for the chat itself changes the deadline of a task that stays. */
  lemma StepKeepsDeadline(w: World, e: Event, cid: Cid)
    requires Inv(w) && !Hastens(w.book, e, cid)
    ensures SameDeadline(w.book, Step(w, e).book, cid)
  {
    if e.Schedule? {
      ScheduleKeepsDeadline(w.book, e, cid);
    } else if e.Delete? {
      AdmitKeepsDeadline(w.book, e, cid, |w.workers|);
    } else if e.Refresh? {
      AdoptKeepsDeadline(w.book, cid, cid, e.row);
    } else if e.Switch? {
      SwitchCancels(w.book, e.ids, cid);
    } else if e.Bind? || e.ContextChange? || e.Timeout? || e.Failure? || e.Callback? {
      OtherKeepsDeadline(w, e, cid);
    } else {
      WorkerKeepsDeadline(w, e, cid);
    }
  }

  lemma OtherKeepsDeadline(w: World, e: Event, cid: Cid)
    requires Inv(w) && (e.Bind? || e.ContextChange? || e.Timeout? || e.Failure? || e.Callback?)
    ensures SameDeadline(w.book, Step(w, e).book, cid)
  {
  }

  /** If task `ident` of a chat still exists, its deadline is `deadline`. */
  predicate DueAt(b: Book, cid: Cid, ident: nat, deadline: Time) {
    ident < b.nextIdent && (cid in b.pending && b.pending[cid].ident == ident ==> b.pending[cid].deleteAt == deadline)
  }

  lemma {:induction false} DeadlineStays(w: World, events: seq<Event>, cid: Cid, ident: nat, deadline: Time)
    requires Inv(w) && DueAt(w.book, cid, ident, deadline)
    requires forall i :: 0 <= i < |events| ==> !Earlier(events[i], cid, deadline)
    ensures DueAt(Run(w, events).book, cid, ident, deadline)
    decreases |events|
  {
    if events != [] {
      var less, e := events[..|events| - 1], events[|events| - 1];
      forall i | 0 <= i < |less| ensures !Earlier(less[i], cid, deadline) { assert less[i] == events[i]; }
      DeadlineStays(w, less, cid, ident, deadline);
      RunKeeps(w, less);
      var t := Run(w, less);
      StepEvolves(t, e);
      assert TaskFrom(t.book, Step(t, e).book, cid);
      if cid in t.book.pending && t.book.pending[cid].ident == ident { StepKeepsDeadline(t, e, cid); }
    }
  }

  /**
   Over any run without an explicit earlier request for the chat, no automatic deletion
   starts on a pending task before the deadline it has.
   */
  lemma NotStartedEarly(w: World, cid: Cid, events: seq<Event>, at: Option<int>, due: Due, now: Time, claim: ClaimAnswer)
    requires Reachable(w) && cid in w.book.pending && due.ident == w.book.pending[cid].ident
    requires forall i :: 0 <= i < |events| ==> !Earlier(events[i], cid, w.book.pending[cid].deleteAt)
    ensures var u := Run(w, events);
            |StartDeletion(u, cid, at, Some(due), now, claim).workers| > |u.workers| ==> w.book.pending[cid].deleteAt <= now
  {
    ReachableHolds(w);
    DeadlineStays(w, events, cid, due.ident, w.book.pending[cid].deleteAt);
    AutomaticStart(Run(w, events), cid, at, due, now, claim);
  }

  lemma ReachableStep(w: World, e: Event)
    requires Reachable(w)
    ensures Reachable(Step(w, e))
  {
    var start, events :| Initial(start) && w == Run(start, events);
    assert (events + [e])[..|events|] == events;
    assert Step(w, e) == Run(start, events + [e]);
  }

  /**
   A chat scheduled for the first time gets a task with exactly the deadline asked for and
   no attempts, and unless someone explicitly asks for an earlier one, it is not deleted
   automatically before.
   */
  lemma NotDeletedEarly(w: World, cid: Cid, explicitDelay: bool, deadline: Time, events: seq<Event>,
                        at: Option<int>, due: Due, now: Time, claim: ClaimAnswer)
    requires Reachable(w) && !w.book.hasStore && ValidId(cid) && cid !in w.book.pending && cid !in w.book.completed
    requires forall i :: 0 <= i < |events| ==> !Earlier(events[i], cid, deadline)
    ensures var t := Step(w, Schedule(cid, false, explicitDelay, deadline, None, NoJob));
            && cid in t.book.pending && t.book.pending[cid].deleteAt == deadline && t.book.pending[cid].attempts == 0
            && (forall other :: other in w.book.pending ==> other in t.book.pending && t.book.pending[other] == w.book.pending[other])
            && var u := Run(t, events);
               (due.ident == t.book.pending[cid].ident && |StartDeletion(u, cid, at, Some(due), now, claim).workers| > |u.workers|
                ==> deadline <= now)
  {
    var t := Step(w, Schedule(cid, false, explicitDelay, deadline, None, NoJob));
    FirstScheduleMakes(w.book, cid, explicitDelay, deadline);
    ReachableStep(w, Schedule(cid, false, explicitDelay, deadline, None, NoJob));
    if due.ident == t.book.pending[cid].ident { NotStartedEarly(t, cid, events, at, due, now, claim); }
  }

  lemma FirstScheduleMakes(b: Book, cid: Cid, explicitDelay: bool, deadline: Time)
    requires !b.hasStore && cid !in b.pending && cid !in b.completed
    ensures var t := CleanupManager.Schedule(b, cid, false, explicitDelay, deadline, None, NoJob);
            && t.pending == b.pending[cid := Task(b.nextIdent, deadline, 0, b.generation, None)] && t.nextIdent == b.nextIdent + 1
  {
  }

  /** A task that follows a durable row is due when the row is, or when its lease ends if that is later. */
  lemma AdoptedDeadline(b: Book, cid: Cid, row: Store.Row)
    requires Unsettled(row) && !(cid in b.pending && b.pending[cid].version == Some(row.version))
    ensures var t := Adopt(b, row.(key := row.key.(resource := cid.text)));
            && cid in t.pending && t.pending[cid].attempts == row.attempts && t.pending[cid].version == Some(row.version)
            && row.dueAt <= t.pending[cid].deleteAt
            && (row.state == Store.Running ==> row.leaseUntil.Or(0.0) <= t.pending[cid].deleteAt)
            && (t.pending[cid].deleteAt == row.dueAt || (row.state == Store.Running && t.pending[cid].deleteAt == row.leaseUntil.Or(0.0)))
  {
    AdoptAs(b, cid, row);
  }

  // ---------------------------------------------------------------- one deletion, uninterrupted

  function Attempts(b: Book, cid: Cid): nat { if cid in b.pending then b.pending[cid].attempts else 0 }

  /** An explicit deletion and its first step: one more attempt, and a worker at work. */
  function Started(w: World, cid: Cid, now: Time): World {
    Step(Step(w, Delete(cid, None, None, now, NotDurable)), Begin(|w.workers|))
  }

  lemma DeletionStarts(w: World, cid: Cid, now: Time)
    requires !w.book.hasStore && ValidId(cid) && cid !in w.book.completed && cid !in w.book.inflight
    ensures var t := Started(w, cid, now);
            && t.workers == w.workers + [Worker(cid, w.book.generation, false, 0, Active(Attempts(w.book, cid) + 1))]
            && t.book.inflight == w.book.inflight[cid := |w.workers|] && t.book.completed == w.book.completed
            && t.book.generation == w.book.generation
            && t.book.pending == (if cid in w.book.pending
                                  then w.book.pending[cid := w.book.pending[cid].(attempts := Attempts(w.book, cid) + 1)] else w.book.pending)
  {
    var t := Step(w, Delete(cid, None, None, now, NotDurable));
    assert t == World(w.book.(inflight := w.book.inflight[cid := |w.workers|]), w.workers + [Worker(cid, w.book.generation, false, 0, Created)]);
  }

  /** It succeeds: the chat is completed, no longer pending, and nobody is at work on it. */
  lemma DeletionCompletes(w: World, cid: Cid, now: Time)
    requires !w.book.hasStore && ValidId(cid) && cid !in w.book.completed && cid !in w.book.inflight
    ensures var t := Step(Step(Started(w, cid, now), Succeed(|w.workers|)), Callback(|w.workers|));
            && cid in t.book.completed && t.book.completed[cid].state == Completed
            && t.book.completed == w.book.completed[cid := t.book.completed[cid]]
            && t.book.pending == w.book.pending - {cid} && t.book.inflight == w.book.inflight
            && t.workers == w.workers + [Worker(cid, w.book.generation, false, 0, Done(Completed))]
  {
    DeletionStarts(w, cid, now);
    var t := Started(w, cid, now);
    WorkerEnds(t, |w.workers|, now);
    CallbackReleases(Step(t, Succeed(|w.workers|)), |w.workers|);
    assert t.book.pending - {cid} == w.book.pending - {cid};
    assert t.book.inflight - {cid} == w.book.inflight;
  }

  lemma CallbackReleases(w: World, id: nat)
    requires id < |w.workers| && w.workers[id].pc.Done? && w.workers[id].cid in w.book.inflight && w.book.inflight[w.workers[id].cid] == id
    ensures Step(w, Callback(id)) == w.(book := w.book.(inflight := w.book.inflight - {w.workers[id].cid}))
  {
  }

  lemma WorkerEnds(w: World, id: nat, now: Time)
    requires id < |w.workers| && w.workers[id].pc.Active? && w.workers[id].generation == w.book.generation
    ensures var me := w.workers[id]; var t := Step(w, Succeed(id));
            && t.workers == w.workers[id := me.(pc := Done(Completed))]
            && t.book.pending == w.book.pending - {me.cid}
            && t.book.completed == w.book.completed[me.cid := Observation(Completed, me.pc.attempts, false)]
            && t.book.inflight == w.book.inflight && t.book.generation == w.book.generation
    ensures var me := w.workers[id]; var t := Step(w, Fail(id, now));
            && t.workers == w.workers[id := me.(pc := Done(Failed))]
            && t.book.pending == w.book.pending[me.cid := if me.cid in w.book.pending then w.book.pending[me.cid].(attempts := me.pc.attempts)
                                                          else Task(w.book.nextIdent, now, me.pc.attempts, w.book.generation, None)]
            && t.book.completed == w.book.completed && t.book.inflight == w.book.inflight
  {
  }

  /** It fails: the chat stays pending at its old deadline with the attempt counted, and may be tried again. */
  lemma DeletionFails(w: World, cid: Cid, now: Time, later: Time)
    requires !w.book.hasStore && ValidId(cid) && cid !in w.book.completed && cid !in w.book.inflight && cid in w.book.pending
    ensures var t := Step(Step(Started(w, cid, now), Fail(|w.workers|, later)), Callback(|w.workers|));
            && t.book.pending == w.book.pending[cid := w.book.pending[cid].(attempts := w.book.pending[cid].attempts + 1)]
            && t.book.completed == w.book.completed && t.book.inflight == w.book.inflight
            && t.workers == w.workers + [Worker(cid, w.book.generation, false, 0, Done(Failed))]
  {
    DeletionStarts(w, cid, now);
    var t := Started(w, cid, now);
    WorkerEnds(t, |w.workers|, later);
    CallbackReleases(Step(t, Fail(|w.workers|, later)), |w.workers|);
    assert t.book.inflight - {cid} == w.book.inflight;
  }

  /** A durable worker that ends, or finds its authority gone, follows the row it wrote or saw, and reports its state. */
  lemma DurableWorkerFollows(w: World, id: nat, row: Store.Row, lost: bool)
    requires Live(w, id) && w.workers[id].durable && w.workers[id].generation == w.book.generation
    ensures var t := Step(w, if lost then LoseRow(id, Some(row)) else EndDurable(id, Written(row)));
            && FollowedAs(w.book, t.book, w.workers[id].cid, row)
            && |t.workers| == |w.workers| && t.workers[id].pc.Done? && Shows(row, t.workers[id].pc.outcome)
            && t.workers == w.workers[id := t.workers[id]]
  {
    AdoptAs(w.book, w.workers[id].cid, row);
  }

  /** A granted durable claim starts a worker that knows the attempt it counted. */
  lemma DurableDeletionStarts(w: World, cid: Cid, expected: Option<Due>, now: Time, row: Store.Row)
    requires w.book.hasStore && w.book.scoped && ValidId(cid) && cid !in w.book.completed && cid !in w.book.inflight
    requires expected.Some? ==> StillDue(w.book, cid, expected.value, now)
    ensures var t := Step(w, Delete(cid, None, expected, now, Granted(row)));
            && t.workers == w.workers + [Worker(cid, w.book.generation, true, row.attempts, Created)]
            && t.book.inflight == w.book.inflight[cid := |w.workers|]
            && FollowedAs(w.book, t.book.(inflight := w.book.inflight), cid, row)
  {
    AdmitDecides(w.book, cid, None, expected, now, Granted(row), |w.workers|);
  }

  /** A durable worker whose terminal write failed leaves its work as it is, suspended, with its attempt. */
  lemma FailedWriteSuspends(w: World, id: nat)
    requires Live(w, id) && w.workers[id].durable && w.workers[id].generation == w.book.generation
    ensures var t := Step(w, EndDurable(id, WriteFailed)); var me := w.workers[id];
            && SameWork(w.book, t.book) && t.book.suspended == w.book.suspended + {me.cid}
            && Noted(w.book, t.book, me.cid, Observation(Failed, me.claimed, false), w.book.generation)
            && t.workers == w.workers[id := me.(pc := Done(Failed))]
  {
  }

  /** A refresh follows every durable row of the scope. */
  lemma RefreshFollows(w: World, row: Store.Row)
    requires w.book.hasStore && w.book.scoped
    ensures FollowedAs(w.book, Step(w, Refresh(row)).book, Cid(row.key.resource), row)
  {
    AdoptFollows(w.book, row);
  }

  /** A bound scope lifts every suspension. */
  lemma BindLifts(w: World)
    ensures var t := Step(w, Bind); t.book.scoped && t.book.suspended == {} && SameWork(w.book, t.book) && t.workers == w.workers
  {
  }
}
