/**
 How the manager's book may develop under its locked sections: generations and
 observation generations only advance, deadlines only come earlier, a dropped task never
 returns, and completions stay until the account is switched.
 */
module CleanupEvolution {
  import opened Common
  import opened CleanupManager
  import Store = CleanupStore

  // ---------------------------------------------------------------- how the book develops

  /** A pending entry is the same task with the same or an earlier deadline, or a new object. */
  predicate TaskFrom(b: Book, t: Book, cid: Cid) {
    cid in t.pending ==>
      || (cid in b.pending && t.pending[cid].ident == b.pending[cid].ident && t.pending[cid].deleteAt <= b.pending[cid].deleteAt)
      || b.nextIdent <= t.pending[cid].ident < t.nextIdent
  }

  predicate CancellationKept(b: Book, t: Book, past: Past) {
    && (past in t.cancelled ==> past in b.cancelled || t.cancelled[past].state == Cancelled)
    && (past in b.cancelled ==> past in t.cancelled && t.cancelled[past] == b.cancelled[past])
  }

  predicate ObservedLater(b: Book, t: Book, cid: Cid) {
    ObservedAt(b, cid) <= ObservedAt(t, cid)
  }

  /** What every section keeps, and what composes over runs. */
  ghost predicate Evolves(b: Book, t: Book) {
    && b.generation <= t.generation && b.nextIdent <= t.nextIdent
    && (b.generation == t.generation ==> b.completed.Keys <= t.completed.Keys)
    && (forall cid :: TaskFrom(b, t, cid))
    && (forall past :: CancellationKept(b, t, past))
    && (forall cid :: ObservedLater(b, t, cid))
  }

  lemma EvolvesRefl(b: Book)
    ensures Evolves(b, b)
  {
  }

  lemma EvolvesTrans(b: Book, t: Book, u: Book)
    requires Evolves(b, t) && Evolves(t, u)
    ensures Evolves(b, u)
  {
    forall cid ensures TaskFrom(b, u, cid) { assert TaskFrom(b, t, cid) && TaskFrom(t, u, cid); }
    forall past ensures CancellationKept(b, u, past) { assert CancellationKept(b, t, past) && CancellationKept(t, u, past); }
    forall cid ensures ObservedLater(b, u, cid) { assert ObservedLater(b, t, cid) && ObservedLater(t, u, cid); }
  }

  lemma RecordEvolves(b: Book, cid: Cid, seen: Observation, generation: int)
    ensures Evolves(b, Record(b, cid, seen, generation))
  {
  }

  lemma ThenRecord(b: Book, t: Book, cid: Cid, seen: Observation, generation: int)
    requires Evolves(b, t)
    ensures Evolves(b, Record(t, cid, seen, generation))
  {
    RecordEvolves(t, cid, seen, generation);
    EvolvesTrans(b, t, Record(t, cid, seen, generation));
  }

  lemma CancelForEvolves(b: Book, cid: Cid, generation: int)
    ensures Evolves(b, CancelFor(b, cid, generation))
  {
    var seen := CancellationOf(b, cid, generation);
    var t := b.(cancelled := b.cancelled[Past(generation, cid) := seen]);
    assert Evolves(b, t);
    ThenRecord(b, t, cid, seen, generation);
  }

  lemma NewTaskEvolves(b: Book, cid: Cid, deleteAt: Time, attempts: nat, version: Option<nat>)
    ensures Evolves(b, NewTask(b, cid, deleteAt, attempts, version))
  {
  }

  lemma DropTaskEvolves(b: Book, cid: Cid)
    ensures Evolves(b, DropTask(b, cid))
  {
  }

  lemma EditTaskEvolves(b: Book, cid: Cid, task: Task)
    requires cid in b.pending && task.ident == b.pending[cid].ident && task.deleteAt <= b.pending[cid].deleteAt
    ensures Evolves(b, EditTask(b, cid, task))
  {
  }

  lemma MarkCompletedEvolves(b: Book, cid: Cid, seen: Observation)
    ensures Evolves(b, MarkCompleted(b, cid, seen))
  {
  }

  lemma FailStorageEvolves(b: Book, cid: Cid, attempts: nat)
    ensures Evolves(b, FailStorage(b, cid, attempts))
  {
    var t := b.(suspended := b.suspended + {cid});
    assert Evolves(b, t);
    ThenRecord(b, t, cid, Observation(Failed, attempts, false), b.generation);
  }

  lemma FollowEvolves(b: Book, cid: Cid, row: Store.Row)
    ensures Evolves(b, Follow(b, cid, row))
  {
    EvolvesRefl(b);
    NewTaskEvolves(b, cid, DueOf(row), row.attempts, Some(row.version));
    DropTaskEvolves(b, cid);
  }

  lemma AdoptEvolves(b: Book, row: Store.Row)
    ensures Evolves(b, Adopt(b, row))
  {
    var cid := Cid(row.key.resource);
    var seen := Observation(StateOf(row), row.attempts, false);
    var followed := Follow(b, cid, row);
    FollowEvolves(b, cid, row);
    if row.state == Store.Completed {
      MarkCompletedEvolves(followed, cid, seen);
      EvolvesTrans(b, followed, MarkCompleted(followed, cid, seen));
      ThenRecord(b, MarkCompleted(followed, cid, seen), cid, seen, b.generation);
    } else {
      ThenRecord(b, followed, cid, seen, b.generation);
    }
  }

  lemma ScheduleHereEvolves(b: Book, cid: Cid, retain: bool, explicitDelay: bool, deleteAt: Time)
    ensures Evolves(b, ScheduleHere(b, cid, retain, explicitDelay, deleteAt))
  {
    if cid in b.completed {
      RecordEvolves(b, cid, b.completed[cid].(state := AlreadyCompleted, idempotent := true), b.generation);
    } else if retain {
      DropTaskEvolves(b, cid);
      ThenRecord(b, DropTask(b, cid), cid, Observation(Retained, 0, false), b.generation);
    } else if cid !in b.pending {
      NewTaskEvolves(b, cid, deleteAt, 0, None);
      ThenRecord(b, NewTask(b, cid, deleteAt, 0, None), cid, Observation(Pending, 0, false), b.generation);
    } else if explicitDelay && deleteAt < b.pending[cid].deleteAt {
      var edited := b.pending[cid].(deleteAt := deleteAt);
      EditTaskEvolves(b, cid, edited);
      ThenRecord(b, EditTask(b, cid, edited), cid, Observation(Pending, b.pending[cid].attempts, true), b.generation);
    } else if cid in b.observations && b.observations[cid].state == Failed {
      RecordEvolves(b, cid, b.observations[cid].(idempotent := true), b.generation);
    } else {
      RecordEvolves(b, cid, Observation(Pending, b.pending[cid].attempts, true), b.generation);
    }
  }

  lemma ScheduleEvolves(b: Book, cid: Cid, retain: bool, explicitDelay: bool, deleteAt: Time, at: Option<int>, answer: DurableAnswer)
    ensures var t := Schedule(b, cid, retain, explicitDelay, deleteAt, at, answer);
            Evolves(b, t)
  {
    if at.Or(b.generation) != b.generation {
      CancelForEvolves(b, cid, at.value);
    } else if b.hasStore && !b.scoped {
      RecordEvolves(b, cid, Observation(Cancelled, 0, false), b.generation);
    } else if !b.hasStore || answer.NoJob? {
      ScheduleHereEvolves(b, cid, retain, explicitDelay, deleteAt);
    } else if answer.StoreFailed? {
      FailStorageEvolves(b, cid, 0);
    } else {
      var row := answer.row.(key := answer.row.key.(resource := cid.text));
      AdoptEvolves(b, row);
      var adopted := Adopt(b, row);
      var settled := if retain && Store.Marked(row) then DropTask(adopted, cid) else adopted;
      if retain && Store.Marked(row) {
        DropTaskEvolves(adopted, cid);
        EvolvesTrans(b, adopted, settled);
      }
      ThenRecord(b, settled, cid, Observation(ShownState(row, retain), row.attempts, ShownState(row, retain) == AlreadyCompleted), b.generation);
    }
  }

  lemma ScheduleFrame(b: Book, cid: Cid, retain: bool, explicitDelay: bool, deleteAt: Time, at: Option<int>, answer: DurableAnswer)
    ensures var t := Schedule(b, cid, retain, explicitDelay, deleteAt, at, answer);
            t.inflight == b.inflight && t.generation == b.generation
  {
  }

  lemma BeginAttemptEvolves(b: Book, cid: Cid, generation: int)
    ensures Evolves(b, BeginAttempt(b, cid, generation))
  {
    if generation != b.generation {
      CancelForEvolves(b, cid, generation);
    } else if cid in b.pending {
      var counted := b.pending[cid].(attempts := b.pending[cid].attempts + 1);
      EditTaskEvolves(b, cid, counted);
      ThenRecord(b, EditTask(b, cid, counted), cid, Observation(Pending, counted.attempts, false), generation);
    } else {
      RecordEvolves(b, cid, Observation(Pending, 1, false), generation);
    }
  }

  lemma CompleteEvolves(b: Book, cid: Cid, attempts: nat, generation: int)
    ensures Evolves(b, Complete(b, cid, attempts, generation))
  {
    if generation != b.generation {
      CancelForEvolves(b, cid, generation);
    } else {
      var seen := Observation(Completed, attempts, false);
      DropTaskEvolves(b, cid);
      MarkCompletedEvolves(DropTask(b, cid), cid, seen);
      EvolvesTrans(b, DropTask(b, cid), MarkCompleted(DropTask(b, cid), cid, seen));
      ThenRecord(b, MarkCompleted(DropTask(b, cid), cid, seen), cid, seen, generation);
    }
  }

  lemma RecordFailureEvolves(b: Book, cid: Cid, attempts: nat, generation: Option<int>, now: Time)
    ensures Evolves(b, RecordFailure(b, cid, attempts, generation, now))
  {
    if generation.Or(b.generation) != b.generation {
      CancelForEvolves(b, cid, generation.value);
    } else {
      var noted := if cid in b.pending then EditTask(b, cid, b.pending[cid].(attempts := attempts))
                   else NewTask(b, cid, now, attempts, None);
      if cid in b.pending { EditTaskEvolves(b, cid, b.pending[cid].(attempts := attempts)); }
      else { NewTaskEvolves(b, cid, now, attempts, None); }
      ThenRecord(b, noted, cid, Observation(Failed, attempts, false), b.generation);
    }
  }

  lemma LoseAuthorityEvolves(b: Book, cid: Cid, generation: int, seen: Option<Store.Row>)
    ensures Evolves(b, LoseAuthority(b, cid, generation, seen))
  {
    if generation != b.generation {
      CancelForEvolves(b, cid, generation);
    } else if seen.Some? {
      AdoptEvolves(b, seen.value.(key := seen.value.key.(resource := cid.text)));
    } else {
      EvolvesRefl(b);
    }
  }

  lemma FinishDurableEvolves(b: Book, cid: Cid, attempts: nat, generation: int, end: End)
    ensures Evolves(b, FinishDurable(b, cid, attempts, generation, end))
  {
    if generation != b.generation {
      CancelForEvolves(b, cid, generation);
    } else {
      match end
      case Written(row) => AdoptEvolves(b, row.(key := row.key.(resource := cid.text)));
      case RowGone => EvolvesRefl(b);
      case WriteFailed => FailStorageEvolves(b, cid, attempts);
    }
  }

  lemma WaitTimeoutEvolves(b: Book, cid: Cid, generation: Option<int>, now: Time)
    ensures Evolves(b, WaitTimeout(b, cid, generation, now))
  {
    EvolvesRefl(b);
    if ValidId(cid) && generation.Or(b.generation) != b.generation {
      CancelForEvolves(b, cid, generation.value);
    } else if ValidId(cid) && !(cid in b.observations && b.observations[cid].state != Pending) {
      var attempts := if cid in b.observations then b.observations[cid].attempts else 0;
      NewTaskEvolves(b, cid, now, attempts, None);
      var noted := if cid in b.pending then b else NewTask(b, cid, now, attempts, None);
      ThenRecord(b, noted, cid, Observation(Pending, attempts, false), b.generation);
    }
  }

  lemma {:induction false} SwitchEvolves(b: Book, ids: seq<Cid>)
    ensures Evolves(b, SwitchAccount(b, ids))
  {
    assert Evolves(b, Dropped(b));
    CancelEachEvolves(Dropped(b), ids, b.generation);
    EvolvesTrans(b, Dropped(b), SwitchAccount(b, ids));
  }

  lemma {:induction false} CancelEachEvolves(b: Book, ids: seq<Cid>, generation: int)
    ensures Evolves(b, CancelEach(b, ids, generation))
    decreases |ids|
  {
    if ids == [] {
      EvolvesRefl(b);
    } else {
      var front := CancelEach(b, ids[..|ids| - 1], generation);
      CancelEachEvolves(b, ids[..|ids| - 1], generation);
      CancelForEvolves(front, ids[|ids| - 1], generation);
      EvolvesTrans(b, front, CancelEach(b, ids, generation));
    }
  }

  lemma EnlistEvolves(b: Book, t: Book, cid: Cid, worker: nat)
    requires Evolves(b, t)
    ensures Evolves(b, Enlist(t, cid, worker))
  {
    var u := Enlist(t, cid, worker);
    forall c ensures TaskFrom(b, u, c) { assert TaskFrom(b, t, c); }
    forall past ensures CancellationKept(b, u, past) { assert CancellationKept(b, t, past); }
    forall c ensures ObservedLater(b, u, c) { assert ObservedLater(b, t, c); }
  }

  lemma AdmitNewEvolves(b: Book, cid: Cid, claim: ClaimAnswer, worker: nat)
    ensures Evolves(b, AdmitNew(b, cid, claim, worker).0)
  {
    match claim
    case ClaimFailed => FailStorageEvolves(b, cid, 0);
    case Refused(row) => AdoptEvolves(b, row.(key := row.key.(resource := cid.text)));
    case Granted(row) =>
      AdoptEvolves(b, row.(key := row.key.(resource := cid.text)));
      EnlistEvolves(b, Adopt(b, row.(key := row.key.(resource := cid.text))), cid, worker);
    case NotDurable =>
      EvolvesRefl(b);
      EnlistEvolves(b, b, cid, worker);
  }

  lemma AdmitEvolves(b: Book, cid: Cid, at: Option<int>, expected: Option<Due>, now: Time, claim: ClaimAnswer, worker: nat)
    ensures Evolves(b, Admit(b, cid, at, expected, now, claim, worker).0)
  {
    if at.Or(b.generation) != b.generation {
      CancelForEvolves(b, cid, at.value);
    } else if cid in b.completed {
      EvolvesRefl(b);
      RecordEvolves(b, cid, b.completed[cid].(state := AlreadyCompleted, idempotent := true), b.generation);
    } else {
      EvolvesRefl(b);
      AdmitNewEvolves(b, cid, if b.hasStore then claim else NotDurable, worker);
    }
  }

  lemma AdmitFrame(b: Book, cid: Cid, at: Option<int>, expected: Option<Due>, now: Time, claim: ClaimAnswer, worker: nat)
    ensures var (t, verdict) := Admit(b, cid, at, expected, now, claim, worker);
            && t.generation == b.generation
            && t.inflight == (if verdict.Start? then b.inflight[cid := worker] else b.inflight)
            && (verdict.Start? ==> cid !in b.inflight && cid !in b.completed)
  {
  }

  lemma SuspendEvolves(b: Book, cid: Cid, generation: int)
    ensures Evolves(b, Suspend(b, cid, generation))
  {
    EvolvesRefl(b);
  }

  lemma ReleaseEvolves(b: Book, cid: Cid, worker: nat)
    ensures Evolves(b, Release(b, cid, worker))
  {
  }

  lemma BindEvolves(b: Book)
    ensures Evolves(b, BindScope(b))
  {
  }
}
