/** Conservation of session handles, expiry, resets, invalidation, and freedom from deadlock. */
module SessionTheorems {
  import opened Common
  import opened Sessions
  import opened SessionSafety

  // ---------------------------------------------------------------- conservation

  /**
   Every handle ever made is in exactly one place: live, queued as expired, collected by an
   unfinished full reset, handed out once, written over, or dropped.
   */
  lemma OnePlace(s: Sys, maxAge: real, h: nat)
    requires Reachable(s, maxAge) && h < |s.book.handles|
    ensures multiset(s.book.live)[h] + multiset(s.book.expired)[h] + Gathered(s.tasks, h)
            + multiset(s.detached)[h] + multiset(s.lost)[h] + multiset(s.dropped)[h] == 1
  {
    ReachableHolds(s, maxAge);
    assert Placed(s, h);
  }

  /**
   The two ways a handle is lost, exactly: store_session writes over the id it is live
   under, or a full reset that has collected it is cancelled before it returns.
   */
  lemma LostExactly(s: Sys, e: Event, maxAge: real, h: nat)
    ensures h !in s.lost ==>
              (h in Step(s, e, maxAge).lost <==> e.StoreSession? && Find(s.book.handles, s.book.live, e.id) == Some(h))
    ensures h !in s.dropped ==>
              (h in Step(s, e, maxAge).dropped <==> e.Cancel? && e.task < |s.tasks| && h in TakenOf(s.tasks[e.task]))
    ensures h in s.lost ==> h in Step(s, e, maxAge).lost
    ensures h in s.dropped ==> h in Step(s, e, maxAge).dropped
  {
    if e.Advance? {
      if e.task < |s.tasks| { MoveLosesNothing(s, e.task, e.now, e.ok, maxAge); }
    }
  }

  lemma MoveLosesNothing(s: Sys, t: nat, now: real, ok: bool, maxAge: real)
    requires t < |s.tasks|
    ensures Move(s, t, now, maxAge, ok).lost == s.lost && Move(s, t, now, maxAge, ok).dropped == s.dropped
  {
  }

  predicate Gone(s: Sys, h: nat) { h in s.lost || h in s.dropped }

  lemma {:induction false} GoneForever(s: Sys, events: seq<Event>, maxAge: real, h: nat)
    requires Gone(s, h)
    ensures Gone(Run(s, events, maxAge), h)
    decreases |events|
  {
    if events != [] {
      GoneForever(s, events[..|events| - 1], maxAge, h);
      LostExactly(Run(s, events[..|events| - 1], maxAge), events[|events| - 1], maxAge, h);
    }
  }

  lemma GoneIsNotHandedOut(s: Sys, events: seq<Event>, maxAge: real, h: nat)
    requires Inv(s) && Gone(s, h)
    ensures h !in Run(s, events, maxAge).detached
  {
    GoneForever(s, events, maxAge, h);
    RunKeeps(s, events, maxAge);
    var t := Run(s, events, maxAge);
    assert Placed(t, h);
    InSeq(t.lost, h);
    InSeq(t.dropped, h);
    InSeq(t.detached, h);
  }

  lemma {:induction false} NothingGathered(tasks: seq<Pc>, h: nat)
    requires forall t :: 0 <= t < |tasks| ==> tasks[t].Done?
    ensures Gathered(tasks, h) == 0
  {
    if tasks != [] {
      assert tasks[0].Done?;
      forall t | 0 <= t < |tasks[1..]| ensures tasks[1..][t].Done? { assert tasks[1..][t] == tasks[t + 1]; }
      NothingGathered(tasks[1..], h);
    }
  }

  lemma {:induction false} MovesLoseNothing(s: Sys, events: seq<Event>, maxAge: real)
    requires forall i :: 0 <= i < |events| ==> events[i].Advance?
    ensures Run(s, events, maxAge).lost == s.lost && Run(s, events, maxAge).dropped == s.dropped
    ensures |s.book.handles| <= |Run(s, events, maxAge).book.handles|
    decreases |events|
  {
    if events != [] {
      var less, e := events[..|events| - 1], events[|events| - 1];
      MovesLoseNothing(s, less, maxAge);
      var u := Run(s, less, maxAge);
      if e.task < |u.tasks| {
        MoveLosesNothing(u, e.task, e.now, e.ok, maxAge);
        StepMarks(u, e, maxAge);
      }
    }
  }

  /** With all tasks at their end, an account switch hands out whatever is still there. */
  lemma SwitchHandsOut(s: Sys, maxAge: real, h: nat)
    requires Placed(s, h) && h < |s.book.handles| && !Gone(s, h) && Gathered(s.tasks, h) == 0
    ensures h in Step(s, InvalidateAll, maxAge).detached
  {
    InSeq(s.book.live, h);
    InSeq(s.book.expired, h);
    InSeq(s.detached, h);
    InSeq(s.lost, h);
    InSeq(s.dropped, h);
  }

  lemma CanBeHandedOut(s: Sys, maxAge: real, h: nat) returns (events: seq<Event>)
    requires Reachable(s, maxAge) && h < |s.book.handles| && !Gone(s, h)
    ensures h in Run(s, events, maxAge).detached
  {
    var moves := EveryoneFinishes(s, 0.0, true, maxAge);
    var t := Run(s, moves, maxAge);
    ReachableHolds(s, maxAge);
    RunKeeps(s, moves, maxAge);
    MovesLoseNothing(s, moves, maxAge);
    NothingGathered(t.tasks, h);
    assert Placed(t, h);
    SwitchHandsOut(t, maxAge, h);
    events := moves + [InvalidateAll];
    assert events[..|events| - 1] == moves;
  }

  /**
   Whether a handle can still be handed out, or has been: if and only if it was neither
   written over by store_session nor collected by a full reset that was then cancelled.
   */
  lemma HandedOutExactly(s: Sys, maxAge: real, h: nat)
    requires Reachable(s, maxAge) && h < |s.book.handles|
    ensures (exists events :: h in Run(s, events, maxAge).detached) <==> !Gone(s, h)
  {
    ReachableHolds(s, maxAge);
    if Gone(s, h) {
      forall events ensures h !in Run(s, events, maxAge).detached { GoneIsNotHandedOut(s, events, maxAge, h); }
    } else {
      var events := CanBeHandedOut(s, maxAge, h);
      assert h in Run(s, events, maxAge).detached;
    }
  }

  lemma ReachableStep(s: Sys, e: Event, maxAge: real)
    requires Reachable(s, maxAge)
    ensures Reachable(Step(s, e, maxAge), maxAge)
  {
    var events :| s == Run(START, events, maxAge);
    assert (events + [e])[..|events|] == events;
    assert Step(s, e, maxAge) == Run(START, events + [e], maxAge);
  }

  // ---------------------------------------------------------------- expiry

  lemma NobodyHolds(s: Sys, h: nat)
    requires LocksOk(s) && h < |s.book.handles| && s.book.handles[h].send.None? && s.book.handles[h].workflow.None?
    ensures forall t :: 0 <= t < |s.tasks| ==> SendOf(s.tasks[t]) != Some(h) && WorkflowOf(s.tasks[t]) != Some(h)
  {
    forall t | 0 <= t < |s.tasks| ensures SendOf(s.tasks[t]) != Some(h) && WorkflowOf(s.tasks[t]) != Some(h) {
      assert Owned(s, t, h);
    }
  }

  function Now(e: Event): real {
    match e
    case CreateSession(_, now) => now
    case StoreSession(_, now) => now
    case Lookup(now) => now
    case ResetOneNow(_, now) => now
    case ResetAllNow(now) => now
    case StartSend(_, now) => now
    case StartWorkflow(_, now) => now
    case StartResetOne(_, now) => now
    case StartResetAll(now) => now
    case Advance(_, now, _) => now
    case _ => 0.0
  }

  /** Whatever joins the expired queue between `s` and `n` was live, too old and unlocked in `s`. */
  ghost predicate OnlyAged(s: Sys, n: Sys, now: real, maxAge: real) {
    forall h :: h in n.book.expired && h !in s.book.expired ==> h in s.book.live && Ages(s.book.handles, h, now, maxAge)
  }

  lemma CleanOnlyAged(s: Sys, now: real, maxAge: real)
    ensures OnlyAged(s, Cleaned(s, now, maxAge), now, maxAge)
  {
  }

  /** Cleaning after a lock was taken, and none given back, spares the handle just locked. */
  lemma EnterOnlyAged(s: Sys, t: nat, next: Pc, now: real, maxAge: real)
    requires t < |s.tasks|
    requires SendOf(s.tasks[t]).None? && (WorkflowOf(s.tasks[t]).None? || WorkflowOf(s.tasks[t]) == WorkflowOf(next))
    ensures OnlyAged(s, Cleaned(Goto(s, t, next), now, maxAge), now, maxAge)
  {
    var locked := Goto(s, t, next);
    CleanOnlyAged(locked, now, maxAge);
    forall h | Ages(locked.book.handles, h, now, maxAge) ensures Ages(s.book.handles, h, now, maxAge) {
    }
  }

  lemma MoveOnlyAged(s: Sys, t: nat, now: real, ok: bool, maxAge: real)
    requires t < |s.tasks|
    ensures OnlyAged(s, Move(s, t, now, maxAge, ok), now, maxAge)
  {
    match s.tasks[t]
    case SendWait(h, outer) => EnterOnlyAged(s, t, Sending(h, outer), now, maxAge);
    case WorkflowWait(h) => EnterOnlyAged(s, t, Working(h), now, maxAge);
    case Working(_) => CleanOnlyAged(s, now, maxAge);
    case ResetSendWait(_, _, _, _) => CleanOnlyAged(s, now, maxAge);
    case _ =>
  }

  lemma StepOnlyAged(s: Sys, e: Event, maxAge: real)
    ensures OnlyAged(s, Step(s, e, maxAge), Now(e), maxAge)
  {
    CleanOnlyAged(s, Now(e), maxAge);
    match e
    case Advance(t, now, ok) => if t < |s.tasks| { MoveOnlyAged(s, t, now, ok, maxAge); }
    case _ =>
  }

  /** A step expires only a live handle that is too old and of which no task holds a lock. */
  lemma ExpiryNeedsFreeLocks(s: Sys, e: Event, maxAge: real, h: nat)
    requires Reachable(s, maxAge)
    ensures h !in s.book.expired && h in Step(s, e, maxAge).book.expired ==>
              && h in s.book.live && h < |s.book.handles| && Now(e) - s.book.handles[h].created > maxAge
              && forall t :: 0 <= t < |s.tasks| ==> SendOf(s.tasks[t]) != Some(h) && WorkflowOf(s.tasks[t]) != Some(h)
  {
    ReachableHolds(s, maxAge);
    StepOnlyAged(s, e, maxAge);
    if h !in s.book.expired && h in Step(s, e, maxAge).book.expired {
      NobodyHolds(s, h);
    }
  }

  // ---------------------------------------------------------------- moves of one task

  /** How many moves a task has left at most. */
  function Work(pc: Pc): nat {
    match pc
    case Done(_) => 0
    case Reading(_) => 1
    case Sending(_, _) => 2
    case SendWait(_, _) => 3
    case Working(_) => 4
    case WorkflowWait(_) => 5
    case ResetSendWait(_, rest, _, _) => 2 * |rest| + 1
    case ResetWait(_, rest, _, _) => 2 * |rest| + 2
  }

  /** Only task `t` moved, and it has less to do. */
  predicate Nearer(s: Sys, n: Sys, t: nat)
    requires t < |s.tasks|
  {
    |n.tasks| == |s.tasks| && n.tasks == s.tasks[t := n.tasks[t]] && Work(n.tasks[t]) < Work(s.tasks[t])
  }

  lemma EnterSendWork(s: Sys, t: nat, now: real, maxAge: real)
    requires t < |s.tasks| && s.tasks[t].SendWait?
    ensures Nearer(s, EnterSend(s, t, now, maxAge), t)
  {
  }

  lemma EnterWorkflowWork(s: Sys, t: nat, now: real, maxAge: real)
    requires t < |s.tasks| && s.tasks[t].WorkflowWait?
    ensures Nearer(s, EnterWorkflow(s, t, now, maxAge), t)
  {
  }

  lemma LeaveSendWork(s: Sys, t: nat, ok: bool)
    requires t < |s.tasks| && s.tasks[t].Sending?
    ensures Nearer(s, LeaveSend(s, t, ok), t)
  {
  }

  lemma SendInsideWork(s: Sys, t: nat, now: real, ok: bool, maxAge: real)
    requires t < |s.tasks| && s.tasks[t].Working?
    ensures Nearer(s, SendInside(s, t, now, maxAge, ok), t)
  {
  }

  lemma DetachWork(s: Sys, t: nat, now: real, maxAge: real)
    requires t < |s.tasks| && s.tasks[t].ResetSendWait?
    ensures Nearer(s, Detach(s, t, now, maxAge), t)
  {
  }

  lemma MoveNearer(s: Sys, t: nat, now: real, ok: bool, maxAge: real)
    requires t < |s.tasks|
    ensures Move(s, t, now, maxAge, ok) == s || Nearer(s, Move(s, t, now, maxAge, ok), t)
  {
    match s.tasks[t]
    case SendWait(_, _) => EnterSendWork(s, t, now, maxAge);
    case WorkflowWait(_) => EnterWorkflowWork(s, t, now, maxAge);
    case Sending(_, _) => LeaveSendWork(s, t, ok);
    case Working(_) => SendInsideWork(s, t, now, ok, maxAge);
    case ResetSendWait(_, _, _, _) => DetachWork(s, t, now, maxAge);
    case _ =>
  }

  // ---------------------------------------------------------------- asynchronous resets

  lemma OwnIsNotAged(s: Sys, t: nat, now: real, maxAge: real)
    requires Inv(s) && t < |s.tasks| && s.tasks[t].ResetSendWait?
    ensures var h := s.tasks[t].h;
            Current(Cleaned(s, now, maxAge).book, h) <==> h in s.book.live
    ensures Current(s.book, s.tasks[t].h) <==> s.tasks[t].h in s.book.live
  {
    var h := s.tasks[t].h;
    assert Known(s, s.tasks[t]) && Owned(s, t, h);
    CurrentIsLive(s, h);
    CleanPlaces(s, now, maxAge);
    CurrentIsLive(Cleaned(s, now, maxAge), h);
  }

  /** How often `h` was handed out, or is collected by a full reset that has yet to return. */
  function Out(s: Sys, h: nat): nat { multiset(s.detached)[h] + Gathered(s.tasks, h) }

  /**
   An asynchronous reset takes nothing but the very handle it waited for, and takes it
   exactly if that is still live when both locks are had; another session under a reused
   id stays, or expires by its own age.
   */
  lemma ResetTakesItsOwn(s: Sys, t: nat, now: real, ok: bool, maxAge: real)
    requires Reachable(s, maxAge) && t < |s.tasks| && s.tasks[t].ResetSendWait? && SendFree(s, s.tasks[t].h)
    ensures var n := Step(s, Advance(t, now, ok), maxAge);
            var h := s.tasks[t].h;
            && (forall x: nat :: Out(n, x) == Out(s, x) + if x == h && h in s.book.live then 1 else 0)
            && (forall x :: x in s.book.live && x != h ==> x in n.book.live || x in n.book.expired)
            && h !in n.book.live
  {
    ReachableHolds(s, maxAge);
    OwnIsNotAged(s, t, now, maxAge);
    AdvanceIsMove(s, t, now, ok, maxAge);
    CleanMoves(s, now, maxAge);
    var c := if s.tasks[t].single then Cleaned(s, now, maxAge) else s;
    CollectTakes(c, t);
  }

  lemma CleanMoves(s: Sys, now: real, maxAge: real)
    ensures forall x :: x in s.book.live ==> x in Cleaned(s, now, maxAge).book.live || x in Cleaned(s, now, maxAge).book.expired
  {
  }

  lemma CollectTakes(s: Sys, t: nat)
    requires t < |s.tasks| && s.tasks[t].ResetSendWait?
    requires Current(s.book, s.tasks[t].h) <==> s.tasks[t].h in s.book.live
    ensures var n := Collect(s, t); var h := s.tasks[t].h;
            && (forall x: nat :: Out(n, x) == Out(s, x) + if x == h && h in s.book.live then 1 else 0)
            && n.book.expired == s.book.expired
            && (forall x :: x in n.book.live <==> x in s.book.live && x != h)
  {
    var n := Collect(s, t);
    forall x: nat ensures Out(n, x) == Out(s, x) + if x == s.tasks[t].h && s.tasks[t].h in s.book.live then 1 else 0 {
      GatheredAfter(s.tasks, t, n.tasks[t], x);
      CollectCounts(s, t, x);
    }
  }

  // ---------------------------------------------------------------- invalidation

  ghost predicate MarksKept(s: Sys, n: Sys) {
    && |s.book.handles| <= |n.book.handles|
    && forall h :: 0 <= h < |s.book.handles| && s.book.handles[h].invalidated ==> n.book.handles[h].invalidated
  }

  lemma GotoMarks(s: Sys, t: nat, next: Pc)
    requires t < |s.tasks|
    ensures MarksKept(s, Goto(s, t, next))
  {
  }

  lemma CleanMarks(s: Sys, now: real, maxAge: real)
    ensures MarksKept(s, Cleaned(s, now, maxAge))
  {
  }

  lemma EnterMarks(s: Sys, t: nat, next: Pc, now: real, maxAge: real)
    requires t < |s.tasks|
    ensures MarksKept(s, Cleaned(Goto(s, t, next), now, maxAge))
    ensures MarksKept(s, Goto(Cleaned(Goto(s, t, next), now, maxAge), t, Done(NotFound)))
  {
    GotoMarks(s, t, next);
    CleanMarks(Goto(s, t, next), now, maxAge);
    GotoMarks(Cleaned(Goto(s, t, next), now, maxAge), t, Done(NotFound));
  }

  lemma DetachMarks(s: Sys, t: nat, now: real, maxAge: real)
    requires t < |s.tasks| && s.tasks[t].ResetSendWait?
    ensures MarksKept(s, Detach(s, t, now, maxAge))
  {
    CleanMarks(s, now, maxAge);
    var c := if s.tasks[t].single then Cleaned(s, now, maxAge) else s;
    CollectMarks(c, t);
  }

  lemma CollectMarks(s: Sys, t: nat)
    requires t < |s.tasks| && s.tasks[t].ResetSendWait?
    ensures MarksKept(s, Collect(s, t))
  {
    var n := Collect(s, t);
    var removed := s.(book := RemoveIfSame(s.book, s.tasks[t].h).book, detached := n.detached);
    assert MarksKept(s, removed);
    GotoMarks(removed, t, n.tasks[t]);
  }

  lemma SendInsideMarks(s: Sys, t: nat, now: real, ok: bool, maxAge: real)
    requires t < |s.tasks| && s.tasks[t].Working?
    ensures MarksKept(s, SendInside(s, t, now, maxAge, ok))
  {
    var next := SendInside(s, t, now, maxAge, ok).tasks[t];
    CleanMarks(s, now, maxAge);
    GotoMarks(s, t, next);
    GotoMarks(Cleaned(s, now, maxAge), t, next);
  }

  lemma MoveMarks(s: Sys, t: nat, now: real, ok: bool, maxAge: real)
    requires t < |s.tasks|
    ensures MarksKept(s, Move(s, t, now, maxAge, ok))
  {
    match s.tasks[t]
    case SendWait(h, outer) => EnterMarks(s, t, Sending(h, outer), now, maxAge);
    case WorkflowWait(h) => EnterMarks(s, t, Working(h), now, maxAge);
    case Sending(_, _) => GotoMarks(s, t, LeaveSend(s, t, ok).tasks[t]);
    case Working(_) => SendInsideMarks(s, t, now, ok, maxAge);
    case Reading(_) => GotoMarks(s, t, Done(Sent));
    case ResetWait(h, rest, single, taken) => GotoMarks(s, t, ResetSendWait(h, rest, single, taken));
    case ResetSendWait(_, _, _, _) => DetachMarks(s, t, now, maxAge);
    case Done(_) =>
  }

  /** An invalidated handle stays invalidated. */
  lemma StepMarks(s: Sys, e: Event, maxAge: real)
    ensures MarksKept(s, Step(s, e, maxAge))
  {
    if e.Advance? {
      if e.task < |s.tasks| { MoveMarks(s, e.task, e.now, e.ok, maxAge); }
    } else if e.Cancel? {
      if e.task < |s.tasks| {
        var u := s.(dropped := Step(s, e, maxAge).dropped);
        GotoMarks(u, e.task, Step(s, e, maxAge).tasks[e.task]);
      }
    } else if e.StartSend? || e.StartWorkflow? || e.StartResetOne? || e.StartResetAll? {
      CleanMarks(s, e.now, maxAge);
    } else {
      SectionStep(s, e, maxAge);
      forall h | 0 <= h < |s.book.handles| && s.book.handles[h].invalidated ensures Step(s, e, maxAge).book.handles[h].invalidated {
        assert SameLocks(s.book.handles[h], Step(s, e, maxAge).book.handles[h]);
      }
    }
  }

  /** A step leaves every task but its own where it stands. */
  lemma StepTask(s: Sys, e: Event, maxAge: real, t: nat)
    requires t < |s.tasks|
    ensures t < |Step(s, e, maxAge).tasks|
    ensures Step(s, e, maxAge).tasks[t] == s.tasks[t] || ((e.Advance? || e.Cancel?) && e.task == t)
  {
    if e.Advance? {
      if e.task < |s.tasks| { MoveNearer(s, e.task, e.now, e.ok, maxAge); }
    }
  }

  /** Still sending under the invalidated handle, or told of the change. */
  predicate Overtaken(s: Sys, t: nat, sending: Pc)
    requires sending.Sending?
  {
    && t < |s.tasks| && (s.tasks[t] == sending || s.tasks[t] == Done(AuthenticationChanged))
    && sending.h < |s.book.handles| && s.book.handles[sending.h].invalidated
  }

  lemma OvertakenStep(s: Sys, e: Event, maxAge: real, t: nat, sending: Pc)
    requires sending.Sending? && Overtaken(s, t, sending)
    ensures Overtaken(Step(s, e, maxAge), t, sending)
  {
    StepMarks(s, e, maxAge);
    StepTask(s, e, maxAge, t);
    if (e.Advance? || e.Cancel?) && e.task == t {
      OvertakenMoves(s, e, maxAge, sending);
    }
  }

  lemma OvertakenMoves(s: Sys, e: Event, maxAge: real, sending: Pc)
    requires e.Advance? || e.Cancel?
    requires sending.Sending? && Overtaken(s, e.task, sending)
    ensures Step(s, e, maxAge).tasks[e.task] == Done(AuthenticationChanged)
  {
  }

  /** A send that the account switch overtook never reports success, however the run goes on. */
  lemma {:induction false} OvertakenSendReportsChange(s: Sys, events: seq<Event>, maxAge: real, t: nat)
    requires t < |s.tasks| && s.tasks[t].Sending? && Overtaken(s, t, s.tasks[t])
    ensures Overtaken(Run(s, events, maxAge), t, s.tasks[t])
    decreases |events|
  {
    if events != [] {
      OvertakenSendReportsChange(s, events[..|events| - 1], maxAge, t);
      OvertakenStep(Run(s, events[..|events| - 1], maxAge), events[|events| - 1], maxAge, t, s.tasks[t]);
    }
  }

  // ---------------------------------------------------------------- freedom from deadlock

  /** The owner of the lock that task `t` waits for. */
  function Blocker(s: Sys, t: nat): Option<nat>
    requires t < |s.tasks|
  {
    var pc := s.tasks[t];
    if (pc.SendWait? || pc.ResetSendWait?) && pc.h < |s.book.handles| then s.book.handles[pc.h].send
    else if (pc.WorkflowWait? || pc.ResetWait?) && pc.h < |s.book.handles| then s.book.handles[pc.h].workflow
    else None
  }

  predicate BlockedBy(s: Sys, t: nat, u: nat) {
    t < |s.tasks| && Blocker(s, t) == Some(u)
  }

  predicate Chain(s: Sys, p: seq<nat>) {
    forall i :: 0 <= i < |p| - 1 ==> BlockedBy(s, p[i], p[i + 1])
  }

  lemma BlockerHolds(s: Sys, t: nat, u: nat)
    requires LocksOk(s) && BlockedBy(s, t, u)
    ensures u < |s.tasks|
    ensures s.tasks[t].SendWait? || s.tasks[t].ResetSendWait? ==> s.tasks[u].Sending?
    ensures s.tasks[t].WorkflowWait? || s.tasks[t].ResetWait? ==> WorkflowOf(s.tasks[u]) == Some(s.tasks[t].h)
  {
    assert Known(s, s.tasks[t]);
    assert OwnerExists(s, s.book.handles[s.tasks[t].h]);
    assert Owned(s, u, s.tasks[t].h);
  }

  /** No task that holds a send lock waits for a lock of any session. */
  lemma SenderNeverWaits(s: Sys, t: nat, h: nat, maxAge: real)
    requires Reachable(s, maxAge) && t < |s.tasks| && h < |s.book.handles| && s.book.handles[h].send == Some(t)
    ensures Blocker(s, t).None?
  {
    ReachableHolds(s, maxAge);
    assert Owned(s, t, h);
  }

  /** How far a task is on its way through the locks: before, between, and past its last wait. */
  function Rank(s: Sys, t: nat): nat {
    if t >= |s.tasks| then 0
    else match s.tasks[t]
      case WorkflowWait(_) => 0
      case ResetWait(_, _, _, _) => 0
      case SendWait(_, _) => 1
      case ResetSendWait(_, _, _, _) => 1
      case _ => 2
  }

  lemma {:induction false} ChainRises(s: Sys, p: seq<nat>, i: nat, j: nat)
    requires LocksOk(s) && Chain(s, p) && i <= j < |p|
    ensures Rank(s, p[i]) + (j - i) <= Rank(s, p[j])
    decreases j
  {
    if i < j {
      ChainRises(s, p, i, j - 1);
      assert BlockedBy(s, p[j - 1], p[j]);
      BlockerHolds(s, p[j - 1], p[j]);
    }
  }

  /**
   In a chain of tasks each waiting for a lock of the next there are at most three, and
   no task occurs twice: no reachable state is a circular wait.
   */
  lemma NoCircularWait(s: Sys, p: seq<nat>, maxAge: real)
    requires Reachable(s, maxAge) && Chain(s, p)
    ensures |p| <= 3
    ensures forall i, j :: 0 <= i < j < |p| ==> p[i] != p[j]
  {
    ReachableHolds(s, maxAge);
    if p != [] { ChainIsShort(s, p, 0, |p| - 1); }
    forall i, j | 0 <= i < j < |p| ensures p[i] != p[j] { ChainIsShort(s, p, i, j); }
  }

  lemma ChainIsShort(s: Sys, p: seq<nat>, i: nat, j: nat)
    requires LocksOk(s) && Chain(s, p) && i <= j < |p|
    ensures j - i <= 2 && (i < j ==> p[i] != p[j])
  {
    ChainRises(s, p, i, j);
  }

  predicate Ready(s: Sys, t: nat) {
    t < |s.tasks| && !s.tasks[t].Done? && Blocker(s, t).None?
  }

  /** While any task is unfinished, some task can go on. */
  lemma SomeoneCanMove(s: Sys, t: nat) returns (u: nat)
    requires Inv(s) && t < |s.tasks| && !s.tasks[t].Done?
    ensures Ready(s, u)
  {
    u := t;
    if Blocker(s, t).Some? {
      u := Blocker(s, t).value;
      BlockerHolds(s, t, u);
      if Blocker(s, u).Some? {
        var v := Blocker(s, u).value;
        BlockerHolds(s, u, v);
        u := v;
      }
    }
  }

  function Total(tasks: seq<Pc>): nat {
    if tasks == [] then 0 else Work(tasks[0]) + Total(tasks[1..])
  }

  lemma {:induction false} TotalAfter(tasks: seq<Pc>, t: nat, pc: Pc)
    requires t < |tasks|
    ensures Total(tasks[t := pc]) == Total(tasks) - Work(tasks[t]) + Work(pc)
  {
    if t == 0 {
      assert tasks[0 := pc][1..] == tasks[1..];
    } else {
      assert tasks[t := pc][1..] == tasks[1..][t - 1 := pc];
      TotalAfter(tasks[1..], t - 1, pc);
    }
  }

  lemma {:induction false} NoWorkLeft(tasks: seq<Pc>)
    ensures Total(tasks) == 0 <==> forall t :: 0 <= t < |tasks| ==> tasks[t].Done?
  {
    if tasks != [] {
      NoWorkLeft(tasks[1..]);
      assert forall t :: 1 <= t < |tasks| ==> tasks[t] == tasks[1..][t - 1];
      assert forall t :: 0 <= t < |tasks| - 1 ==> tasks[1..][t] == tasks[t + 1];
    }
  }

  lemma ReadyMoves(s: Sys, t: nat, now: real, ok: bool, maxAge: real)
    requires LocksOk(s) && Ready(s, t)
    ensures Move(s, t, now, maxAge, ok) != s
  {
    assert Known(s, s.tasks[t]);
    match s.tasks[t]
    case SendWait(_, _) => EnterSendWork(s, t, now, maxAge);
    case WorkflowWait(_) => EnterWorkflowWork(s, t, now, maxAge);
    case Sending(_, _) => LeaveSendWork(s, t, ok);
    case Working(_) => SendInsideWork(s, t, now, ok, maxAge);
    case ResetSendWait(_, _, _, _) => DetachWork(s, t, now, maxAge);
    case Reading(_) => assert Goto(s, t, Done(Sent)).tasks[t] != s.tasks[t];
    case ResetWait(h, rest, single, taken) => assert Goto(s, t, ResetSendWait(h, rest, single, taken)).tasks[t] != s.tasks[t];
  }

  /** Every move of a task that is not blocked brings all tasks together nearer their end. */
  lemma MoveShortens(s: Sys, t: nat, now: real, ok: bool, maxAge: real)
    requires LocksOk(s) && Ready(s, t)
    ensures Total(Move(s, t, now, maxAge, ok).tasks) < Total(s.tasks)
  {
    ReadyMoves(s, t, now, ok, maxAge);
    MoveNearer(s, t, now, ok, maxAge);
    Shorter(s, Move(s, t, now, maxAge, ok), t);
  }

  lemma Shorter(s: Sys, n: Sys, t: nat)
    requires t < |s.tasks| && Nearer(s, n, t)
    ensures Total(n.tasks) < Total(s.tasks)
  {
    TotalAfter(s.tasks, t, n.tasks[t]);
  }

  lemma {:induction false} RunAfter(s: Sys, e: Event, events: seq<Event>, maxAge: real)
    ensures Run(s, [e] + events, maxAge) == Run(Step(s, e, maxAge), events, maxAge)
    decreases |events|
  {
    var all := [e] + events;
    if events == [] {
      assert all[..0] == [] && Run(s, [], maxAge) == s;
    } else {
      assert all[..|all| - 1] == [e] + events[..|events| - 1];
      RunAfter(s, e, events[..|events| - 1], maxAge);
    }
  }

  /** One more move of a task that is not blocked, put in front of whatever follows. */
  lemma GoOn(s: Sys, t: nat, now: real, ok: bool, maxAge: real) returns (n: Sys)
    requires Inv(s) && Ready(s, t)
    ensures Inv(n) && Total(n.tasks) < Total(s.tasks)
    ensures forall more :: Run(s, [Advance(t, now, ok)] + more, maxAge) == Run(n, more, maxAge)
  {
    n := Move(s, t, now, maxAge, ok);
    MovePlaces(s, t, now, maxAge, ok);
    MoveLocks(s, t, now, maxAge, ok);
    MoveShortens(s, t, now, ok, maxAge);
    forall more ensures Run(s, [Advance(t, now, ok)] + more, maxAge) == Run(n, more, maxAge) {
      RunAfter(s, Advance(t, now, ok), more, maxAge);
      AdvanceIsMove(s, t, now, ok, maxAge);
    }
  }

  lemma AdvanceIsMove(s: Sys, t: nat, now: real, ok: bool, maxAge: real)
    requires t < |s.tasks|
    ensures Step(s, Advance(t, now, ok), maxAge) == Move(s, t, now, maxAge, ok)
  {
  }

  lemma {:induction false} FinishFrom(s: Sys, now: real, ok: bool, maxAge: real) returns (events: seq<Event>)
    requires Inv(s)
    ensures forall i :: 0 <= i < |events| ==> events[i].Advance?
    ensures forall t :: 0 <= t < |Run(s, events, maxAge).tasks| ==> Run(s, events, maxAge).tasks[t].Done?
    decreases Total(s.tasks)
  {
    events := [];
    NoWorkLeft(s.tasks);
    if t :| 0 <= t < |s.tasks| && !s.tasks[t].Done? {
      var u := SomeoneCanMove(s, t);
      var n := GoOn(s, u, now, ok, maxAge);
      var more := FinishFrom(n, now, ok, maxAge);
      events := [Advance(u, now, ok)] + more;
    }
  }

  /**
   Freedom from deadlock: from every reachable state the tasks alone, moving in some
   order and with none cancelled, all come to their end.
   */
  lemma EveryoneFinishes(s: Sys, now: real, ok: bool, maxAge: real) returns (events: seq<Event>)
    requires Reachable(s, maxAge)
    ensures forall i :: 0 <= i < |events| ==> events[i].Advance?
    ensures forall t :: 0 <= t < |Run(s, events, maxAge).tasks| ==> Run(s, events, maxAge).tasks[t].Done?
  {
    ReachableHolds(s, maxAge);
    events := FinishFrom(s, now, ok, maxAge);
  }
}
