/** What every run of the session service keeps: every handle has one place, and the locks have one owner. */
module SessionSafety {
  import opened Common
  import opened Sessions

  // ---------------------------------------------------------------- places of a handle

  function Places(s: Sys, h: nat): nat {
    multiset(s.book.live)[h] + multiset(s.book.expired)[h] + multiset(s.detached)[h]
    + multiset(s.lost)[h] + multiset(s.dropped)[h] + Gathered(s.tasks, h)
  }

  /** How often `h` is among what unfinished full resets have collected. */
  function Gathered(tasks: seq<Pc>, h: nat): nat {
    if tasks == [] then 0 else multiset(TakenOf(tasks[0]))[h] + Gathered(tasks[1..], h)
  }

  lemma {:induction false} GatheredAfter(tasks: seq<Pc>, t: nat, pc: Pc, h: nat)
    requires t < |tasks|
    ensures Gathered(tasks[t := pc], h) == Gathered(tasks, h) - multiset(TakenOf(tasks[t]))[h] + multiset(TakenOf(pc))[h]
  {
    if t == 0 {
      assert tasks[0 := pc][1..] == tasks[1..];
    } else {
      assert tasks[t := pc][1..] == tasks[1..][t - 1 := pc];
      GatheredAfter(tasks[1..], t - 1, pc, h);
    }
  }

  lemma {:induction false} GatheredAppend(tasks: seq<Pc>, pc: Pc, h: nat)
    ensures Gathered(tasks + [pc], h) == Gathered(tasks, h) + multiset(TakenOf(pc))[h]
  {
    if tasks == [] {
      assert [pc][1..] == [];
    } else {
      assert (tasks + [pc])[1..] == tasks[1..] + [pc];
      GatheredAppend(tasks[1..], pc, h);
    }
  }

  /** A handle that exists is in exactly one place; an invalidated one was handed out. */
  predicate Placed(s: Sys, h: nat) {
    && Places(s, h) == (if h < |s.book.handles| then 1 else 0)
    && (h < |s.book.handles| ==>
          && (h in s.book.live ==> s.book.handles[h].life.Active?)
          && (h in s.book.expired ==> s.book.handles[h].life.Expired?)
          && (s.book.handles[h].invalidated ==> h in s.detached))
  }

  predicate Unlike(s: Sys, h: nat, k: nat) {
    h in s.book.live && k in s.book.live && h < |s.book.handles| && k < |s.book.handles| && h != k
    ==> s.book.handles[h].id != s.book.handles[k].id
  }

  ghost predicate PlacesOk(s: Sys) {
    && (forall h: nat :: Placed(s, h))
    && (forall h: nat, k: nat :: Unlike(s, h, k))
  }

  lemma InSeq(xs: seq<nat>, h: nat)
    ensures h in xs <==> multiset(xs)[h] > 0
  {
  }

  lemma {:induction false} PickSplits(hs: seq<Handle>, live: seq<nat>, now: real, maxAge: real, h: nat)
    ensures multiset(Pick(hs, live, now, maxAge, false))[h] + multiset(Pick(hs, live, now, maxAge, true))[h] == multiset(live)[h]
  {
    if live != [] {
      PickSplits(hs, live[1..], now, maxAge, h);
      assert live == [live[0]] + live[1..];
    }
  }

  lemma {:induction false} WithoutCounts(xs: seq<nat>, x: nat, h: nat)
    ensures multiset(Without(xs, x))[h] == if h == x then 0 else multiset(xs)[h]
  {
    if xs != [] {
      WithoutCounts(xs[1..], x, h);
      assert xs == [xs[0]] + xs[1..];
    }
  }

  lemma CurrentIsLive(s: Sys, h: nat)
    requires PlacesOk(s)
    ensures Current(s.book, h) <==> h in s.book.live
  {
    assert Placed(s, h);
    if h in s.book.live {
      var f := Find(s.book.handles, s.book.live, s.book.handles[h].id);
      assert f.Some? ==> Unlike(s, h, f.value);
    }
  }

  lemma CleanPlaces(s: Sys, now: real, maxAge: real)
    requires PlacesOk(s)
    ensures PlacesOk(Cleaned(s, now, maxAge))
  {
    var t := Cleaned(s, now, maxAge);
    forall h: nat ensures Placed(t, h) {
      assert Placed(s, h);
      PickSplits(s.book.handles, s.book.live, now, maxAge, h);
    }
    forall h: nat, k: nat ensures Unlike(t, h, k) { assert Unlike(s, h, k); }
  }

  lemma AddPlaces(s: Sys, id: Id, now: real)
    requires PlacesOk(s) && Find(s.book.handles, s.book.live, id).None?
    ensures PlacesOk(s.(book := Add(s.book, id, now)))
  {
    var t := s.(book := Add(s.book, id, now));
    forall h: nat ensures Placed(t, h) { assert Placed(s, h); }
    forall h: nat, k: nat ensures Unlike(t, h, k) { assert Unlike(s, h, k) && Placed(s, h) && Placed(s, k); }
  }

  lemma UpdateCounts(xs: seq<nat>, i: nat, v: nat, h: nat)
    requires i < |xs|
    ensures multiset(xs[i := v])[h] == multiset(xs)[h] - (if h == xs[i] then 1 else 0) + (if h == v then 1 else 0)
  {
    assert xs == xs[..i] + [xs[i]] + xs[i + 1..];
    assert xs[i := v] == xs[..i] + [v] + xs[i + 1..];
  }

  lemma OverwritePlaced(s: Sys, id: Id, now: real, h: nat)
    requires PlacesOk(s) && Find(s.book.handles, s.book.live, id).Some?
    ensures Placed(s.(book := Store(s.book, id, now).book, lost := s.lost + Store(s.book, id, now).out), h)
  {
    var was := Find(s.book.handles, s.book.live, id).value;
    var i := Position(s.book.live, was);
    var stored := Store(s.book, id, now);
    assert Placed(s, h) && Placed(s, was);
    UpdateCounts(s.book.live, i, |s.book.handles|, h);
    assert stored.book.live == s.book.live[i := |s.book.handles|] && stored.out == [was];
    assert multiset(s.lost + [was])[h] == multiset(s.lost)[h] + (if h == was then 1 else 0);
    InSeq(s.book.live, h);
    InSeq(stored.book.live, h);
  }

  lemma StorePlaces(s: Sys, id: Id, now: real)
    requires PlacesOk(s)
    ensures PlacesOk(s.(book := Store(s.book, id, now).book, lost := s.lost + Store(s.book, id, now).out))
  {
    var stored := Store(s.book, id, now);
    var t := s.(book := stored.book, lost := s.lost + stored.out);
    var found := Find(s.book.handles, s.book.live, id);
    if found.None? {
      AddPlaces(s, id, now);
      assert t == s.(book := Add(s.book, id, now));
    } else {
      forall h: nat ensures Placed(t, h) { OverwritePlaced(s, id, now, h); }
      OverwritePlaced(s, id, now, found.value);
      forall h: nat, k: nat ensures Unlike(t, h, k) {
        assert Unlike(s, h, k) && Unlike(s, h, found.value) && Unlike(s, found.value, k) && Placed(s, found.value);
      }
    }
  }

  lemma PopPlaces(s: Sys, h: nat)
    requires PlacesOk(s) && h in s.book.live
    ensures PlacesOk(Take(s, Pop(s.book, h)))
  {
    var t := Take(s, Pop(s.book, h));
    forall k: nat ensures Placed(t, k) {
      assert Placed(s, k);
      WithoutCounts(s.book.live, h, k);
    }
    forall k: nat, l: nat ensures Unlike(t, k, l) { assert Unlike(s, k, l); }
  }

  lemma EmptyPlaces(s: Sys, e: Event, maxAge: real)
    requires PlacesOk(s) && (e.ResetAllNow? || e.InvalidateAll? || e.DrainExpired?)
    ensures PlacesOk(Step(s, e, maxAge))
  {
    var t := Step(s, e, maxAge);
    var c := if e.ResetAllNow? then Cleaned(s, e.now, maxAge) else s;
    if e.ResetAllNow? { CleanPlaces(s, e.now, maxAge); }
    forall h: nat ensures Placed(t, h) { assert Placed(c, h); }
    forall h: nat, k: nat ensures Unlike(t, h, k) { assert Unlike(c, h, k); }
  }

  /** Tasks and locks are beside the point for the places, but for what a task has collected. */
  lemma GotoPlaces(s: Sys, t: nat, next: Pc)
    requires PlacesOk(s) && t < |s.tasks| && TakenOf(next) == TakenOf(s.tasks[t])
    ensures PlacesOk(Goto(s, t, next))
  {
    var n := Goto(s, t, next);
    forall h: nat ensures Placed(n, h) {
      assert Placed(s, h);
      GatheredAfter(s.tasks, t, next, h);
    }
    forall h: nat, k: nat ensures Unlike(n, h, k) { assert Unlike(s, h, k); }
  }

  lemma BeginPlaces(s: Sys, first: Pc)
    requires PlacesOk(s) && TakenOf(first) == []
    ensures PlacesOk(Begin(s, first))
  {
    forall h: nat ensures Placed(Begin(s, first), h) {
      assert Placed(s, h);
      GatheredAppend(s.tasks, first, h);
    }
    forall h: nat, k: nat ensures Unlike(Begin(s, first), h, k) { assert Unlike(s, h, k); }
  }

  /** Dropping what a task has collected, on its cancellation. */
  lemma DropPlaces(s: Sys, t: nat)
    requires PlacesOk(s) && t < |s.tasks|
    ensures PlacesOk(Goto(s.(dropped := s.dropped + TakenOf(s.tasks[t])), t, Done(Failed)))
  {
    var n := Goto(s.(dropped := s.dropped + TakenOf(s.tasks[t])), t, Done(Failed));
    forall h: nat ensures Placed(n, h) {
      assert Placed(s, h);
      GatheredAfter(s.tasks, t, Done(Failed), h);
    }
    forall h: nat, k: nat ensures Unlike(n, h, k) { assert Unlike(s, h, k); }
  }

  /** A handle moves from the live ones to what its reset has collected, and all that is returned at the end. */
  lemma CollectPlaced(s: Sys, t: nat, h: nat)
    requires PlacesOk(s) && t < |s.tasks| && s.tasks[t].ResetSendWait?
    ensures Placed(Collect(s, t), h)
  {
    var pc := s.tasks[t];
    CurrentIsLive(s, pc.h);
    assert Placed(s, h) && Placed(s, pc.h);
    WithoutCounts(s.book.live, pc.h, h);
    var n := Collect(s, t);
    GatheredAfter(s.tasks, t, n.tasks[t], h);
    CollectCounts(s, t, h);
    InSeq(s.book.live, pc.h);
    InSeq(s.detached, h);
    InSeq(n.detached, h);
  }

  lemma CollectCounts(s: Sys, t: nat, h: nat)
    requires t < |s.tasks| && s.tasks[t].ResetSendWait?
    ensures var n := Collect(s, t); var pc := s.tasks[t];
            && t < |n.tasks|
            && multiset(n.detached)[h] + multiset(TakenOf(n.tasks[t]))[h]
               == multiset(s.detached)[h] + multiset(pc.taken)[h] + (if Current(s.book, pc.h) && h == pc.h then 1 else 0)
            && (h in s.detached ==> h in n.detached)
  {
  }

  lemma CollectPlaces(s: Sys, t: nat)
    requires PlacesOk(s) && t < |s.tasks| && s.tasks[t].ResetSendWait?
    ensures PlacesOk(Collect(s, t))
  {
    forall h: nat ensures Placed(Collect(s, t), h) { CollectPlaced(s, t, h); }
    forall h: nat, k: nat ensures Unlike(Collect(s, t), h, k) { assert Unlike(s, h, k); }
  }

  lemma DetachPlaces(s: Sys, t: nat, now: real, maxAge: real)
    requires PlacesOk(s) && t < |s.tasks| && s.tasks[t].ResetSendWait?
    ensures PlacesOk(Detach(s, t, now, maxAge))
  {
    if s.tasks[t].single {
      CleanPlaces(s, now, maxAge);
      CollectPlaces(Cleaned(s, now, maxAge), t);
    } else {
      CollectPlaces(s, t);
    }
  }

  lemma MovePlaces(s: Sys, t: nat, now: real, maxAge: real, ok: bool)
    requires PlacesOk(s) && t < |s.tasks|
    ensures PlacesOk(Move(s, t, now, maxAge, ok))
  {
    var pc := s.tasks[t];
    match pc
    case SendWait(h, outer) =>
      var locked := Goto(s, t, Sending(h, outer));
      GotoPlaces(s, t, Sending(h, outer));
      CleanPlaces(locked, now, maxAge);
      GotoPlaces(Cleaned(locked, now, maxAge), t, Done(NotFound));
    case Sending(_, _) =>
      var n := LeaveSend(s, t, ok);
      GotoPlaces(s, t, n.tasks[t]);
    case WorkflowWait(h) =>
      var locked := Goto(s, t, Working(h));
      GotoPlaces(s, t, Working(h));
      CleanPlaces(locked, now, maxAge);
      GotoPlaces(Cleaned(locked, now, maxAge), t, Done(NotFound));
    case Working(_) =>
      var n := SendInside(s, t, now, maxAge, ok);
      CleanPlaces(s, now, maxAge);
      GotoPlaces(s, t, n.tasks[t]);
      GotoPlaces(Cleaned(s, now, maxAge), t, n.tasks[t]);
    case Reading(_) => GotoPlaces(s, t, Done(Sent));
    case ResetWait(h, rest, single, taken) => GotoPlaces(s, t, ResetSendWait(h, rest, single, taken));
    case ResetSendWait(_, _, _, _) => DetachPlaces(s, t, now, maxAge);
    case Done(_) =>
  }

  lemma OpeningPlaces(s: Sys, id: Id, e: Event)
    requires PlacesOk(s)
    ensures PlacesOk(Opening(s, id, e))
  {
    var t := Opening(s, id, e);
    if t != s { BeginPlaces(s, t.tasks[|s.tasks|]); }
  }

  lemma StepPlaces(s: Sys, e: Event, maxAge: real)
    requires PlacesOk(s)
    ensures PlacesOk(Step(s, e, maxAge))
  {
    match e
    case CreateSession(id, now) =>
      CleanPlaces(s, now, maxAge);
      var c := Cleaned(s, now, maxAge);
      if Find(c.book.handles, c.book.live, id).None? { AddPlaces(c, id, now); }
    case StoreSession(id, now) => StorePlaces(s, id, now);
    case Lookup(now) => CleanPlaces(s, now, maxAge);
    case ResetOneNow(id, now) =>
      CleanPlaces(s, now, maxAge);
      var c := Cleaned(s, now, maxAge);
      var found := Find(c.book.handles, c.book.live, id);
      if found.Some? { PopPlaces(c, found.value); } else { assert Take(s, Taken(c.book, [])) == c; }
    case ResetAllNow(_) => EmptyPlaces(s, e, maxAge);
    case InvalidateAll => EmptyPlaces(s, e, maxAge);
    case DrainExpired => EmptyPlaces(s, e, maxAge);
    case StartSend(id, now) => CleanPlaces(s, now, maxAge); OpeningPlaces(Cleaned(s, now, maxAge), id, e);
    case StartWorkflow(id, now) => CleanPlaces(s, now, maxAge); OpeningPlaces(Cleaned(s, now, maxAge), id, e);
    case StartResetOne(id, now) => CleanPlaces(s, now, maxAge); OpeningPlaces(Cleaned(s, now, maxAge), id, e);
    case StartResetAll(now) =>
      CleanPlaces(s, now, maxAge);
      BeginPlaces(Cleaned(s, now, maxAge), Following(Cleaned(s, now, maxAge).book.live, []));
    case Advance(t, now, ok) => if t < |s.tasks| { MovePlaces(s, t, now, maxAge, ok); }
    case Cancel(t) =>
      if t < |s.tasks| && !s.tasks[t].Done? {
        if s.tasks[t].Sending? { GotoPlaces(s, t, Step(s, e, maxAge).tasks[t]); } else { DropPlaces(s, t); }
      }
  }

  // ---------------------------------------------------------------- owners of the locks

  predicate Known(s: Sys, pc: Pc) {
    match pc
    case SendWait(h, outer) => h < |s.book.handles| && (outer.Some? ==> outer.value < |s.book.handles|)
    case Sending(h, outer) => h < |s.book.handles| && (outer.Some? ==> outer.value < |s.book.handles|)
    case ResetWait(h, rest, _, _) => h < |s.book.handles| && forall k :: k in rest ==> k < |s.book.handles|
    case ResetSendWait(h, rest, _, _) => h < |s.book.handles| && forall k :: k in rest ==> k < |s.book.handles|
    case Done(_) => true
    case _ => pc.h < |s.book.handles|
  }

  /** The lock of `h` names task `t` as its owner exactly when `t` stands where it holds it. */
  predicate Owned(s: Sys, t: nat, h: nat)
    requires t < |s.tasks| && h < |s.book.handles|
  {
    && (s.book.handles[h].send == Some(t) <==> SendOf(s.tasks[t]) == Some(h))
    && (s.book.handles[h].workflow == Some(t) <==> WorkflowOf(s.tasks[t]) == Some(h))
  }

  predicate OwnerExists(s: Sys, hd: Handle) {
    && (hd.send.Some? ==> hd.send.value < |s.tasks|)
    && (hd.workflow.Some? ==> hd.workflow.value < |s.tasks|)
  }

  ghost predicate LocksOk(s: Sys) {
    && (forall t, h :: 0 <= t < |s.tasks| && 0 <= h < |s.book.handles| ==> Owned(s, t, h))
    && (forall h :: 0 <= h < |s.book.handles| ==> OwnerExists(s, s.book.handles[h]))
    && (forall t :: 0 <= t < |s.tasks| ==> Known(s, s.tasks[t]))
  }

  /** A section under the service lock leaves the locks of the handles alone. */
  ghost predicate LocksKept(b: Book, n: Book) {
    && |b.handles| <= |n.handles|
    && (forall h :: 0 <= h < |b.handles| ==> SameLocks(b.handles[h], n.handles[h]))
    && (forall h :: |b.handles| <= h < |n.handles| ==> n.handles[h].send.None? && n.handles[h].workflow.None?)
  }

  predicate SameLocks(o: Handle, n: Handle) {
    n.id == o.id && n.created == o.created && n.send == o.send && n.workflow == o.workflow && (o.invalidated ==> n.invalidated)
  }

  lemma BookLocks(s: Sys, t: Sys)
    requires LocksOk(s) && LocksKept(s.book, t.book) && t.tasks == s.tasks
    ensures LocksOk(t)
  {
    forall i, h | 0 <= i < |t.tasks| && 0 <= h < |t.book.handles| ensures Owned(t, i, h) {
      assert Known(s, s.tasks[i]);
      if h < |s.book.handles| { assert Owned(s, i, h) && SameLocks(s.book.handles[h], t.book.handles[h]); }
    }
    forall h | 0 <= h < |t.book.handles| ensures OwnerExists(t, t.book.handles[h]) {
      if h < |s.book.handles| { assert OwnerExists(s, s.book.handles[h]) && SameLocks(s.book.handles[h], t.book.handles[h]); }
    }
  }

  lemma SectionLocks(b: Book, id: Id, now: real, maxAge: real, h: nat)
    ensures LocksKept(b, Clean(b, now, maxAge)) && LocksKept(b, Add(b, id, now)) && LocksKept(b, Store(b, id, now).book)
    ensures LocksKept(b, ResetOne(b, id, now, maxAge).book) && LocksKept(b, ResetAll(b, now, maxAge).book)
    ensures LocksKept(b, Invalidate(b).book) && LocksKept(b, Drain(b).book) && LocksKept(b, RemoveIfSame(b, h).book)
  {
  }

  /** What a task may take: a lock it already has, or a free one. */
  predicate MayTake(s: Sys, t: nat, next: Pc)
    requires t < |s.tasks|
  {
    && Known(s, next)
    && (SendOf(next).Some? ==> SendOf(next) == SendOf(s.tasks[t]) || SendFree(s, SendOf(next).value))
    && (WorkflowOf(next).Some? ==> WorkflowOf(next) == WorkflowOf(s.tasks[t]) || WorkflowFree(s, WorkflowOf(next).value))
  }

  lemma GotoLocks(s: Sys, t: nat, next: Pc)
    requires LocksOk(s) && t < |s.tasks| && MayTake(s, t, next)
    ensures LocksOk(Goto(s, t, next))
  {
    var n := Goto(s, t, next);
    assert Known(s, s.tasks[t]);
    forall h | 0 <= h < |n.book.handles| ensures OwnerExists(n, n.book.handles[h]) { assert OwnerExists(s, s.book.handles[h]); }
    forall i, h | 0 <= i < |n.tasks| && 0 <= h < |n.book.handles| ensures Owned(n, i, h) { GotoOwned(s, t, next, i, h); }
    forall i | 0 <= i < |n.tasks| ensures Known(n, n.tasks[i]) { assert Known(s, s.tasks[i]); }
  }

  lemma GotoOwned(s: Sys, t: nat, next: Pc, i: nat, h: nat)
    requires t < |s.tasks| && i < |s.tasks| && h < |s.book.handles| && Owned(s, i, h) && Owned(s, t, h) && MayTake(s, t, next)
    ensures Owned(Goto(s, t, next), i, h)
  {
  }

  lemma BeginLocks(s: Sys, first: Pc)
    requires LocksOk(s) && Known(s, first) && SendOf(first).None? && WorkflowOf(first).None?
    ensures LocksOk(Begin(s, first))
  {
    var n := Begin(s, first);
    forall i, h | 0 <= i < |n.tasks| && 0 <= h < |n.book.handles| ensures Owned(n, i, h) {
      assert OwnerExists(s, s.book.handles[h]);
      if i < |s.tasks| { assert Owned(s, i, h); }
    }
    forall h | 0 <= h < |n.book.handles| ensures OwnerExists(n, n.book.handles[h]) { assert OwnerExists(s, s.book.handles[h]); }
    forall i | 0 <= i < |n.tasks| ensures Known(n, n.tasks[i]) { if i < |s.tasks| { assert Known(s, s.tasks[i]); } }
  }

  lemma CleanLocks(s: Sys, now: real, maxAge: real)
    requires LocksOk(s)
    ensures LocksOk(Cleaned(s, now, maxAge))
  {
    SectionLocks(s.book, "", now, maxAge, 0);
    BookLocks(s, Cleaned(s, now, maxAge));
  }

  lemma KnownFollowing(s: Sys, rest: seq<nat>, taken: seq<nat>)
    requires forall k :: k in rest ==> k < |s.book.handles|
    ensures Known(s, Following(rest, taken))
    ensures SendOf(Following(rest, taken)).None? && WorkflowOf(Following(rest, taken)).None?
  {
    if rest != [] {
      assert rest[0] in rest;
      forall k | k in rest[1..] ensures k < |s.book.handles| { assert k in rest; }
    }
  }

  /** Which handles were handed out, lost or dropped does not matter for the locks. */
  lemma RemoveLocks(s: Sys, h: nat, detached: seq<nat>)
    requires LocksOk(s)
    ensures LocksOk(s.(book := RemoveIfSame(s.book, h).book, detached := detached))
  {
    SectionLocks(s.book, "", 0.0, 0.0, h);
    BookLocks(s, s.(book := RemoveIfSame(s.book, h).book, detached := detached));
  }

  lemma LeaveReset(s: Sys, t: nat, rest: seq<nat>, taken: seq<nat>, result: Sessions.Result)
    requires LocksOk(s) && t < |s.tasks| && forall k :: k in rest ==> k < |s.book.handles|
    ensures LocksOk(Goto(s, t, Done(result))) && LocksOk(Goto(s, t, Following(rest, taken)))
  {
    KnownFollowing(s, rest, taken);
    GotoLocks(s, t, Done(result));
    GotoLocks(s, t, Following(rest, taken));
  }

  lemma CollectLocks(s: Sys, t: nat)
    requires LocksOk(s) && t < |s.tasks| && s.tasks[t].ResetSendWait?
    ensures LocksOk(Collect(s, t))
  {
    var pc := s.tasks[t];
    assert Known(s, pc);
    var removed := RemoveIfSame(s.book, pc.h);
    var taken := pc.taken + removed.out;
    var next := if pc.single then Done(if Current(s.book, pc.h) then Cleared else NotFound) else Following(pc.rest, taken);
    var detached := s.detached + (if next.Done? then taken else []);
    RemoveLocks(s, pc.h, detached);
    LeaveReset(s.(book := removed.book, detached := detached), t, pc.rest, taken, if Current(s.book, pc.h) then Cleared else NotFound);
  }

  lemma DetachLocks(s: Sys, t: nat, now: real, maxAge: real)
    requires LocksOk(s) && t < |s.tasks| && s.tasks[t].ResetSendWait?
    ensures LocksOk(Detach(s, t, now, maxAge))
  {
    if s.tasks[t].single {
      CleanLocks(s, now, maxAge);
      CollectLocks(Cleaned(s, now, maxAge), t);
    } else {
      CollectLocks(s, t);
    }
  }

  /** Taking a lock, cleaning, and letting go again if the id names another handle. */
  lemma EnterLocks(s: Sys, t: nat, next: Pc, now: real, maxAge: real)
    requires LocksOk(s) && t < |s.tasks| && MayTake(s, t, next)
    ensures LocksOk(Cleaned(Goto(s, t, next), now, maxAge))
    ensures LocksOk(Goto(Cleaned(Goto(s, t, next), now, maxAge), t, Done(NotFound)))
  {
    GotoLocks(s, t, next);
    CleanLocks(Goto(s, t, next), now, maxAge);
    GotoLocks(Cleaned(Goto(s, t, next), now, maxAge), t, Done(NotFound));
  }

  lemma SendInsideLocks(s: Sys, t: nat, now: real, maxAge: real, ok: bool)
    requires LocksOk(s) && t < |s.tasks| && s.tasks[t].Working?
    ensures LocksOk(SendInside(s, t, now, maxAge, ok))
  {
    assert Known(s, s.tasks[t]);
    var c := Cleaned(s, now, maxAge);
    CleanLocks(s, now, maxAge);
    var found := Find(c.book.handles, c.book.live, s.book.handles[s.tasks[t].h].id);
    GotoLocks(s, t, Done(Failed));
    GotoLocks(c, t, Done(NotFound));
    if found.Some? { GotoLocks(c, t, SendWait(found.value, Some(s.tasks[t].h))); }
  }

  lemma MoveLocks(s: Sys, t: nat, now: real, maxAge: real, ok: bool)
    requires LocksOk(s) && t < |s.tasks|
    ensures LocksOk(Move(s, t, now, maxAge, ok))
  {
    var pc := s.tasks[t];
    assert Known(s, pc);
    match pc
    case SendWait(h, outer) => if SendFree(s, h) { EnterLocks(s, t, Sending(h, outer), now, maxAge); }
    case WorkflowWait(h) => if WorkflowFree(s, h) { EnterLocks(s, t, Working(h), now, maxAge); }
    case Sending(_, _) => GotoLocks(s, t, LeaveSend(s, t, ok).tasks[t]);
    case Working(_) => SendInsideLocks(s, t, now, maxAge, ok);
    case Reading(_) => GotoLocks(s, t, Done(Sent));
    case ResetWait(h, rest, single, taken) => if WorkflowFree(s, h) { GotoLocks(s, t, ResetSendWait(h, rest, single, taken)); }
    case ResetSendWait(_, _, _, _) => DetachLocks(s, t, now, maxAge);
    case Done(_) =>
  }

  lemma OpeningLocks(s: Sys, id: Id, e: Event)
    requires LocksOk(s)
    ensures LocksOk(Opening(s, id, e))
  {
    var t := Opening(s, id, e);
    if t != s { BeginLocks(s, t.tasks[|s.tasks|]); }
  }

  lemma StartLocks(s: Sys, e: Event, maxAge: real)
    requires LocksOk(s) && PlacesOk(s)
    requires e.StartSend? || e.StartWorkflow? || e.StartResetOne? || e.StartResetAll?
    ensures LocksOk(Step(s, e, maxAge))
  {
    CleanLocks(s, e.now, maxAge);
    var c := Cleaned(s, e.now, maxAge);
    if e.StartResetAll? {
      CleanPlaces(s, e.now, maxAge);
      forall h | h in c.book.live ensures h < |c.book.handles| { assert Placed(c, h); }
      KnownFollowing(c, c.book.live, []);
      BeginLocks(c, Following(c.book.live, []));
    } else {
      OpeningLocks(c, e.id, e);
    }
  }

  lemma StepLocks(s: Sys, e: Event, maxAge: real)
    requires LocksOk(s) && PlacesOk(s)
    ensures LocksOk(Step(s, e, maxAge))
  {
    var t := Step(s, e, maxAge);
    if e.Advance? {
      if e.task < |s.tasks| { MoveLocks(s, e.task, e.now, maxAge, e.ok); }
    } else if e.Cancel? {
      if e.task < |s.tasks| && !s.tasks[e.task].Done? {
        assert Known(s, s.tasks[e.task]);
        var u := s.(dropped := t.dropped);
        BookLocks(s, u);
        GotoLocks(u, e.task, t.tasks[e.task]);
      }
    } else if e.StartSend? || e.StartWorkflow? || e.StartResetOne? || e.StartResetAll? {
      StartLocks(s, e, maxAge);
    } else {
      SectionStep(s, e, maxAge);
      BookLocks(s, t);
    }
  }

  lemma CreateLocks(b: Book, id: Id, now: real, maxAge: real)
    ensures LocksKept(b, Clean(b, now, maxAge)) && LocksKept(b, Add(Clean(b, now, maxAge), id, now))
  {
    SectionLocks(b, id, now, maxAge, 0);
    var c := Clean(b, now, maxAge);
    forall h | 0 <= h < |b.handles| ensures SameLocks(b.handles[h], Add(c, id, now).handles[h]) {
      assert SameLocks(b.handles[h], c.handles[h]);
    }
  }

  lemma SectionStep(s: Sys, e: Event, maxAge: real)
    requires !e.Advance? && !e.Cancel? && !e.StartSend? && !e.StartWorkflow? && !e.StartResetOne? && !e.StartResetAll?
    ensures LocksKept(s.book, Step(s, e, maxAge).book) && Step(s, e, maxAge).tasks == s.tasks
  {
    match e
    case CreateSession(id, now) => CreateLocks(s.book, id, now, maxAge);
    case StoreSession(id, now) => SectionLocks(s.book, id, now, maxAge, 0);
    case Lookup(now) => SectionLocks(s.book, "", now, maxAge, 0);
    case ResetOneNow(id, now) => SectionLocks(s.book, id, now, maxAge, 0);
    case ResetAllNow(now) => SectionLocks(s.book, "", now, maxAge, 0);
    case InvalidateAll => SectionLocks(s.book, "", 0.0, maxAge, 0);
    case DrainExpired => SectionLocks(s.book, "", 0.0, maxAge, 0);
  }

  // ---------------------------------------------------------------- runs

  ghost predicate Inv(s: Sys) {
    PlacesOk(s) && LocksOk(s)
  }

  lemma {:induction false} RunKeeps(s: Sys, events: seq<Event>, maxAge: real)
    requires Inv(s)
    ensures Inv(Run(s, events, maxAge))
    decreases |events|
  {
    if events != [] {
      RunKeeps(s, events[..|events| - 1], maxAge);
      StepPlaces(Run(s, events[..|events| - 1], maxAge), events[|events| - 1], maxAge);
      StepLocks(Run(s, events[..|events| - 1], maxAge), events[|events| - 1], maxAge);
    }
  }

  lemma ReachableHolds(s: Sys, maxAge: real)
    requires Reachable(s, maxAge)
    ensures Inv(s)
  {
    var events :| s == Run(START, events, maxAge);
    RunKeeps(START, events, maxAge);
  }
}
