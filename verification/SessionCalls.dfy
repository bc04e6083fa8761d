/**
 What each call of the session service does to which handle, and what a send, a workflow
 and a reset come to when nobody interrupts them.
 */
module SessionCalls {
  import opened Common
  import opened Sessions
  import opened SessionSafety
  import opened SessionTheorems

  // ---------------------------------------------------------------- expiry

  /** Too old at `now`, and neither a send nor a workflow holds it. */
  predicate TooOld(s: Sys, h: nat, now: real, maxAge: real) {
    h < |s.book.handles| && now - s.book.handles[h].created > maxAge
    && s.book.handles[h].send == None && s.book.handles[h].workflow == None
  }

  predicate Expires(s: Sys, h: nat, now: real, maxAge: real) {
    h in s.book.live && TooOld(s, h, now, maxAge)
  }

  /** Exactly the live handles that are too old and unlocked have moved to the end of the queue. */
  ghost predicate ExpiredExactly(s: Sys, t: Sys, now: real, maxAge: real) {
    && (forall h :: h in t.book.live <==> h in s.book.live && !TooOld(s, h, now, maxAge))
    && s.book.expired <= t.book.expired
    && (forall h :: h in t.book.expired[|s.book.expired|..] <==> Expires(s, h, now, maxAge))
    && |t.book.handles| == |s.book.handles|
    && (forall h :: 0 <= h < |s.book.handles| ==> AgedOrKept(s, t, h, now, maxAge))
    && t.tasks == s.tasks && t.detached == s.detached && t.lost == s.lost && t.dropped == s.dropped
  }

  predicate AgedOrKept(s: Sys, t: Sys, h: nat, now: real, maxAge: real) {
    h < |s.book.handles| && h < |t.book.handles|
    && t.book.handles[h] == if Expires(s, h, now, maxAge) then s.book.handles[h].(life := Expired) else s.book.handles[h]
  }

  /** Every lookup, listing and explicit clean-up expires exactly what is due. */
  lemma LookupExpiresExactly(s: Sys, now: real, maxAge: real)
    ensures ExpiredExactly(s, Step(s, Lookup(now), maxAge), now, maxAge)
  {
  }

  // ---------------------------------------------------------------- synchronous calls

  /** The live session that `id` names once expired ones are gone. */
  predicate Names(s: Sys, id: Id, h: nat, now: real, maxAge: real) {
    h in s.book.live && h < |s.book.handles| && s.book.handles[h].id == id && !TooOld(s, h, now, maxAge)
  }

  ghost predicate Unnamed(s: Sys, id: Id, now: real, maxAge: real) {
    forall h :: !Names(s, id, h, now, maxAge)
  }

  lemma NameIsFound(s: Sys, id: Id, h: nat, now: real, maxAge: real)
    requires PlacesOk(s) && Names(s, id, h, now, maxAge)
    ensures var c := Cleaned(s, now, maxAge); Find(c.book.handles, c.book.live, id) == Some(h)
  {
    var c := Cleaned(s, now, maxAge);
    CleanPlaces(s, now, maxAge);
    LookupExpiresExactly(s, now, maxAge);
    assert AgedOrKept(s, c, h, now, maxAge);
    CurrentIsLive(c, h);
  }

  lemma NoNameIsFound(s: Sys, id: Id, now: real, maxAge: real)
    requires PlacesOk(s) && Unnamed(s, id, now, maxAge)
    ensures var c := Cleaned(s, now, maxAge); Find(c.book.handles, c.book.live, id).None?
  {
    var c := Cleaned(s, now, maxAge);
    LookupExpiresExactly(s, now, maxAge);
    var found := Find(c.book.handles, c.book.live, id);
    if found.Some? {
      assert AgedOrKept(s, c, found.value, now, maxAge);
      assert Names(s, id, found.value, now, maxAge);
    }
  }

  /** Handle `h` and nothing else was taken out of `c`, and is removed. */
  ghost predicate Took(c: Sys, t: Sys, h: nat) {
    && h < |c.book.handles| && t.detached == c.detached + [h]
    && t.book.handles == c.book.handles[h := c.book.handles[h].(life := Removed)]
    && (forall x :: x in t.book.live <==> x in c.book.live && x != h)
    && t.book.expired == c.book.expired && t.tasks == c.tasks && t.lost == c.lost && t.dropped == c.dropped
  }

  lemma PopTakes(c: Sys, h: nat)
    requires h < |c.book.handles|
    ensures Took(c, Take(c, Pop(c.book, h)), h)
  {
  }

  /** A reset of one session takes out exactly the session the id names, and without one nothing. */
  lemma ResetOneTakes(s: Sys, id: Id, h: nat, now: real, maxAge: real)
    requires Reachable(s, maxAge)
    ensures var t := Step(s, ResetOneNow(id, now), maxAge); var c := Step(s, Lookup(now), maxAge);
            && ExpiredExactly(s, c, now, maxAge)
            && (Names(s, id, h, now, maxAge) ==> Took(c, t, h))
            && (Unnamed(s, id, now, maxAge) ==> t == c)
  {
    ReachableHolds(s, maxAge);
    LookupExpiresExactly(s, now, maxAge);
    var c := Cleaned(s, now, maxAge);
    if Names(s, id, h, now, maxAge) {
      NameIsFound(s, id, h, now, maxAge);
      PopTakes(c, h);
    } else if Unnamed(s, id, now, maxAge) {
      NoNameIsFound(s, id, now, maxAge);
      assert Take(c, Taken(c.book, [])) == c;
    }
  }

  /** A reset of all takes out every live session that does not expire. */
  lemma ResetAllTakes(s: Sys, now: real, maxAge: real)
    ensures var t := Step(s, ResetAllNow(now), maxAge); var c := Step(s, Lookup(now), maxAge);
            && ExpiredExactly(s, c, now, maxAge)
            && t.book.live == [] && t.detached == c.detached + c.book.live && t.book.expired == c.book.expired
            && |t.book.handles| == |c.book.handles|
            && (forall h :: 0 <= h < |c.book.handles| ==>
                  t.book.handles[h] == if h in c.book.live then c.book.handles[h].(life := Removed) else c.book.handles[h])
            && t.tasks == s.tasks && t.lost == s.lost && t.dropped == s.dropped
  {
    LookupExpiresExactly(s, now, maxAge);
  }

  /** An account switch takes out and marks every live and every expired session. */
  lemma InvalidateTakes(s: Sys, maxAge: real)
    ensures var t := Step(s, InvalidateAll, maxAge);
            && t.book.live == [] && t.book.expired == [] && t.detached == s.detached + (s.book.live + s.book.expired)
            && |t.book.handles| == |s.book.handles|
            && (forall h :: 0 <= h < |s.book.handles| ==>
                  t.book.handles[h] == if h in s.book.live || h in s.book.expired
                                       then s.book.handles[h].(life := Removed, invalidated := true) else s.book.handles[h])
            && t.tasks == s.tasks && t.lost == s.lost && t.dropped == s.dropped
  {
  }

  /** Draining hands out the queue, once. */
  lemma DrainTakes(s: Sys, maxAge: real)
    ensures Step(s, DrainExpired, maxAge) == s.(book := s.book.(expired := []), detached := s.detached + s.book.expired)
  {
  }

  /** `t` is `c` with one more session, live under `id`, unlocked and young. */
  predicate Added(c: Sys, t: Sys, id: Id, now: real, live: seq<nat>) {
    t == c.(book := Book(c.book.handles + [Handle(id, now, Active, false, None, None)], live, c.book.expired), lost := t.lost)
  }

  /** A new session goes under an id that names none; an id that names one is refused. */
  lemma CreateAdds(s: Sys, id: Id, h: nat, now: real, maxAge: real)
    requires Reachable(s, maxAge)
    ensures var t := Step(s, CreateSession(id, now), maxAge); var c := Step(s, Lookup(now), maxAge);
            && ExpiredExactly(s, c, now, maxAge)
            && (Unnamed(s, id, now, maxAge) ==> Added(c, t, id, now, c.book.live + [|c.book.handles|]) && t.lost == c.lost)
            && (Names(s, id, h, now, maxAge) ==> t == c)
  {
    ReachableHolds(s, maxAge);
    LookupExpiresExactly(s, now, maxAge);
    if Names(s, id, h, now, maxAge) {
      NameIsFound(s, id, h, now, maxAge);
    } else if Unnamed(s, id, now, maxAge) {
      NoNameIsFound(s, id, now, maxAge);
    }
  }

  /** store_session replaces the live session of that id in its place, or adds one. */
  lemma StoreReplaces(s: Sys, id: Id, i: nat, now: real, maxAge: real)
    requires Reachable(s, maxAge)
    ensures var t := Step(s, StoreSession(id, now), maxAge);
            && (i < |s.book.live| && s.book.live[i] < |s.book.handles| && s.book.handles[s.book.live[i]].id == id ==>
                  Added(s, t, id, now, s.book.live[i := |s.book.handles|]) && t.lost == s.lost + [s.book.live[i]])
            && ((forall h :: h in s.book.live && h < |s.book.handles| ==> s.book.handles[h].id != id) ==>
                  Added(s, t, id, now, s.book.live + [|s.book.handles|]) && t.lost == s.lost)
  {
    ReachableHolds(s, maxAge);
    if i < |s.book.live| && s.book.live[i] < |s.book.handles| && s.book.handles[s.book.live[i]].id == id {
      var h := s.book.live[i];
      CurrentIsLive(s, h);
      OncePositioned(s, h, i);
    }
  }

  lemma OncePositioned(s: Sys, h: nat, i: nat)
    requires PlacesOk(s) && i < |s.book.live| && s.book.live[i] == h
    ensures Position(s.book.live, h) == i
  {
    var j := Position(s.book.live, h);
    assert Placed(s, h);
    if i < j { TwiceCounted(s.book.live, i, j); } else if j < i { TwiceCounted(s.book.live, j, i); }
  }

  lemma TwiceCounted(xs: seq<nat>, i: nat, j: nat)
    requires i < j < |xs| && xs[i] == xs[j]
    ensures multiset(xs)[xs[i]] > 1
  {
    assert xs == xs[..i] + [xs[i]] + xs[i + 1..j] + [xs[j]] + xs[j + 1..];
  }

  // ---------------------------------------------------------------- tasks that nobody interrupts

  /** No live session is due to expire. */
  ghost predicate Quiet(s: Sys, now: real, maxAge: real) {
    forall h :: h in s.book.live ==> !Ages(s.book.handles, h, now, maxAge)
  }

  lemma {:induction false} NoneArePicked(hs: seq<Handle>, live: seq<nat>, now: real, maxAge: real)
    requires forall h :: h in live ==> !Ages(hs, h, now, maxAge)
    ensures Pick(hs, live, now, maxAge, false) == live && Pick(hs, live, now, maxAge, true) == []
  {
    if live != [] {
      assert live[0] in live;
      forall h | h in live[1..] ensures !Ages(hs, h, now, maxAge) { assert h in live; }
      NoneArePicked(hs, live[1..], now, maxAge);
      assert live == [live[0]] + live[1..];
    }
  }

  lemma QuietStays(s: Sys, now: real, maxAge: real)
    requires Quiet(s, now, maxAge)
    ensures Cleaned(s, now, maxAge) == s
  {
    NoneArePicked(s.book.handles, s.book.live, now, maxAge);
    assert Mark(s.book.handles, [], Expired, false) == s.book.handles;
    assert s.book.expired + [] == s.book.expired;
  }

  /** A live session whose locks are both free. */
  predicate Open(s: Sys, id: Id, h: nat) {
    && h in s.book.live && h < |s.book.handles| && s.book.handles[h].id == id
    && s.book.handles[h].send == None && s.book.handles[h].workflow == None
  }

  /** The state with handle `h` locked, and the tasks `tasks`. */
  function Locked(s: Sys, h: nat, send: Option<nat>, workflow: Option<nat>, tasks: seq<Pc>): Sys
    requires h < |s.book.handles|
  {
    s.(book := s.book.(handles := s.book.handles[h := s.book.handles[h].(send := send, workflow := workflow)]), tasks := tasks)
  }

  lemma GotoIsLocked(s: Sys, base: Sys, h: nat, send: Option<nat>, workflow: Option<nat>, t: nat, next: Pc)
    requires h < |base.book.handles| && t < |s.tasks| && s == Locked(base, h, send, workflow, s.tasks)
    requires base.book.handles[h].send == None && base.book.handles[h].workflow == None
    requires (SendOf(s.tasks[t]).Some? ==> SendOf(s.tasks[t]).value == h) && (SendOf(next).Some? ==> SendOf(next).value == h)
    requires (WorkflowOf(s.tasks[t]).Some? ==> WorkflowOf(s.tasks[t]).value == h) && (WorkflowOf(next).Some? ==> WorkflowOf(next).value == h)
    requires SendOf(s.tasks[t]).Some? <==> send == Some(t)
    requires WorkflowOf(s.tasks[t]).Some? <==> workflow == Some(t)
    requires send == None || send == Some(t)
    requires workflow == None || workflow == Some(t)
    ensures Goto(s, t, next) == Locked(base, h, if SendOf(next).Some? then Some(t) else None,
                                       if WorkflowOf(next).Some? then Some(t) else None, s.tasks[t := next])
  {
    var g := Goto(s, t, next);
    assert g.book.handles == Locked(base, h, if SendOf(next).Some? then Some(t) else None,
                                    if WorkflowOf(next).Some? then Some(t) else None, s.tasks[t := next]).book.handles;
  }

  lemma LockedIsQuiet(s: Sys, h: nat, send: Option<nat>, workflow: Option<nat>, tasks: seq<Pc>, now: real, maxAge: real)
    requires Quiet(s, now, maxAge) && h < |s.book.handles|
    requires s.book.handles[h].send == None && s.book.handles[h].workflow == None
    ensures Quiet(Locked(s, h, send, workflow, tasks), now, maxAge)
  {
    var t := Locked(s, h, send, workflow, tasks);
    forall x | x in t.book.live ensures !Ages(t.book.handles, x, now, maxAge) {
      assert !Ages(s.book.handles, x, now, maxAge);
    }
  }

  lemma LockedIsCurrent(s: Sys, h: nat, send: Option<nat>, workflow: Option<nat>, tasks: seq<Pc>)
    requires PlacesOk(s) && h in s.book.live && h < |s.book.handles|
    ensures Current(Locked(s, h, send, workflow, tasks).book, h)
    ensures Find(Locked(s, h, send, workflow, tasks).book.handles, s.book.live, s.book.handles[h].id) == Some(h)
  {
    CurrentIsLive(s, h);
    SameIdsSameFind(s.book.handles, Locked(s, h, send, workflow, tasks).book.handles, s.book.live, s.book.handles[h].id);
  }

  lemma {:induction false} SameIdsSameFind(a: seq<Handle>, b: seq<Handle>, live: seq<nat>, id: Id)
    requires |a| == |b| && forall h :: 0 <= h < |a| ==> b[h].id == a[h].id
    ensures Find(a, live, id) == Find(b, live, id)
  {
    if live != [] { SameIdsSameFind(a, b, live[1..], id); }
  }

  /** A task of this session that is alone with it, before it takes a lock. */
  ghost predicate Serving(s: Sys, id: Id, h: nat, now: real, maxAge: real) {
    PlacesOk(s) && Quiet(s, now, maxAge) && Open(s, id, h)
  }

  lemma TaskBegins(s: Sys, id: Id, h: nat, now: real, maxAge: real)
    requires Serving(s, id, h, now, maxAge)
    ensures Step(s, StartSend(id, now), maxAge) == Begin(s, SendWait(h, None))
    ensures Step(s, StartWorkflow(id, now), maxAge) == Begin(s, WorkflowWait(h))
    ensures Step(s, StartResetOne(id, now), maxAge) == Begin(s, ResetWait(h, [], true, []))
  {
    QuietStays(s, now, maxAge);
    CurrentIsLive(s, h);
  }

  lemma BegunIsLocked(s: Sys, h: nat, first: Pc)
    requires h < |s.book.handles| && s.book.handles[h].send == None && s.book.handles[h].workflow == None
    ensures Begin(s, first) == Locked(s, h, None, None, s.tasks + [first])
  {
    assert s.book.handles[h := s.book.handles[h]] == s.book.handles;
    assert s.book.handles[h].(send := None, workflow := None) == s.book.handles[h];
  }

  /** A send enters with the send lock, and leaves with the lock free and its own outcome. */
  lemma SendCompletes(s: Sys, id: Id, h: nat, now: real, ok: bool, maxAge: real)
    requires Serving(s, id, h, now, maxAge)
    ensures var n := |s.tasks|;
            var entered := Step(Step(s, StartSend(id, now), maxAge), Advance(n, now, true), maxAge);
            var left := Step(entered, Advance(n, now, ok), maxAge);
            && entered == Locked(s, h, Some(n), None, s.tasks + [Sending(h, None)])
            && left == Begin(s, Done(if ok then Sent else Failed))
  {
    var n := |s.tasks|;
    TaskBegins(s, id, h, now, maxAge);
    BegunIsLocked(s, h, SendWait(h, None));
    SendEnters(s, h, now, maxAge);
    SendLeaves(s, h, now, ok, maxAge);
  }

  lemma SendEnters(s: Sys, h: nat, now: real, maxAge: real)
    requires PlacesOk(s) && Quiet(s, now, maxAge) && h in s.book.live && h < |s.book.handles|
    requires s.book.handles[h].send == None && s.book.handles[h].workflow == None
    ensures Step(Locked(s, h, None, None, s.tasks + [SendWait(h, None)]), Advance(|s.tasks|, now, true), maxAge)
            == Locked(s, h, Some(|s.tasks|), None, s.tasks + [Sending(h, None)])
  {
    var n := |s.tasks|;
    var b := Locked(s, h, None, None, s.tasks + [SendWait(h, None)]);
    var e := Locked(s, h, Some(n), None, s.tasks + [Sending(h, None)]);
    AdvanceIsMove(b, n, now, true, maxAge);
    GotoIsLocked(b, s, h, None, None, n, Sending(h, None));
    assert (s.tasks + [SendWait(h, None)])[n := Sending(h, None)] == s.tasks + [Sending(h, None)];
    LockedIsQuiet(s, h, Some(n), None, e.tasks, now, maxAge);
    QuietStays(e, now, maxAge);
    LockedIsCurrent(s, h, Some(n), None, e.tasks);
  }

  lemma SendLeaves(s: Sys, h: nat, now: real, ok: bool, maxAge: real)
    requires PlacesOk(s) && h in s.book.live && h < |s.book.handles|
    requires s.book.handles[h].send == None && s.book.handles[h].workflow == None
    ensures Step(Locked(s, h, Some(|s.tasks|), None, s.tasks + [Sending(h, None)]), Advance(|s.tasks|, now, ok), maxAge)
            == Begin(s, Done(if ok then Sent else Failed))
  {
    var n := |s.tasks|;
    var e := Locked(s, h, Some(n), None, s.tasks + [Sending(h, None)]);
    var next := Done(if ok then Sent else Failed);
    LiveIsValid(s, h);
    AdvanceIsMove(e, n, now, ok, maxAge);
    GotoIsLocked(e, s, h, Some(n), None, n, next);
    BegunIsLocked(s, h, next);
    assert (s.tasks + [Sending(h, None)])[n := next] == s.tasks + [next];
  }

  lemma LiveIsValid(s: Sys, h: nat)
    requires PlacesOk(s) && h in s.book.live && h < |s.book.handles|
    ensures !s.book.handles[h].invalidated
  {
    assert Placed(s, h);
    InSeq(s.book.live, h);
    InSeq(s.detached, h);
  }

  /** A reset of one session takes both locks, then exactly its session, and frees the locks. */
  lemma ResetOneCompletes(s: Sys, id: Id, h: nat, now: real, maxAge: real)
    requires Serving(s, id, h, now, maxAge)
    ensures var n := |s.tasks|;
            var t := Step(Step(Step(s, StartResetOne(id, now), maxAge), Advance(n, now, true), maxAge), Advance(n, now, true), maxAge);
            Took(s.(tasks := t.tasks), t, h) && t.tasks == s.tasks + [Done(Cleared)]
  {
    var n := |s.tasks|;
    TaskBegins(s, id, h, now, maxAge);
    BegunIsLocked(s, h, ResetWait(h, [], true, []));
    ResetLocks(s, h, [], true, [], now, maxAge);
    ResetCollects(s, h, now, maxAge);
  }

  lemma ResetLocks(s: Sys, h: nat, rest: seq<nat>, single: bool, taken: seq<nat>, now: real, maxAge: real)
    requires h < |s.book.handles| && s.book.handles[h].send == None && s.book.handles[h].workflow == None
    ensures Step(Locked(s, h, None, None, s.tasks + [ResetWait(h, rest, single, taken)]), Advance(|s.tasks|, now, true), maxAge)
            == Locked(s, h, None, Some(|s.tasks|), s.tasks + [ResetSendWait(h, rest, single, taken)])
  {
    var n := |s.tasks|;
    var b := Locked(s, h, None, None, s.tasks + [ResetWait(h, rest, single, taken)]);
    AdvanceIsMove(b, n, now, true, maxAge);
    GotoIsLocked(b, s, h, None, None, n, ResetSendWait(h, rest, single, taken));
    assert b.tasks[n := ResetSendWait(h, rest, single, taken)] == s.tasks + [ResetSendWait(h, rest, single, taken)];
  }

  lemma ResetCollects(s: Sys, h: nat, now: real, maxAge: real)
    requires PlacesOk(s) && Quiet(s, now, maxAge) && h in s.book.live && h < |s.book.handles|
    requires s.book.handles[h].send == None && s.book.handles[h].workflow == None
    ensures var e := Locked(s, h, None, Some(|s.tasks|), s.tasks + [ResetSendWait(h, [], true, [])]);
            var t := Step(e, Advance(|s.tasks|, now, true), maxAge);
            Took(s.(tasks := t.tasks), t, h) && t.tasks == s.tasks + [Done(Cleared)]
  {
    var n := |s.tasks|;
    var e := Locked(s, h, None, Some(n), s.tasks + [ResetSendWait(h, [], true, [])]);
    AdvanceIsMove(e, n, now, true, maxAge);
    LockedIsQuiet(s, h, None, Some(n), e.tasks, now, maxAge);
    QuietStays(e, now, maxAge);
    LockedIsCurrent(s, h, None, Some(n), e.tasks);
    CollectsOne(s, e, n, h);
  }

  lemma CollectsOne(s: Sys, e: Sys, n: nat, h: nat)
    requires h < |s.book.handles| && s.book.handles[h].send == None && s.book.handles[h].workflow == None && n == |s.tasks|
    requires e == Locked(s, h, None, Some(n), s.tasks + [ResetSendWait(h, [], true, [])]) && Current(e.book, h)
    ensures Took(s.(tasks := Collect(e, n).tasks), Collect(e, n), h) && Collect(e, n).tasks == s.tasks + [Done(Cleared)]
  {
    CollectsHandles(s, e, n, h);
    assert [] + [h] == [h];
    assert e.tasks[n := Done(Cleared)] == s.tasks + [Done(Cleared)];
  }

  lemma CollectsHandles(s: Sys, e: Sys, n: nat, h: nat)
    requires h < |s.book.handles| && s.book.handles[h].send == None && s.book.handles[h].workflow == None && n == |s.tasks|
    requires e == Locked(s, h, None, Some(n), s.tasks + [ResetSendWait(h, [], true, [])]) && Current(e.book, h)
    ensures Collect(e, n).book.handles == s.book.handles[h := s.book.handles[h].(life := Removed)]
  {
    assert Pop(e.book, h).book.handles == e.book.handles[h := e.book.handles[h].(life := Removed)];
  }

  // ---------------------------------------------------------------- a whole workflow

  lemma WorkflowEnters(s: Sys, h: nat, now: real, maxAge: real)
    requires PlacesOk(s) && Quiet(s, now, maxAge) && h in s.book.live && h < |s.book.handles|
    requires s.book.handles[h].send == None && s.book.handles[h].workflow == None
    ensures Step(Locked(s, h, None, None, s.tasks + [WorkflowWait(h)]), Advance(|s.tasks|, now, true), maxAge)
            == Locked(s, h, None, Some(|s.tasks|), s.tasks + [Working(h)])
  {
    var n := |s.tasks|;
    var b := Locked(s, h, None, None, s.tasks + [WorkflowWait(h)]);
    var e := Locked(s, h, None, Some(n), s.tasks + [Working(h)]);
    AdvanceIsMove(b, n, now, true, maxAge);
    GotoIsLocked(b, s, h, None, None, n, Working(h));
    assert b.tasks[n := Working(h)] == e.tasks;
    LockedIsQuiet(s, h, None, Some(n), e.tasks, now, maxAge);
    QuietStays(e, now, maxAge);
    LockedIsCurrent(s, h, None, Some(n), e.tasks);
  }

  /** The send inside the workflow finds the same session; a preparation that fails ends the workflow. */
  lemma WorkflowSends(s: Sys, h: nat, now: real, ok: bool, maxAge: real)
    requires PlacesOk(s) && Quiet(s, now, maxAge) && h in s.book.live && h < |s.book.handles|
    requires s.book.handles[h].send == None && s.book.handles[h].workflow == None
    ensures Step(Locked(s, h, None, Some(|s.tasks|), s.tasks + [Working(h)]), Advance(|s.tasks|, now, ok), maxAge)
            == if ok then Locked(s, h, None, Some(|s.tasks|), s.tasks + [SendWait(h, Some(h))]) else Begin(s, Done(Failed))
  {
    var n := |s.tasks|;
    var e := Locked(s, h, None, Some(n), s.tasks + [Working(h)]);
    AdvanceIsMove(e, n, now, ok, maxAge);
    LockedIsQuiet(s, h, None, Some(n), e.tasks, now, maxAge);
    QuietStays(e, now, maxAge);
    LockedIsCurrent(s, h, None, Some(n), e.tasks);
    var next := if ok then SendWait(h, Some(h)) else Done(Failed);
    GotoIsLocked(e, s, h, None, Some(n), n, next);
    assert e.tasks[n := next] == s.tasks + [next];
    BegunIsLocked(s, h, Done(Failed));
  }

  lemma InnerSendEnters(s: Sys, h: nat, now: real, maxAge: real)
    requires PlacesOk(s) && Quiet(s, now, maxAge) && h in s.book.live && h < |s.book.handles|
    requires s.book.handles[h].send == None && s.book.handles[h].workflow == None
    ensures Step(Locked(s, h, None, Some(|s.tasks|), s.tasks + [SendWait(h, Some(h))]), Advance(|s.tasks|, now, true), maxAge)
            == Locked(s, h, Some(|s.tasks|), Some(|s.tasks|), s.tasks + [Sending(h, Some(h))])
  {
    var n := |s.tasks|;
    var b := Locked(s, h, None, Some(n), s.tasks + [SendWait(h, Some(h))]);
    var e := Locked(s, h, Some(n), Some(n), s.tasks + [Sending(h, Some(h))]);
    AdvanceIsMove(b, n, now, true, maxAge);
    GotoIsLocked(b, s, h, None, Some(n), n, Sending(h, Some(h)));
    assert b.tasks[n := Sending(h, Some(h))] == e.tasks;
    LockedIsQuiet(s, h, Some(n), Some(n), e.tasks, now, maxAge);
    QuietStays(e, now, maxAge);
    LockedIsCurrent(s, h, Some(n), Some(n), e.tasks);
  }

  /** After the send the workflow reads its Task back; a send that failed ends it, with both locks free. */
  lemma InnerSendLeaves(s: Sys, h: nat, now: real, ok: bool, maxAge: real)
    requires PlacesOk(s) && h in s.book.live && h < |s.book.handles|
    requires s.book.handles[h].send == None && s.book.handles[h].workflow == None
    ensures Step(Locked(s, h, Some(|s.tasks|), Some(|s.tasks|), s.tasks + [Sending(h, Some(h))]), Advance(|s.tasks|, now, ok), maxAge)
            == if ok then Locked(s, h, None, Some(|s.tasks|), s.tasks + [Reading(h)]) else Begin(s, Done(Failed))
  {
    var n := |s.tasks|;
    var e := Locked(s, h, Some(n), Some(n), s.tasks + [Sending(h, Some(h))]);
    var next := if ok then Reading(h) else Done(Failed);
    LiveIsValid(s, h);
    AdvanceIsMove(e, n, now, ok, maxAge);
    GotoIsLocked(e, s, h, Some(n), Some(n), n, next);
    assert e.tasks[n := next] == s.tasks + [next];
    BegunIsLocked(s, h, Done(Failed));
  }

  lemma ReadingEnds(s: Sys, h: nat, now: real, maxAge: real)
    requires h < |s.book.handles| && s.book.handles[h].send == None && s.book.handles[h].workflow == None
    ensures Step(Locked(s, h, None, Some(|s.tasks|), s.tasks + [Reading(h)]), Advance(|s.tasks|, now, true), maxAge) == Begin(s, Done(Sent))
  {
    var n := |s.tasks|;
    var e := Locked(s, h, None, Some(n), s.tasks + [Reading(h)]);
    AdvanceIsMove(e, n, now, true, maxAge);
    GotoIsLocked(e, s, h, None, Some(n), n, Done(Sent));
    assert e.tasks[n := Done(Sent)] == s.tasks + [Done(Sent)];
    BegunIsLocked(s, h, Done(Sent));
  }

  /** A workflow that nobody interrupts sends, reads back, and leaves both locks free. */
  lemma WorkflowCompletes(s: Sys, id: Id, h: nat, now: real, maxAge: real)
    requires Serving(s, id, h, now, maxAge)
    ensures var a := Advance(|s.tasks|, now, true);
            Step(Step(Step(Step(Step(Step(s, StartWorkflow(id, now), maxAge), a, maxAge), a, maxAge), a, maxAge), a, maxAge), a, maxAge)
            == Begin(s, Done(Sent))
  {
    TaskBegins(s, id, h, now, maxAge);
    BegunIsLocked(s, h, WorkflowWait(h));
    WorkflowEnters(s, h, now, maxAge);
    WorkflowSends(s, h, now, true, maxAge);
    InnerSendEnters(s, h, now, maxAge);
    InnerSendLeaves(s, h, now, true, maxAge);
    ReadingEnds(s, h, now, maxAge);
  }

  /** A task that gets its lock after its session was taken out reports that, and keeps no lock. */
  lemma GoneIsNotFound(s: Sys, t: nat, now: real, ok: bool, maxAge: real)
    requires Reachable(s, maxAge) && t < |s.tasks| && ((s.tasks[t].SendWait? && s.tasks[t].outer.None?) || s.tasks[t].WorkflowWait?)
    requires s.tasks[t].h !in s.book.live && SendFree(s, s.tasks[t].h) && WorkflowFree(s, s.tasks[t].h)
    ensures Step(s, Advance(t, now, ok), maxAge).tasks == s.tasks[t := Done(NotFound)]
  {
    ReachableHolds(s, maxAge);
    AdvanceIsMove(s, t, now, ok, maxAge);
    var pc := s.tasks[t];
    var next := if pc.SendWait? then Sending(pc.h, None) else Working(pc.h);
    var locked := Goto(s, t, next);
    CleanKeepsOut(locked, pc.h, now, maxAge);
  }

  lemma CleanKeepsOut(s: Sys, h: nat, now: real, maxAge: real)
    requires h !in s.book.live
    ensures !Current(Cleaned(s, now, maxAge).book, h)
  {
  }

  // ---------------------------------------------------------------- a whole full reset

  lemma AsLocked(u: Sys, h: nat)
    requires h < |u.book.handles| && u.book.handles[h].send == None && u.book.handles[h].workflow == None
    ensures Locked(u, h, None, None, u.tasks) == u
  {
    assert u.book.handles[h].(send := None, workflow := None) == u.book.handles[h];
    assert u.book.handles[h := u.book.handles[h]] == u.book.handles;
  }

  /** The handles after `h` was taken out. */
  function RemovedAt(hs: seq<Handle>, h: nat): seq<Handle> {
    if h < |hs| then hs[h := hs[h].(life := Removed)] else hs
  }

  lemma ResetLocksNext(u: Sys, n: nat, now: real, maxAge: real)
    requires n < |u.tasks| && u.tasks[n].ResetWait? && u.tasks[n].h < |u.book.handles|
    requires u.book.handles[u.tasks[n].h].send == None && u.book.handles[u.tasks[n].h].workflow == None
    ensures var pc := u.tasks[n]; var next := ResetSendWait(pc.h, pc.rest, pc.single, pc.taken);
            Step(u, Advance(n, now, true), maxAge) == Locked(u, pc.h, None, Some(n), u.tasks[n := next])
  {
    var pc := u.tasks[n];
    AsLocked(u, pc.h);
    AdvanceIsMove(u, n, now, true, maxAge);
    GotoIsLocked(u, u, pc.h, None, None, n, ResetSendWait(pc.h, pc.rest, pc.single, pc.taken));
  }

  lemma ResetCollectsNext(u: Sys, n: nat, h: nat, rest: seq<nat>, taken: seq<nat>, now: real, maxAge: real)
    requires PlacesOk(u) && n < |u.tasks| && h in u.book.live && h < |u.book.handles|
    requires u.book.handles[h].send == None && u.book.handles[h].workflow == None
    ensures var e := Locked(u, h, None, Some(n), u.tasks[n := ResetSendWait(h, rest, false, taken)]);
            var t := Step(e, Advance(n, now, true), maxAge);
            && t.book == Book(RemovedAt(u.book.handles, h), Without(u.book.live, h), u.book.expired)
            && t.tasks == u.tasks[n := Following(rest, taken + [h])]
            && t.detached == u.detached + (if rest == [] then taken + [h] else [])
            && t.lost == u.lost && t.dropped == u.dropped
  {
    var e := Locked(u, h, None, Some(n), u.tasks[n := ResetSendWait(h, rest, false, taken)]);
    AdvanceIsMove(e, n, now, true, maxAge);
    LockedIsCurrent(u, h, None, Some(n), e.tasks);
    var t := Collect(e, n);
    assert t.book.handles == RemovedAt(u.book.handles, h);
    assert t.tasks == u.tasks[n := Following(rest, taken + [h])];
  }

  lemma FirstIsTaken(s: Sys, h: nat, rest: seq<nat>)
    requires PlacesOk(s) && s.book.live == [h] + rest
    ensures Without(s.book.live, h) == rest && h !in rest
  {
    assert Placed(s, h);
    assert multiset([h] + rest)[h] == 1 + multiset(rest)[h];
    InSeq(rest, h);
    assert ([h] + rest)[1..] == rest;
    WithoutAbsent(rest, h);
  }

  lemma {:induction false} WithoutAbsent(xs: seq<nat>, h: nat)
    requires h !in xs
    ensures Without(xs, h) == xs
  {
    if xs != [] { WithoutAbsent(xs[1..], h); }
  }

  /** Every live session has both locks free. */
  ghost predicate Unlocked(s: Sys) {
    forall h :: h in s.book.live ==>
      h < |s.book.handles| && s.book.handles[h].send == None && s.book.handles[h].workflow == None
  }

  /** Two moves of the reset for each session of what is left of the snapshot. */
  function Moves(n: nat, now: real, count: nat): seq<Event> {
    if count == 0 then [] else [Advance(n, now, true)] + ([Advance(n, now, true)] + Moves(n, now, count - 1))
  }

  lemma MovesRun(u: Sys, n: nat, now: real, count: nat, maxAge: real)
    ensures Run(u, Moves(n, now, count + 1), maxAge)
            == Run(Step(Step(u, Advance(n, now, true), maxAge), Advance(n, now, true), maxAge), Moves(n, now, count), maxAge)
  {
    var a, more := Advance(n, now, true), Moves(n, now, count);
    RunAfter(u, a, [a] + more, maxAge);
    RunAfter(Step(u, a, maxAge), a, more, maxAge);
  }

  lemma ResetRound(u: Sys, n: nat, h: nat, rest: seq<nat>, taken: seq<nat>, now: real, maxAge: real) returns (v: Sys)
    requires PlacesOk(u) && Unlocked(u) && n < |u.tasks| && u.tasks[n] == ResetWait(h, rest, false, taken) && u.book.live == [h] + rest
    ensures forall count: nat :: Run(u, Moves(n, now, count + 1), maxAge) == Run(v, Moves(n, now, count), maxAge)
    ensures PlacesOk(v) && Unlocked(v) && v.book.live == rest && v.tasks == u.tasks[n := Following(rest, taken + [h])]
    ensures v.detached == u.detached + (if rest == [] then taken + [h] else []) && v.lost == u.lost && v.dropped == u.dropped
    ensures v.book.expired == u.book.expired && v.book.handles == RemovedAt(u.book.handles, h)
  {
    assert h in u.book.live;
    ResetLocksNext(u, n, now, maxAge);
    ResetCollectsNext(u, n, h, rest, taken, now, maxAge);
    FirstIsTaken(u, h, rest);
    StepPlaces(u, Advance(n, now, true), maxAge);
    StepPlaces(Step(u, Advance(n, now, true), maxAge), Advance(n, now, true), maxAge);
    v := Step(Step(u, Advance(n, now, true), maxAge), Advance(n, now, true), maxAge);
    forall count: nat ensures Run(u, Moves(n, now, count + 1), maxAge) == Run(v, Moves(n, now, count), maxAge) {
      MovesRun(u, n, now, count, maxAge);
    }
    forall x | x in rest
      ensures x < |v.book.handles| && v.book.handles[x].send == None && v.book.handles[x].workflow == None
    {
      assert x in u.book.live;
    }
  }

  /** The reset has returned `all` on top of what was handed out before, and no live session is left. */
  predicate Emptied(u: Sys, t: Sys, n: nat, all: seq<nat>)
    requires n < |u.tasks|
  {
    && t.book.live == [] && t.book.expired == u.book.expired && t.tasks == u.tasks[n := Done(Cleared)]
    && t.detached == u.detached + all && t.lost == u.lost && t.dropped == u.dropped
  }

  lemma EmptiedNext(u: Sys, v: Sys, t: Sys, n: nat, h: nat, rest: seq<nat>, taken: seq<nat>)
    requires n < |u.tasks| && rest != [] && v.tasks == u.tasks[n := Following(rest, taken + [h])]
    requires v.detached == u.detached + [] && v.lost == u.lost && v.dropped == u.dropped && v.book.expired == u.book.expired
    requires Emptied(v, t, n, taken + [h] + [rest[0]] + rest[1..])
    ensures Emptied(u, t, n, taken + [h] + rest)
  {
    assert taken + [h] + [rest[0]] + rest[1..] == taken + [h] + rest;
    assert v.tasks[n := Done(Cleared)] == u.tasks[n := Done(Cleared)];
    assert u.detached + [] == u.detached;
  }

  lemma {:induction false} FullResetRest(u: Sys, n: nat, h: nat, rest: seq<nat>, taken: seq<nat>, now: real, maxAge: real)
    requires PlacesOk(u) && Unlocked(u) && n < |u.tasks| && u.tasks[n] == ResetWait(h, rest, false, taken) && u.book.live == [h] + rest
    ensures Emptied(u, Run(u, Moves(n, now, |rest| + 1), maxAge), n, taken + [h] + rest)
    decreases |rest|
  {
    var v := ResetRound(u, n, h, rest, taken, now, maxAge);
    assert Run(u, Moves(n, now, |rest| + 1), maxAge) == Run(v, Moves(n, now, |rest|), maxAge);
    if rest == [] {
      assert taken + [h] + rest == taken + [h];
      assert Run(v, Moves(n, now, 0), maxAge) == v;
    } else {
      assert rest == [rest[0]] + rest[1..];
      FullResetRest(v, n, rest[0], rest[1..], taken + [h], now, maxAge);
      EmptiedNext(u, v, Run(v, Moves(n, now, |rest|), maxAge), n, h, rest, taken);
    }
  }

  /** A full reset that nobody interrupts takes out every live session and returns them all. */
  lemma FullResetCompletes(s: Sys, now: real, maxAge: real)
    requires PlacesOk(s) && Unlocked(s) && Quiet(s, now, maxAge)
    ensures var t := Run(Step(s, StartResetAll(now), maxAge), Moves(|s.tasks|, now, |s.book.live|), maxAge);
            && t.book.live == [] && t.book.expired == s.book.expired && t.tasks == s.tasks + [Done(Cleared)]
            && t.detached == s.detached + s.book.live && t.lost == s.lost && t.dropped == s.dropped
  {
    QuietStays(s, now, maxAge);
    var n := |s.tasks|;
    var u := Step(s, StartResetAll(now), maxAge);
    assert u == Begin(s, Following(s.book.live, []));
    if s.book.live != [] {
      var h, rest := s.book.live[0], s.book.live[1..];
      assert s.book.live == [h] + rest;
      BeginPlaces(s, Following(s.book.live, []));
      FullResetRest(u, n, h, rest, [], now, maxAge);
      assert [] + [h] + rest == s.book.live && |rest| + 1 == |s.book.live|;
      assert u.tasks[n := Done(Cleared)] == s.tasks + [Done(Cleared)];
    }
  }
}
