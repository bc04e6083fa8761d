/** A run in which a full reset is cancelled halfway, and the sessions it had detached are dropped. */
module SessionScenarios {
  import opened Common
  import opened Sessions
  import opened SessionSafety
  import opened SessionTheorems

  function Made(id: Id, send: Option<nat>, workflow: Option<nat>): Handle {
    Handle(id, 0.0, Active, false, send, workflow)
  }

  function Free(id: Id): Handle { Made(id, None, None) }

  /** At the moment they were made no handles are too old. */
  lemma {:induction false} YoungArePicked(hs: seq<Handle>, live: seq<nat>, maxAge: real)
    requires maxAge >= 0.0 && forall h :: 0 <= h < |hs| ==> hs[h].created == 0.0
    ensures Pick(hs, live, 0.0, maxAge, false) == live && Pick(hs, live, 0.0, maxAge, true) == []
  {
    if live != [] {
      YoungArePicked(hs, live[1..], maxAge);
      assert live == [live[0]] + live[1..];
    }
  }

  lemma YoungStay(s: Sys, maxAge: real)
    requires maxAge >= 0.0 && forall h :: 0 <= h < |s.book.handles| ==> s.book.handles[h].created == 0.0
    ensures Cleaned(s, 0.0, maxAge) == s
  {
    YoungArePicked(s.book.handles, s.book.live, maxAge);
    assert Mark(s.book.handles, [], Expired, false) == s.book.handles;
    assert s.book.expired + [] == s.book.expired;
  }

  function With(handles: seq<Handle>, live: seq<nat>, tasks: seq<Pc>): Sys {
    Sys(Book(handles, live, []), tasks, [], [], [])
  }

  lemma Reach(s: Sys, e: Event, t: Sys, maxAge: real)
    requires Reachable(s, maxAge) && Step(s, e, maxAge) == t
    ensures Reachable(t, maxAge)
  {
    ReachableStep(s, e, maxAge);
  }

  const TWO: seq<nat> := [0, 1]

  lemma FindsSecond(hs: seq<Handle>)
    requires |hs| == 2 && hs[0].id == "a" && hs[1].id == "b"
    ensures Find(hs, TWO, "b") == Some(1) && Find(hs, TWO, "a") == Some(0) && Find(hs, [], "a") == None
  {
    assert TWO[1..] == [1];
  }

  lemma FirstIsMade(maxAge: real)
    requires maxAge >= 0.0
    ensures Step(START, CreateSession("a", 0.0), maxAge) == With([Free("a")], [0], [])
  {
    YoungStay(START, maxAge);
  }

  lemma SecondIsMade(maxAge: real)
    requires maxAge >= 0.0
    ensures Step(With([Free("a")], [0], []), CreateSession("b", 0.0), maxAge) == With([Free("a"), Free("b")], TWO, [])
  {
    YoungStay(With([Free("a")], [0], []), maxAge);
    assert [0] + [1] == TWO;
  }

  lemma SendBegins(maxAge: real)
    requires maxAge >= 0.0
    ensures Step(With([Free("a"), Free("b")], TWO, []), StartSend("b", 0.0), maxAge)
            == With([Free("a"), Free("b")], TWO, [SendWait(1, None)])
  {
    YoungStay(With([Free("a"), Free("b")], TWO, []), maxAge);
    FindsSecond([Free("a"), Free("b")]);
  }

  function Busy(): Sys { With([Free("a"), Made("b", Some(0), None)], TWO, [Sending(1, None)]) }

  lemma SendEnters(maxAge: real)
    requires maxAge >= 0.0
    ensures Step(With([Free("a"), Free("b")], TWO, [SendWait(1, None)]), Advance(0, 0.0, true), maxAge) == Busy()
  {
    var s := With([Free("a"), Free("b")], TWO, [SendWait(1, None)]);
    AdvanceIsMove(s, 0, 0.0, true, maxAge);
    assert Goto(s, 0, Sending(1, None)).book.handles == Busy().book.handles;
    assert Goto(s, 0, Sending(1, None)) == Busy();
    YoungStay(Busy(), maxAge);
    FindsSecond(Busy().book.handles);
  }

  /** Sessions "a" and "b", and a send under way on "b". */
  lemma BusyReached(maxAge: real)
    requires maxAge >= 0.0
    ensures Reachable(Busy(), maxAge)
  {
    assert Reachable(START, maxAge) by { assert START == Run(START, [], maxAge); }
    FirstIsMade(maxAge);
    Reach(START, CreateSession("a", 0.0), With([Free("a")], [0], []), maxAge);
    SecondIsMade(maxAge);
    Reach(With([Free("a")], [0], []), CreateSession("b", 0.0), With([Free("a"), Free("b")], TWO, []), maxAge);
    SendBegins(maxAge);
    Reach(With([Free("a"), Free("b")], TWO, []), StartSend("b", 0.0), With([Free("a"), Free("b")], TWO, [SendWait(1, None)]), maxAge);
    SendEnters(maxAge);
    Reach(With([Free("a"), Free("b")], TWO, [SendWait(1, None)]), Advance(0, 0.0, true), Busy(), maxAge);
  }

  function Begun(): Sys { With(Busy().book.handles, TWO, [Sending(1, None), ResetWait(0, [1], false, [])]) }

  lemma ResetBegins(maxAge: real)
    requires maxAge >= 0.0
    ensures Step(Busy(), StartResetAll(0.0), maxAge) == Begun()
  {
    YoungStay(Busy(), maxAge);
    assert TWO[1..] == [1];
  }

  /** The full reset holds the workflow lock of "a" and is about to detach it. */
  function Holding(): Sys {
    With([Made("a", None, Some(1)), Made("b", Some(0), None)], TWO, [Sending(1, None), ResetSendWait(0, [1], false, [])])
  }

  lemma ResetLocks(maxAge: real)
    ensures Step(Begun(), Advance(1, 0.0, true), maxAge) == Holding()
  {
    AdvanceIsMove(Begun(), 1, 0.0, true, maxAge);
    assert Goto(Begun(), 1, ResetSendWait(0, [1], false, [])).book.handles == Holding().book.handles;
  }

  lemma HoldingReached(maxAge: real)
    requires maxAge >= 0.0
    ensures Reachable(Holding(), maxAge)
  {
    BusyReached(maxAge);
    ResetBegins(maxAge);
    Reach(Busy(), StartResetAll(0.0), Begun(), maxAge);
    ResetLocks(maxAge);
    Reach(Begun(), Advance(1, 0.0, true), Holding(), maxAge);
  }

  function RemovedFirst(): seq<Handle> { [Free("a").(life := Removed), Made("b", Some(0), None)] }

  /** "a" is detached, and the reset goes on to "b". */
  function Halfway(): Sys { With(RemovedFirst(), [1], [Sending(1, None), ResetWait(1, [], false, [0])]) }

  lemma FirstIsDetached(maxAge: real)
    ensures Step(Holding(), Advance(1, 0.0, true), maxAge) == Halfway()
  {
    var s := Holding();
    AdvanceIsMove(s, 1, 0.0, true, maxAge);
    FindsSecond(s.book.handles);
    assert Without(TWO, 0) == [1] by { assert TWO[1..] == [1] && [1][1..] == []; }
    assert Following([1], [0]) == ResetWait(1, [], false, [0]) by { assert [1][1..] == []; }
    var n := Collect(s, 1);
    assert n.book.handles == RemovedFirst();
    assert [] + [0] == [0];
    assert n.tasks == Halfway().tasks;
  }

  lemma ResetIsCancelled(maxAge: real)
    ensures Step(Halfway(), Cancel(1), maxAge) == With(RemovedFirst(), [1], [Sending(1, None), Done(Failed)]).(dropped := [0])
  {
    var s := Halfway();
    assert Goto(s.(dropped := [0]), 1, Done(Failed)).book.handles == RemovedFirst();
    assert s.dropped + TakenOf(s.tasks[1]) == [0];
  }

  /**
   Such an input: a full reset has detached session "a" and goes on to the busy session
   "b" when it is cancelled; handle 0 is then dropped, and nothing ever returns it.
   */
  lemma CancelledResetDrops(maxAge: real) returns (t: Sys)
    requires maxAge >= 0.0
    ensures Reachable(Halfway(), maxAge) && Reachable(t, maxAge) && t == Step(Halfway(), Cancel(1), maxAge)
    ensures t.book.live == [1] && t.dropped == [0] && t.detached == [] && t.lost == [] && t.tasks[1..] == [Done(Failed)]
    ensures forall events :: 0 !in Run(t, events, maxAge).detached
  {
    HoldingReached(maxAge);
    FirstIsDetached(maxAge);
    Reach(Holding(), Advance(1, 0.0, true), Halfway(), maxAge);
    ResetIsCancelled(maxAge);
    t := With(RemovedFirst(), [1], [Sending(1, None), Done(Failed)]).(dropped := [0]);
    Reach(Halfway(), Cancel(1), t, maxAge);
    ReachableHolds(t, maxAge);
    forall events ensures 0 !in Run(t, events, maxAge).detached { GoneIsNotHandedOut(t, events, maxAge, 0); }
  }

  /** And the other: store_session writes over the live id "a". */
  lemma OverwrittenIsLost(maxAge: real) returns (t: Sys)
    requires maxAge >= 0.0
    ensures Reachable(t, maxAge) && t.book.live == [1] && t.lost == [0] && t.dropped == [] && t.detached == []
    ensures forall events :: 0 !in Run(t, events, maxAge).detached
  {
    var s := With([Free("a")], [0], []);
    assert Reachable(START, maxAge) by { assert START == Run(START, [], maxAge); }
    FirstIsMade(maxAge);
    Reach(START, CreateSession("a", 0.0), s, maxAge);
    t := Step(s, StoreSession("a", 0.0), maxAge);
    Reach(s, StoreSession("a", 0.0), t, maxAge);
    assert Store(s.book, "a", 0.0).out == [0] && [0][0 := 1] == [1];
    ReachableHolds(t, maxAge);
    forall events ensures 0 !in Run(t, events, maxAge).detached { GoneIsNotHandedOut(t, events, maxAge, 0); }
  }
}
