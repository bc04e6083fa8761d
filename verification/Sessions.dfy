/**
 Local session handles (src/session_manager.py) and the two locks every handle carries.

 A handle is named by its position in `handles`; `live` is the dictionary of sessions in
 insertion order, `expired` the queue of handles that aged out and wait to be drained.
 Every section under the service lock is a function on `Book` and a method of the class;
 what it takes out of the service is its second result.
 */
module Sessions {
  import opened Common

  type Id = string

  datatype Life = Active | Expired | Removed

  /** `send` and `workflow` are the tasks that hold the handle's two locks. */
  datatype Handle = Handle(id: Id, created: real, life: Life, invalidated: bool, send: Option<nat>, workflow: Option<nat>)

  datatype Book = Book(handles: seq<Handle>, live: seq<nat>, expired: seq<nat>)

  datatype Taken = Taken(book: Book, out: seq<nat>)

  // ---------------------------------------------------------------- sections under the service lock

  function Find(hs: seq<Handle>, live: seq<nat>, id: Id): (found: Option<nat>)
    ensures found.Some? ==> found.value in live && found.value < |hs| && hs[found.value].id == id
    ensures found.None? ==> forall h :: h in live && h < |hs| ==> hs[h].id != id
  {
    if live == [] then None
    else if live[0] < |hs| && hs[live[0]].id == id then Some(live[0])
    else Find(hs, live[1..], id)
  }

  predicate Ages(hs: seq<Handle>, h: nat, now: real, maxAge: real) {
    h < |hs| && now - hs[h].created > maxAge && hs[h].send.None? && hs[h].workflow.None?
  }

  function Pick(hs: seq<Handle>, live: seq<nat>, now: real, maxAge: real, aged: bool): (some: seq<nat>)
    ensures forall h :: h in some <==> h in live && (Ages(hs, h, now, maxAge) <==> aged)
  {
    if live == [] then []
    else (if Ages(hs, live[0], now, maxAge) <==> aged then [live[0]] else []) + Pick(hs, live[1..], now, maxAge, aged)
  }

  function Mark(hs: seq<Handle>, out: seq<nat>, life: Life, invalidate: bool): (marked: seq<Handle>)
    ensures |marked| == |hs|
    ensures forall h :: 0 <= h < |hs| ==>
              marked[h] == if h in out then hs[h].(life := life, invalidated := hs[h].invalidated || invalidate) else hs[h]
  {
    seq(|hs|, h requires 0 <= h < |hs| =>
      if h in out then hs[h].(life := life, invalidated := hs[h].invalidated || invalidate) else hs[h])
  }

  function Without(xs: seq<nat>, h: nat): (rest: seq<nat>)
    ensures forall x :: x in rest <==> x in xs && x != h
  {
    if xs == [] then [] else (if xs[0] == h then [] else [xs[0]]) + Without(xs[1..], h)
  }

  function Clean(b: Book, now: real, maxAge: real): Book {
    var gone := Pick(b.handles, b.live, now, maxAge, true);
    Book(Mark(b.handles, gone, Expired, false), Pick(b.handles, b.live, now, maxAge, false), b.expired + gone)
  }

  function Add(b: Book, id: Id, now: real): Book {
    b.(handles := b.handles + [Handle(id, now, Active, false, None, None)], live := b.live + [|b.handles|])
  }

  /** create_session with the id that its generator settled on. */
  function Create(b: Book, id: Id, now: real, maxAge: real): Book {
    Add(Clean(b, now, maxAge), id, now)
  }

  function Position(live: seq<nat>, h: nat): (i: nat)
    requires h in live
    ensures i < |live| && live[i] == h
  {
    if live[0] == h then 0 else 1 + Position(live[1..], h)
  }

  /** store_session writes the id given to it, over whatever it names. */
  function Store(b: Book, id: Id, now: real): Taken {
    var was := Find(b.handles, b.live, id);
    if was.None? then Taken(Add(b, id, now), [])
    else Taken(Add(b, id, now).(live := b.live[Position(b.live, was.value) := |b.handles|]), [was.value])
  }

  function Pop(b: Book, h: nat): Taken {
    Taken(b.(live := Without(b.live, h), handles := Mark(b.handles, [h], Removed, false)), [h])
  }

  function ResetOne(b: Book, id: Id, now: real, maxAge: real): Taken {
    var c := Clean(b, now, maxAge);
    var found := Find(c.handles, c.live, id);
    if found.Some? then Pop(c, found.value) else Taken(c, [])
  }

  function ResetAll(b: Book, now: real, maxAge: real): Taken {
    var c := Clean(b, now, maxAge);
    Taken(c.(live := [], handles := Mark(c.handles, c.live, Removed, false)), c.live)
  }

  function Invalidate(b: Book): Taken {
    var out := b.live + b.expired;
    Taken(Book(Mark(b.handles, out, Removed, true), [], []), out)
  }

  function Drain(b: Book): Taken {
    Taken(b.(expired := []), b.expired)
  }

  predicate Current(b: Book, h: nat) {
    h < |b.handles| && Find(b.handles, b.live, b.handles[h].id) == Some(h)
  }

  /** What an asynchronous reset does once it holds both locks of `h`. */
  function RemoveIfSame(b: Book, h: nat): Taken {
    if Current(b, h) then Pop(b, h) else Taken(b, [])
  }

  class SessionService {
    const maxAge: real
    var handles: seq<Handle>
    var live: seq<nat>
    var expired: seq<nat>

    ghost function State(): Book
      reads this
    {
      Book(handles, live, expired)
    }

    constructor (maxAge: real)
      ensures State() == Book([], [], []) && this.maxAge == maxAge
    {
      this.maxAge := maxAge;
      handles, live, expired := [], [], [];
    }

    method CleanExpired(now: real)
      modifies this
      ensures State() == Clean(old(State()), now, maxAge)
    {
      var kept, gone := [], [];
      var i := |live|;
      while i > 0
        invariant 0 <= i <= |live|
        invariant kept == Pick(handles, live[i..], now, maxAge, false)
        invariant gone == Pick(handles, live[i..], now, maxAge, true)
        invariant State() == old(State())
      {
        i := i - 1;
        assert live[i..] == [live[i]] + live[i + 1..];
        if Ages(handles, live[i], now, maxAge) {
          gone := [live[i]] + gone;
        } else {
          kept := [live[i]] + kept;
        }
      }
      assert live[0..] == live;
      handles := Mark(handles, gone, Expired, false);
      live, expired := kept, expired + gone;
    }

    method GetSession(id: Id, now: real) returns (found: Option<nat>)
      modifies this
      ensures State() == Clean(old(State()), now, maxAge)
      ensures found == Find(handles, live, id)
    {
      CleanExpired(now);
      found := Find(handles, live, id);
    }

    /** The id generator retries until the id names no live session. */
    method CreateSession(candidates: seq<Id>, now: real) returns (made: Option<nat>)
      modifies this
      ensures made.None? ==>
                && State() == Clean(old(State()), now, maxAge)
                && forall c :: c in candidates ==> Find(handles, live, c).Some?
      ensures made.Some? ==> exists c :: c in candidates && State() == Create(old(State()), c, now, maxAge)
                                         && Find(Clean(old(State()), now, maxAge).handles, Clean(old(State()), now, maxAge).live, c).None?
    {
      CleanExpired(now);
      for i := 0 to |candidates|
        invariant State() == Clean(old(State()), now, maxAge)
        invariant forall c :: c in candidates[..i] ==> Find(handles, live, c).Some?
      {
        if Find(handles, live, candidates[i]).None? {
          made := Some(|handles|);
          live := live + [|handles|];
          handles := handles + [Handle(candidates[i], now, Active, false, None, None)];
          return;
        }
      }
      assert candidates[..|candidates|] == candidates;
      made := None;
    }

    method StoreSession(id: Id, now: real)
      modifies this
      ensures State() == Store(old(State()), id, now).book
    {
      var was := Find(handles, live, id);
      if was.None? {
        live := live + [|handles|];
      } else {
        live := live[Position(live, was.value) := |handles|];
      }
      handles := handles + [Handle(id, now, Active, false, None, None)];
    }

    method ResetOneNow(id: Id, now: real) returns (out: seq<nat>)
      modifies this
      ensures Taken(State(), out) == ResetOne(old(State()), id, now, maxAge)
      ensures |out| <= 1
      ensures forall h :: h in out ==>
                && h in old(live) && h < |old(handles)| && old(handles)[h].id == id
                && h !in live && h < |handles| && handles[h].life.Removed?
      ensures (exists h :: h in old(live) && h < |old(handles)| && old(handles)[h].id == id && !Ages(old(handles), h, now, maxAge))
              <==> |out| == 1
    {
      var found := GetSession(id, now);
      if found.None? {
        return [];
      }
      live := Without(live, found.value);
      handles := Mark(handles, [found.value], Removed, false);
      out := [found.value];
    }

    method ResetAllNow(now: real) returns (out: seq<nat>)
      modifies this
      ensures Taken(State(), out) == ResetAll(old(State()), now, maxAge)
    {
      CleanExpired(now);
      out := live;
      live := [];
      handles := Mark(handles, out, Removed, false);
    }

    method RemoveSame(h: nat) returns (out: seq<nat>)
      requires h < |handles|
      modifies this
      ensures Taken(State(), out) == RemoveIfSame(old(State()), h)
    {
      if Find(handles, live, handles[h].id) != Some(h) {
        return [];
      }
      live := Without(live, h);
      handles := Mark(handles, [h], Removed, false);
      out := [h];
    }

    method InvalidateAuthenticationContext() returns (out: seq<nat>)
      modifies this
      ensures Taken(State(), out) == Invalidate(old(State()))
    {
      out := live + expired;
      live, expired := [], [];
      handles := Mark(handles, out, Removed, true);
    }

    method DrainExpired() returns (out: seq<nat>)
      modifies this
      ensures Taken(State(), out) == Drain(old(State()))
    {
      out := expired;
      expired := [];
    }
  }

  // ---------------------------------------------------------------- tasks

  datatype Result = NotFound | Sent | AuthenticationChanged | Failed | Cleared

  /**
   Where a task stands.  `outer` is the handle whose workflow lock a send runs under;
   `single` tells reset_one_async from reset_all_async, whose snapshot is `h` then `rest`
   and which has detached the handles in `taken` but not returned them yet.
   */
  datatype Pc =
    | SendWait(h: nat, outer: Option<nat>)
    | Sending(h: nat, outer: Option<nat>)
    | WorkflowWait(h: nat)
    | Working(h: nat)
    | Reading(h: nat)
    | ResetWait(h: nat, rest: seq<nat>, single: bool, taken: seq<nat>)
    | ResetSendWait(h: nat, rest: seq<nat>, single: bool, taken: seq<nat>)
    | Done(result: Result)

  /**
   `detached` lists the handles that were handed out, `lost` those that were written over,
   `dropped` those that a cancelled full reset had collected.
   */
  datatype Sys = Sys(book: Book, tasks: seq<Pc>, detached: seq<nat>, lost: seq<nat>, dropped: seq<nat>)

  datatype Event =
    | CreateSession(id: Id, now: real)
    | StoreSession(id: Id, now: real)
    | Lookup(now: real)
    | ResetOneNow(id: Id, now: real)
    | ResetAllNow(now: real)
    | InvalidateAll
    | DrainExpired
    | StartSend(id: Id, now: real)
    | StartWorkflow(id: Id, now: real)
    | StartResetOne(id: Id, now: real)
    | StartResetAll(now: real)
    | Advance(task: nat, now: real, ok: bool)
    | Cancel(task: nat)

  function SendOf(pc: Pc): Option<nat> {
    if pc.Sending? then Some(pc.h) else None
  }

  function WorkflowOf(pc: Pc): Option<nat> {
    match pc
    case SendWait(_, outer) => outer
    case Sending(_, outer) => outer
    case Working(h) => Some(h)
    case Reading(h) => Some(h)
    case ResetSendWait(h, _, _, _) => Some(h)
    case _ => None
  }

  function Passed(lock: Option<nat>, t: nat, held: bool, taken: bool): Option<nat> {
    if taken then Some(t) else if held then None else lock
  }

  /** The handles after task `t` released the locks it holds in `pc`, and took those of `next`. */
  function Relock(hs: seq<Handle>, t: nat, pc: Pc, next: Pc): (locked: seq<Handle>)
    ensures |locked| == |hs|
    ensures forall h :: 0 <= h < |hs| ==>
              && locked[h].send == Passed(hs[h].send, t, SendOf(pc) == Some(h), SendOf(next) == Some(h))
              && locked[h].workflow == Passed(hs[h].workflow, t, WorkflowOf(pc) == Some(h), WorkflowOf(next) == Some(h))
              && locked[h] == hs[h].(send := locked[h].send, workflow := locked[h].workflow)
  {
    seq(|hs|, h requires 0 <= h < |hs| =>
      hs[h].(send := Passed(hs[h].send, t, SendOf(pc) == Some(h), SendOf(next) == Some(h)),
             workflow := Passed(hs[h].workflow, t, WorkflowOf(pc) == Some(h), WorkflowOf(next) == Some(h))))
  }

  function Goto(s: Sys, t: nat, next: Pc): Sys
    requires t < |s.tasks|
  {
    s.(tasks := s.tasks[t := next], book := s.book.(handles := Relock(s.book.handles, t, s.tasks[t], next)))
  }

  predicate SendFree(s: Sys, h: nat) { h < |s.book.handles| && s.book.handles[h].send.None? }
  predicate WorkflowFree(s: Sys, h: nat) { h < |s.book.handles| && s.book.handles[h].workflow.None? }

  function Cleaned(s: Sys, now: real, maxAge: real): Sys {
    s.(book := Clean(s.book, now, maxAge))
  }

  function Take(s: Sys, taken: Taken): Sys {
    s.(book := taken.book, detached := s.detached + taken.out)
  }

  /** `async with data._send_lock`, then the check that the id still names this handle. */
  function EnterSend(s: Sys, t: nat, now: real, maxAge: real): Sys
    requires t < |s.tasks| && s.tasks[t].SendWait?
  {
    var pc := s.tasks[t];
    var locked := Goto(s, t, Sending(pc.h, pc.outer));
    var c := Cleaned(locked, now, maxAge);
    if Current(c.book, pc.h) then c else Goto(c, t, Done(NotFound))
  }

  /** The upstream call is over; a workflow goes on to read its Task back when the send succeeded. */
  function LeaveSend(s: Sys, t: nat, ok: bool): Sys
    requires t < |s.tasks| && s.tasks[t].Sending?
  {
    var pc := s.tasks[t];
    var result := if pc.h < |s.book.handles| && s.book.handles[pc.h].invalidated then AuthenticationChanged
                  else if ok then Sent else Failed;
    Goto(s, t, if result.Sent? && pc.outer.Some? then Reading(pc.outer.value) else Done(result))
  }

  function EnterWorkflow(s: Sys, t: nat, now: real, maxAge: real): Sys
    requires t < |s.tasks| && s.tasks[t].WorkflowWait?
  {
    var c := Cleaned(Goto(s, t, Working(s.tasks[t].h)), now, maxAge);
    if Current(c.book, s.tasks[t].h) then c else Goto(c, t, Done(NotFound))
  }

  /** The send inside a workflow looks the id up once more, and may find another handle. */
  function SendInside(s: Sys, t: nat, now: real, maxAge: real, ok: bool): Sys
    requires t < |s.tasks| && s.tasks[t].Working?
  {
    var h := s.tasks[t].h;
    var c := Cleaned(s, now, maxAge);
    if !ok || h >= |s.book.handles| then Goto(s, t, Done(Failed))
    else
      var found := Find(c.book.handles, c.book.live, s.book.handles[h].id);
      if found.None? then Goto(c, t, Done(NotFound)) else Goto(c, t, SendWait(found.value, Some(h)))
  }

  /** What a full reset collected and has not returned yet. */
  function TakenOf(pc: Pc): seq<nat> {
    if pc.ResetWait? || pc.ResetSendWait? then pc.taken else []
  }

  function Following(rest: seq<nat>, taken: seq<nat>): Pc {
    if rest == [] then Done(Cleared) else ResetWait(rest[0], rest[1..], false, taken)
  }

  /** Both locks are held: only reset_one_async cleans expired sessions first. */
  function Detach(s: Sys, t: nat, now: real, maxAge: real): Sys
    requires t < |s.tasks| && s.tasks[t].ResetSendWait?
  {
    Collect(if s.tasks[t].single then Cleaned(s, now, maxAge) else s, t)
  }

  /** A full reset returns what it collected only after the last session of its snapshot. */
  function Collect(s: Sys, t: nat): Sys
    requires t < |s.tasks| && s.tasks[t].ResetSendWait?
  {
    var pc := s.tasks[t];
    var removed := RemoveIfSame(s.book, pc.h);
    var taken := pc.taken + removed.out;
    var next := if pc.single then Done(if Current(s.book, pc.h) then Cleared else NotFound) else Following(pc.rest, taken);
    Goto(s.(book := removed.book, detached := s.detached + (if next.Done? then taken else [])), t, next)
  }

  function Move(s: Sys, t: nat, now: real, maxAge: real, ok: bool): Sys
    requires t < |s.tasks|
  {
    var pc := s.tasks[t];
    match pc
    case SendWait(h, _) => if SendFree(s, h) then EnterSend(s, t, now, maxAge) else s
    case Sending(_, _) => LeaveSend(s, t, ok)
    case WorkflowWait(h) => if WorkflowFree(s, h) then EnterWorkflow(s, t, now, maxAge) else s
    case Working(_) => SendInside(s, t, now, maxAge, ok)
    case Reading(_) => Goto(s, t, Done(Sent))
    case ResetWait(h, rest, single, taken) => if WorkflowFree(s, h) then Goto(s, t, ResetSendWait(h, rest, single, taken)) else s
    case ResetSendWait(h, _, _, _) => if SendFree(s, h) then Detach(s, t, now, maxAge) else s
    case Done(_) => s
  }

  function Begin(s: Sys, first: Pc): Sys {
    s.(tasks := s.tasks + [first])
  }

  function Opening(s: Sys, id: Id, e: Event): Sys {
    var found := Find(s.book.handles, s.book.live, id);
    if found.None? then s
    else if e.StartSend? then Begin(s, SendWait(found.value, None))
    else if e.StartWorkflow? then Begin(s, WorkflowWait(found.value))
    else Begin(s, ResetWait(found.value, [], true, []))
  }

  function Step(s: Sys, e: Event, maxAge: real): Sys {
    match e
    case CreateSession(id, now) =>
      var c := Cleaned(s, now, maxAge);
      if Find(c.book.handles, c.book.live, id).Some? then c else c.(book := Add(c.book, id, now))
    case StoreSession(id, now) => s.(book := Store(s.book, id, now).book, lost := s.lost + Store(s.book, id, now).out)
    case Lookup(now) => Cleaned(s, now, maxAge)
    case ResetOneNow(id, now) => Take(s, ResetOne(s.book, id, now, maxAge))
    case ResetAllNow(now) => Take(s, ResetAll(s.book, now, maxAge))
    case InvalidateAll => Take(s, Invalidate(s.book))
    case DrainExpired => Take(s, Drain(s.book))
    case StartSend(id, now) => Opening(Cleaned(s, now, maxAge), id, e)
    case StartWorkflow(id, now) => Opening(Cleaned(s, now, maxAge), id, e)
    case StartResetOne(id, now) => Opening(Cleaned(s, now, maxAge), id, e)
    case StartResetAll(now) => var c := Cleaned(s, now, maxAge); Begin(c, Following(c.book.live, []))
    case Advance(t, now, ok) => if t < |s.tasks| then Move(s, t, now, maxAge, ok) else s
    case Cancel(t) =>
      if t >= |s.tasks| || s.tasks[t].Done? then s
      else if s.tasks[t].Sending? then LeaveSend(s, t, false)
      else Goto(s.(dropped := s.dropped + TakenOf(s.tasks[t])), t, Done(Failed))
  }

  function Run(s: Sys, events: seq<Event>, maxAge: real): Sys
    decreases |events|
  {
    if events == [] then s else Step(Run(s, events[..|events| - 1], maxAge), events[|events| - 1], maxAge)
  }

  const START := Sys(Book([], [], []), [], [], [], [])

  ghost predicate Reachable(s: Sys, maxAge: real) {
    exists events :: s == Run(START, events, maxAge)
  }
}
