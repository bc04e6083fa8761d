/**
 One Gemini client at a time (src/client_manager.py): shared initialization, reset and
 retirement.

 `Book` holds the fields the manager's lock protects; each locked section is a function
 on it and a method of the class.  Initialization tasks and retirements stop at every
 `await` and lock boundary; the check of the generation and the start of an attempt are
 one step, since no `await` lies between.  Clients and tasks are named by creation order.
 */
module ClientLifecycle {
  import opened Common

  const ATTEMPTS: nat := 3

  datatype Book = Book(
    client: Option<nat>,
    initialized: bool,
    generation: nat,
    initTask: Option<nat>,
    nextClient: nat)

  datatype Outcome = Returned | ResetError | Raised | Cancelled

  datatype Pc =
    | Queued
    | Attempting
    | Sleeping
    | Publishing
    | Leaving(outcome: Outcome)
    | Ended(result: Outcome)

  /**
   `attempts` counts the calls of client.init that were started.  The client is None when a
   reset came between the caller's get_client and the section that registers the task.
   */
  datatype InitTask = InitTask(client: Option<nat>, generation: nat, attempts: nat, pc: Pc)

  /** `inside` is the init task that runs this retirement itself, if one does. */
  datatype Retirement = Retirement(client: nat, initTask: Option<nat>, inside: Option<nat>, closed: bool)

  datatype Sys = Sys(book: Book, tasks: seq<InitTask>, retirements: seq<Retirement>, publisher: Option<nat>)

  datatype Shared = Retry | Ready(client: Option<nat>) | Join(task: nat) | Create | WrongLoop

  // ---------------------------------------------------------------- locked sections

  function Obtain(b: Book): Book {
    if b.client.Some? then b else b.(client := Some(b.nextClient), nextClient := b.nextClient + 1)
  }

  /** What `initialize` finds under the lock; `busy` says whether the shared task is unfinished. */
  function Look(b: Book, client: Option<nat>, busy: bool, otherLoop: bool): Shared {
    if b.client != client then Retry
    else if b.initialized then Ready(client)
    else if b.initTask.Some? && busy then
      if otherLoop then WrongLoop else Join(b.initTask.value)
    else Create
  }

  predicate Superseded(b: Book, client: Option<nat>, generation: nat) {
    b.generation != generation || b.client != client
  }

  function Publish(b: Book): Book {
    b.(initialized := true)
  }

  function Clear(b: Book, task: nat): Book {
    if b.initTask == Some(task) then b.(initTask := None) else b
  }

  function Detach(b: Book): Book {
    b.(client := None, initialized := false, generation := b.generation + 1, initTask := None)
  }

  class ClientManager {
    var client: Option<nat>
    var initialized: bool
    var generation: nat
    var initTask: Option<nat>
    var nextClient: nat

    ghost function State(): Book
      reads this
    {
      Book(client, initialized, generation, initTask, nextClient)
    }

    constructor ()
      ensures State() == Book(None, false, 0, None, 0)
    {
      client, initialized, generation, initTask, nextClient := None, false, 0, None, 0;
    }

    /** The locked section of `get_client`; the client is read once more after the lock is released. */
    method GetClient()
      modifies this
      ensures State() == Obtain(old(State())) && client.Some?
      ensures old(client).Some? ==> client == old(client) && nextClient == old(nextClient)
      ensures old(client).None? ==> client == Some(old(nextClient)) && nextClient == old(nextClient) + 1
      ensures initialized == old(initialized) && generation == old(generation) && initTask == old(initTask)
    {
      if client == None {
        client := Some(nextClient);
        nextClient := nextClient + 1;
      }
    }

    /** The locked section of `initialize`; a new task is registered under the id it is given. */
    method ShareInitialization(seen: Option<nat>, busy: bool, otherLoop: bool, newTask: nat) returns (answer: Shared)
      modifies this
      ensures answer == Look(old(State()), seen, busy, otherLoop)
      ensures State() == if answer.Create? then old(State()).(initTask := Some(newTask)) else old(State())
      ensures old(client) != seen ==> answer == Retry
      ensures old(client) == seen && old(initialized) ==> answer == Ready(seen)
      ensures old(client) == seen && !old(initialized) && old(initTask).Some? && busy ==>
                answer == if otherLoop then WrongLoop else Join(old(initTask).value)
      ensures old(client) == seen && !old(initialized) && (old(initTask).None? || !busy) ==> answer == Create
    {
      if client != seen {
        return Retry;
      }
      if initialized {
        return Ready(seen);
      }
      if initTask != None && busy {
        if otherLoop {
          return WrongLoop;
        }
        return Join(initTask.value);
      }
      initTask := Some(newTask);
      return Create;
    }

    /** Publication after client.init returned; a stale task publishes nothing. */
    method PublishInitialized(mine: Option<nat>, at: nat) returns (published: bool)
      modifies this
      ensures published <==> !Superseded(old(State()), mine, at)
      ensures State() == if published then Publish(old(State())) else old(State())
      ensures published <==> old(generation) == at && old(client) == mine
      ensures initialized == (published || old(initialized)) && client == old(client) && generation == old(generation)
    {
      if generation != at || client != mine {
        return false;
      }
      initialized := true;
      return true;
    }

    method ForgetTask(task: nat)
      modifies this
      ensures State() == Clear(old(State()), task)
      ensures initTask == if old(initTask) == Some(task) then None else old(initTask)
      ensures client == old(client) && initialized == old(initialized) && generation == old(generation)
    {
      if initTask == Some(task) {
        initTask := None;
      }
    }

    method DetachCurrentClient() returns (detached: Option<nat>, running: Option<nat>)
      modifies this
      ensures State() == Detach(old(State()))
      ensures detached == old(client) && running == old(initTask)
      ensures client == None && !initialized && initTask == None && generation == old(generation) + 1 && nextClient == old(nextClient)
    {
      detached, running := client, initTask;
      generation := generation + 1;
      client, initialized, initTask := None, false, None;
    }
  }

  // ---------------------------------------------------------------- runs

  datatype Event =
    | GetClient
    | Initialize(client: Option<nat>, otherLoop: bool)
    | Reset(inside: Option<nat>)
    | StartTask(task: nat)
    | AttemptReturned(task: nat)
    | AttemptFailed(task: nat, transient: bool)
    | WakeTask(task: nat)
    | PublishTask(task: nat)
    | CancelTask(task: nat)
    | LeaveTask(task: nat)
    | Close(retirement: nat)

  predicate Unfinished(t: InitTask) { !t.pc.Ended? }

  predicate Stale(s: Sys, t: InitTask) { Superseded(s.book, t.client, t.generation) }

  function SetPc(s: Sys, id: nat, pc: Pc): Sys
    requires id < |s.tasks|
  {
    s.(tasks := s.tasks[id := s.tasks[id].(pc := pc)])
  }

  /** The check before every attempt, and the start of that attempt. */
  function TryAttempt(s: Sys, id: nat): Sys
    requires id < |s.tasks|
  {
    if Stale(s, s.tasks[id]) || s.tasks[id].client.None? then SetPc(s, id, Leaving(ResetError))
    else s.(tasks := s.tasks[id := s.tasks[id].(pc := Attempting, attempts := s.tasks[id].attempts + 1)])
  }

  /** What `initialize` answers a caller that has seen `client`. */
  function Answer(s: Sys, client: Option<nat>, otherLoop: bool): Shared {
    var busy := s.book.initTask.Some? && s.book.initTask.value < |s.tasks| && Unfinished(s.tasks[s.book.initTask.value]);
    Look(s.book, client, busy, otherLoop)
  }

  function Share(s: Sys, client: Option<nat>, otherLoop: bool): Sys {
    if Answer(s, client, otherLoop).Create?
    then s.(book := s.book.(initTask := Some(|s.tasks|)), tasks := s.tasks + [InitTask(client, s.book.generation, 0, Queued)])
    else s
  }

  function ResetClient(s: Sys, inside: Option<nat>): Sys {
    var detached := s.(book := Detach(s.book), publisher := None);
    if s.book.client.None? then detached
    else detached.(retirements := s.retirements + [Retirement(s.book.client.value, s.book.initTask, inside, false)])
  }

  /** A retirement waits for its init task, except when it runs inside that very task. */
  predicate MayClose(s: Sys, r: Retirement) {
    r.initTask.None? || r.initTask == r.inside
    || (r.initTask.value < |s.tasks| && s.tasks[r.initTask.value].pc.Ended?)
  }

  function TaskStep(s: Sys, e: Event): Sys
    requires e.StartTask? || e.AttemptReturned? || e.AttemptFailed? || e.WakeTask? || e.PublishTask? || e.CancelTask? || e.LeaveTask?
  {
    if e.task >= |s.tasks| then s
    else
      var t := s.tasks[e.task];
      match e
      case StartTask(id) => if t.pc.Queued? then TryAttempt(s, id) else s
      case AttemptReturned(id) => if t.pc.Attempting? then SetPc(s, id, Publishing) else s
      case AttemptFailed(id, transient) =>
        if !t.pc.Attempting? then s
        else if t.attempts == ATTEMPTS || !transient then SetPc(s, id, Leaving(Raised))
        else SetPc(s, id, Sleeping)
      case WakeTask(id) => if t.pc.Sleeping? then TryAttempt(s, id) else s
      case PublishTask(id) =>
        if !t.pc.Publishing? then s
        else if Stale(s, t) then SetPc(s, id, Leaving(ResetError))
        else SetPc(s, id, Leaving(Returned)).(book := Publish(s.book), publisher := Some(id))
      case CancelTask(id) =>
        if t.pc.Queued? then SetPc(s, id, Ended(Cancelled))
        else if t.pc.Attempting? || t.pc.Sleeping? then SetPc(s, id, Leaving(if Stale(s, t) then ResetError else Cancelled))
        else s
      case LeaveTask(id) =>
        if t.pc.Leaving? then SetPc(s, id, Ended(t.pc.outcome)).(book := Clear(s.book, id)) else s
  }

  function Step(s: Sys, e: Event): Sys {
    match e
    case GetClient => s.(book := Obtain(s.book))
    case Initialize(client, otherLoop) => Share(s, client, otherLoop)
    case Reset(inside) => ResetClient(s, inside)
    case Close(id) =>
      if id < |s.retirements| && !s.retirements[id].closed && MayClose(s, s.retirements[id])
      then s.(retirements := s.retirements[id := s.retirements[id].(closed := true)])
      else s
    case _ => TaskStep(s, e)
  }

  function Run(s: Sys, events: seq<Event>): Sys
    decreases |events|
  {
    if events == [] then s else Step(Run(s, events[..|events| - 1]), events[|events| - 1])
  }

  const START := Sys(Book(None, false, 0, None, 0), [], [], None)

  ghost predicate Reachable(s: Sys) {
    exists events :: s == Run(START, events)
  }

  // ---------------------------------------------------------------- invariant

  ghost predicate TasksOk(s: Sys) {
    && (forall i :: 0 <= i < |s.tasks| ==> TaskOk(s, i, s.tasks[i]))
    && (forall i, j :: 0 <= i < j < |s.tasks| ==> Apart(s.tasks[i], s.tasks[j]))
  }

  predicate Apart(a: InitTask, b: InitTask) {
    a.generation == b.generation ==> !Unfinished(a) || !Unfinished(b)
  }

  predicate TaskOk(s: Sys, id: nat, t: InitTask) {
    && t.generation <= s.book.generation
    && (if t.client.None? then t.attempts == 0 && (t.pc == Queued || t.pc == Leaving(ResetError) || t.pc == Ended(ResetError) || t.pc == Ended(Cancelled))
        else t.client.value < s.book.nextClient && (t.generation == s.book.generation <==> s.book.client == t.client))
    && t.attempts <= ATTEMPTS && (t.pc.Queued? ==> t.attempts == 0) && (t.pc.Sleeping? ==> t.attempts < ATTEMPTS)
    && (t.pc.Attempting? || t.pc.Sleeping? || t.pc.Publishing? ==> t.attempts > 0)
    && (t.generation == s.book.generation && Unfinished(t) ==> s.book.initTask == Some(id))
  }

  predicate PublisherOk(s: Sys) {
    && (s.book.initialized <==> s.publisher.Some?)
    && (s.publisher.Some? ==>
          && s.publisher.value < |s.tasks|
          && var t := s.tasks[s.publisher.value];
             t.generation == s.book.generation && (t.pc == Leaving(Returned) || t.pc == Ended(Returned)))
    && (s.book.client.None? ==> !s.book.initialized)
  }

  ghost predicate RetirementsOk(s: Sys) {
    && |s.retirements| + (if s.book.client.Some? then 1 else 0) == s.book.nextClient
    && (forall i :: 0 <= i < |s.retirements| ==> s.retirements[i].client == i && RetirementOk(s, s.retirements[i]))
    && (s.book.client.Some? ==> s.book.client.value == |s.retirements|)
  }

  ghost predicate RetirementOk(s: Sys, r: Retirement) {
    && (forall i :: 0 <= i < |s.tasks| && s.tasks[i].client == Some(r.client) ==>
          s.tasks[i].generation < s.book.generation && (Unfinished(s.tasks[i]) ==> r.initTask == Some(i)))
    && (r.closed ==> MayClose(s, r))
  }

  ghost predicate Inv(s: Sys) {
    TasksOk(s) && PublisherOk(s) && RetirementsOk(s)
  }

  lemma TaskStepTasks(s: Sys, e: Event)
    requires Inv(s) && TaskStep.requires(s, e)
    ensures TasksOk(TaskStep(s, e))
  {
    var t := TaskStep(s, e);
    if e.task < |s.tasks| {
      assert TaskOk(s, e.task, s.tasks[e.task]);
      forall i | 0 <= i < |t.tasks| ensures TaskOk(t, i, t.tasks[i]) { assert TaskOk(s, i, s.tasks[i]); }
      forall i, j | 0 <= i < j < |t.tasks| ensures Apart(t.tasks[i], t.tasks[j]) { assert Apart(s.tasks[i], s.tasks[j]); }
    }
  }

  lemma TaskStepPublisher(s: Sys, e: Event)
    requires Inv(s) && TaskStep.requires(s, e)
    ensures PublisherOk(TaskStep(s, e))
  {
    if e.task < |s.tasks| {
      assert TaskOk(s, e.task, s.tasks[e.task]);
    }
  }

  /** A step of a task neither detaches a client nor reopens or renames a task. */
  predicate OnlyTasks(s: Sys, t: Sys) {
    && t.retirements == s.retirements && |t.tasks| == |s.tasks|
    && t.book.client == s.book.client && t.book.nextClient == s.book.nextClient && t.book.generation == s.book.generation
    && forall i :: 0 <= i < |s.tasks| ==> Continues(s.tasks[i], t.tasks[i])
  }

  predicate Continues(o: InitTask, n: InitTask) {
    n.client == o.client && n.generation == o.generation && (Unfinished(n) ==> Unfinished(o))
  }

  lemma TaskStepMoves(s: Sys, e: Event)
    requires TaskStep.requires(s, e)
    ensures OnlyTasks(s, TaskStep(s, e))
  {
  }

  lemma TaskStepRetirements(s: Sys, e: Event)
    requires Inv(s) && TaskStep.requires(s, e)
    ensures RetirementsOk(TaskStep(s, e))
  {
    var t := TaskStep(s, e);
    TaskStepMoves(s, e);
    forall i | 0 <= i < |t.retirements| ensures RetirementOk(t, t.retirements[i]) {
      var r := s.retirements[i];
      assert RetirementOk(s, r);
      forall j | 0 <= j < |t.tasks| && t.tasks[j].client == Some(r.client)
        ensures t.tasks[j].generation < t.book.generation && (Unfinished(t.tasks[j]) ==> r.initTask == Some(j))
      {
        assert Continues(s.tasks[j], t.tasks[j]);
      }
    }
  }

  lemma ShareKeeps(s: Sys, client: Option<nat>, otherLoop: bool)
    requires Inv(s)
    ensures Inv(Share(s, client, otherLoop))
  {
    var t := Share(s, client, otherLoop);
    if t != s {
      forall i | 0 <= i < |t.tasks| ensures TaskOk(t, i, t.tasks[i]) {
        if i < |s.tasks| { assert TaskOk(s, i, s.tasks[i]); }
      }
      forall i, j | 0 <= i < j < |t.tasks| ensures Apart(t.tasks[i], t.tasks[j]) {
        assert TaskOk(s, i, s.tasks[i]);
        if j < |s.tasks| { assert Apart(s.tasks[i], s.tasks[j]); }
      }
      forall i | 0 <= i < |t.retirements| ensures t.retirements[i].client == i && RetirementOk(t, t.retirements[i]) {
        assert RetirementOk(s, s.retirements[i]);
      }
    }
  }

  lemma ResetKeeps(s: Sys, inside: Option<nat>)
    requires Inv(s)
    ensures Inv(ResetClient(s, inside))
  {
    var t := ResetClient(s, inside);
    forall i | 0 <= i < |t.tasks| ensures TaskOk(t, i, t.tasks[i]) { assert TaskOk(s, i, s.tasks[i]); }
    forall i | 0 <= i < |t.retirements| ensures t.retirements[i].client == i && RetirementOk(t, t.retirements[i]) {
      if i < |s.retirements| {
        assert RetirementOk(s, s.retirements[i]);
      } else {
        forall j | 0 <= j < |s.tasks| && s.tasks[j].client == Some(i) && Unfinished(s.tasks[j]) ensures s.book.initTask == Some(j) {
          assert TaskOk(s, j, s.tasks[j]);
        }
        forall j | 0 <= j < |t.tasks| ensures t.tasks[j].generation < t.book.generation { assert TaskOk(s, j, s.tasks[j]); }
      }
    }
  }

  lemma OtherKeeps(s: Sys, e: Event)
    requires Inv(s) && (e.GetClient? || e.Close?)
    ensures Inv(Step(s, e))
  {
    var t := Step(s, e);
    forall i | 0 <= i < |t.tasks| ensures TaskOk(t, i, t.tasks[i]) { assert TaskOk(s, i, s.tasks[i]); }
    forall i | 0 <= i < |t.retirements| ensures t.retirements[i].client == i && RetirementOk(t, t.retirements[i]) {
      assert RetirementOk(s, s.retirements[i]);
    }
  }

  lemma StepKeeps(s: Sys, e: Event)
    requires Inv(s)
    ensures Inv(Step(s, e))
  {
    match e
    case GetClient => OtherKeeps(s, e);
    case Close(_) => OtherKeeps(s, e);
    case Initialize(client, otherLoop) => ShareKeeps(s, client, otherLoop);
    case Reset(inside) => ResetKeeps(s, inside);
    case _ => TaskStepTasks(s, e); TaskStepPublisher(s, e); TaskStepRetirements(s, e);
  }

  lemma {:induction false} RunKeeps(s: Sys, events: seq<Event>)
    requires Inv(s)
    ensures Inv(Run(s, events))
    decreases |events|
  {
    if events != [] {
      RunKeeps(s, events[..|events| - 1]);
      StepKeeps(Run(s, events[..|events| - 1]), events[|events| - 1]);
    }
  }

  lemma ReachableHolds(s: Sys)
    requires Reachable(s)
    ensures Inv(s)
  {
    var events :| s == Run(START, events);
    RunKeeps(START, events);
  }

  // ---------------------------------------------------------------- publication

  /**
   The manager says it is initialized only when some task of the current generation saw
   client.init of the current client return and published it, and nothing was reset since.
   */
  lemma InitializedMeansCurrent(s: Sys)
    requires Reachable(s) && s.book.initialized
    ensures s.publisher.Some? && s.publisher.value < |s.tasks|
    ensures var t := s.tasks[s.publisher.value];
            && t.client.Some? && s.book.client == t.client && t.generation == s.book.generation
            && (t.pc == Leaving(Returned) || t.pc == Ended(Returned)) && t.attempts > 0
  {
    ReachableHolds(s);
    assert TaskOk(s, s.publisher.value, s.tasks[s.publisher.value]);
    PublishedAfterAttempt(s);
  }

  lemma PublishedAfterAttempt(s: Sys)
    requires Reachable(s)
    ensures forall i :: 0 <= i < |s.tasks| ==> WorkedFor(s.tasks[i])
  {
    var events :| s == Run(START, events);
    WorkedForRun(events);
  }

  /** A task returns its client only after it called client.init. */
  predicate WorkedFor(t: InitTask) {
    t.pc == Leaving(Returned) || t.pc == Ended(Returned) || t.pc.Publishing? || t.pc.Attempting? ==> t.attempts > 0
  }

  lemma {:induction false} WorkedForRun(events: seq<Event>)
    ensures forall i :: 0 <= i < |Run(START, events).tasks| ==> WorkedFor(Run(START, events).tasks[i])
    decreases |events|
  {
    if events != [] {
      WorkedForRun(events[..|events| - 1]);
    }
  }

  // ---------------------------------------------------------------- what initialize answers

  /** Some task of the current generation is unfinished. */
  ghost predicate IsUnderWay(s: Sys, id: nat) {
    id < |s.tasks| && Unfinished(s.tasks[id]) && s.tasks[id].generation == s.book.generation
  }

  ghost predicate Underway(s: Sys) { exists i: nat :: IsUnderWay(s, i) }

  /** The registered task, if unfinished, is the one unfinished task of the generation. */
  lemma RegisteredExactly(s: Sys, id: nat)
    requires Reachable(s) && IsUnderWay(s, id)
    ensures s.book.initTask == Some(id)
  {
    ReachableHolds(s);
    assert TaskOk(s, id, s.tasks[id]);
  }

  /**
   In every reachable state `initialize` answers a caller that has seen the current client:
   that client once it is initialized; the unfinished task of the generation, or a refusal
   on another event loop; and without either, that a task is to be made.  A caller that has
   seen another client is sent back.
   */
  lemma InitializeAnswers(s: Sys, client: Option<nat>, otherLoop: bool, id: nat)
    requires Reachable(s)
    ensures client != s.book.client ==> Answer(s, client, otherLoop) == Retry
    ensures client == s.book.client && s.book.initialized ==> Answer(s, client, otherLoop) == Ready(client) && client.Some?
    ensures client == s.book.client && !s.book.initialized && IsUnderWay(s, id) ==>
              Answer(s, client, otherLoop) == if otherLoop then WrongLoop else Join(id)
    ensures client == s.book.client && !s.book.initialized && !Underway(s) ==> Answer(s, client, otherLoop) == Create
  {
    ReachableHolds(s);
    RegisteredIsCurrent(s);
    if IsUnderWay(s, id) { RegisteredExactly(s, id); }
    if s.book.initTask.Some? && Unfinished(s.tasks[s.book.initTask.value]) { assert IsUnderWay(s, s.book.initTask.value); }
  }

  /** It registers a task, for the client and generation it has seen, exactly then. */
  lemma InitializeRegisters(s: Sys, client: Option<nat>, otherLoop: bool)
    requires Reachable(s)
    ensures Step(s, Initialize(client, otherLoop)) ==
            if client == s.book.client && !s.book.initialized && !Underway(s)
            then s.(book := s.book.(initTask := Some(|s.tasks|)), tasks := s.tasks + [InitTask(client, s.book.generation, 0, Queued)])
            else s
  {
    if i: nat :| IsUnderWay(s, i) { InitializeAnswers(s, client, otherLoop, i); } else { InitializeAnswers(s, client, otherLoop, 0); }
  }

  /** The registered task belongs to the current generation. */
  lemma RegisteredIsCurrent(s: Sys)
    requires Reachable(s)
    ensures s.book.initTask.Some? ==> s.book.initTask.value < |s.tasks| && s.tasks[s.book.initTask.value].generation == s.book.generation
  {
    var events :| s == Run(START, events);
    RegisteredRun(events);
  }

  lemma {:induction false} RegisteredRun(events: seq<Event>)
    ensures var s := Run(START, events);
            s.book.initTask.Some? ==> s.book.initTask.value < |s.tasks| && s.tasks[s.book.initTask.value].generation == s.book.generation
    decreases |events|
  {
    if events != [] {
      RegisteredRun(events[..|events| - 1]);
    }
  }

  /** Once published, every other task of the generation has ended, and the publisher is leaving. */
  ghost predicate Settled(s: Sys) {
    s.book.initialized ==>
      && s.publisher.Some?
      && forall i :: 0 <= i < |s.tasks| && s.tasks[i].generation == s.book.generation ==>
           s.tasks[i].pc.Ended? || (s.publisher == Some(i) && s.tasks[i].pc.Leaving?)
  }

  lemma SettledStep(s: Sys, e: Event)
    requires Inv(s) && Settled(s)
    ensures Settled(Step(s, e))
  {
    var t := Step(s, e);
    if t.book.initialized {
      forall i | 0 <= i < |t.tasks| && t.tasks[i].generation == t.book.generation
        ensures t.tasks[i].pc.Ended? || (t.publisher == Some(i) && t.tasks[i].pc.Leaving?)
      {
        if i < |s.tasks| {
          assert TaskOk(s, i, s.tasks[i]);
          if e.PublishTask? && e.task < |s.tasks| {
            assert TaskOk(s, e.task, s.tasks[e.task]);
            assert i < e.task ==> Apart(s.tasks[i], s.tasks[e.task]);
            assert e.task < i ==> Apart(s.tasks[e.task], s.tasks[i]);
          }
        }
      }
    }
  }

  lemma {:induction false} SettledRun(events: seq<Event>)
    ensures Inv(Run(START, events)) && Settled(Run(START, events))
    decreases |events|
  {
    RunKeeps(START, events);
    if events != [] {
      SettledRun(events[..|events| - 1]);
      SettledStep(Run(START, events[..|events| - 1]), events[|events| - 1]);
    }
  }

  /** No task was registered and no attempt started. */
  predicate SameAttempts(s: Sys, t: Sys) {
    |t.tasks| == |s.tasks| && forall i :: 0 <= i < |s.tasks| ==> t.tasks[i].attempts == s.tasks[i].attempts
  }

  lemma ReadyStep(s: Sys, e: Event)
    requires Inv(s) && Settled(s) && s.book.initialized && !e.Reset?
    ensures var t := Step(s, e);
            SameAttempts(s, t) && t.book.initialized && t.book.client == s.book.client && t.book.generation == s.book.generation
  {
    if e.StartTask? || e.WakeTask? {
      if e.task < |s.tasks| { assert TaskOk(s, e.task, s.tasks[e.task]); }
    }
  }

  /**
   Once a task has published, then over any run without a reset the same client stays
   initialized, no further task is registered and no further attempt is ever started.
   */
  lemma {:induction false} ReadyForGood(s: Sys, events: seq<Event>)
    requires Reachable(s) && s.book.initialized
    requires forall i :: 0 <= i < |events| ==> !events[i].Reset?
    ensures var t := Run(s, events);
            && Inv(t) && Settled(t)
            && t.book.initialized && t.book.client == s.book.client && t.book.generation == s.book.generation && SameAttempts(s, t)
    decreases |events|
  {
    var before :| s == Run(START, before);
    SettledRun(before);
    if events != [] {
      var less, e := events[..|events| - 1], events[|events| - 1];
      forall i | 0 <= i < |less| ensures !less[i].Reset? { assert less[i] == events[i]; }
      ReadyForGood(s, less);
      ReadyStep(Run(s, less), e);
      StepKeeps(Run(s, less), e);
      SettledStep(Run(s, less), e);
    }
  }

  // ---------------------------------------------------------------- one initialization, uninterrupted

  /** Only task `id` and its position have changed. */
  predicate Moved(s: Sys, t: Sys, id: nat, pc: Pc, attempts: nat)
    requires id < |s.tasks|
  {
    t == s.(tasks := s.tasks[id := s.tasks[id].(pc := pc, attempts := attempts)])
  }

  /** Task `id` may work: its client is the current one, in the current generation. */
  predicate MayWork(s: Sys, id: nat) {
    && id < |s.tasks| && s.tasks[id].client.Some? && s.book.client == s.tasks[id].client && s.book.generation == s.tasks[id].generation
  }

  /** An attempt starts while the client is current; otherwise the task leaves with the reset error. */
  lemma AttemptStarts(s: Sys, id: nat)
    requires id < |s.tasks| && (s.tasks[id].pc.Queued? || s.tasks[id].pc.Sleeping?)
    ensures var t := Step(s, if s.tasks[id].pc.Queued? then StartTask(id) else WakeTask(id));
            if MayWork(s, id) then Moved(s, t, id, Attempting, s.tasks[id].attempts + 1)
            else Moved(s, t, id, Leaving(ResetError), s.tasks[id].attempts)
  {
  }

  /** A transient failure is retried up to three attempts in all; any other one is passed on. */
  lemma FailureRetriesExactly(s: Sys, id: nat, transient: bool)
    requires id < |s.tasks| && s.tasks[id].pc.Attempting?
    ensures Moved(s, Step(s, AttemptFailed(id, transient)), id,
                  if transient && s.tasks[id].attempts != 3 then Sleeping else Leaving(Raised), s.tasks[id].attempts)
  {
  }

  /** An attempt that returns publishes its client if that is still current, and the task leaves with it. */
  lemma ReturnPublishesExactly(s: Sys, id: nat)
    requires id < |s.tasks| && s.tasks[id].pc.Attempting?
    ensures var r := Step(s, AttemptReturned(id)); var t := Step(r, PublishTask(id));
            && Moved(s, r, id, Publishing, s.tasks[id].attempts)
            && var current := s.book.generation == s.tasks[id].generation && s.book.client == s.tasks[id].client;
            && t.tasks == s.tasks[id := s.tasks[id].(pc := Leaving(if current then Returned else ResetError))]
            && t.book == s.book.(initialized := s.book.initialized || current)
            && t.publisher == if current then Some(id) else s.publisher
  {
  }

  /** A cancelled task that has begun leaves cancelled, or with the reset error if it was superseded. */
  lemma CancelReports(s: Sys, id: nat)
    requires id < |s.tasks|
    ensures s.tasks[id].pc.Queued? ==> Moved(s, Step(s, CancelTask(id)), id, Ended(Cancelled), s.tasks[id].attempts)
    ensures s.tasks[id].pc.Attempting? || s.tasks[id].pc.Sleeping? ==>
              var current := s.book.generation == s.tasks[id].generation && s.book.client == s.tasks[id].client;
              Moved(s, Step(s, CancelTask(id)), id, Leaving(if current then Cancelled else ResetError), s.tasks[id].attempts)
  {
  }

  /** A retirement closes its client exactly when its init task has ended, or it runs inside that task. */
  lemma CloseExactly(s: Sys, id: nat)
    requires id < |s.retirements| && !s.retirements[id].closed
    ensures var r := s.retirements[id];
            Step(s, Close(id)).retirements == s.retirements[id := r.(closed :=
              r.initTask.None? || r.initTask == r.inside
              || (r.initTask.value < |s.tasks| && s.tasks[r.initTask.value].pc.Ended?))]
  {
    var r := s.retirements[id];
    assert s.retirements[id := r.(closed := false)] == s.retirements;
  }

  /** A reset makes room for a new client at once, and retires the one there was. */
  lemma ResetRetires(s: Sys, inside: Option<nat>)
    ensures var t := Step(s, Reset(inside));
            && t.book.client.None? && !t.book.initialized && t.book.initTask.None? && t.book.generation == s.book.generation + 1
            && t.book.nextClient == s.book.nextClient && t.tasks == s.tasks && t.publisher.None?
            && t.retirements == s.retirements
                 + (if s.book.client.Some? then [Retirement(s.book.client.value, s.book.initTask, inside, false)] else [])
  {
  }

  /** A task that leaves gives its waiters its outcome, and makes room for the next. */
  lemma LeavingEnds(s: Sys, id: nat)
    requires id < |s.tasks| && s.tasks[id].pc.Leaving?
    ensures var t := Step(s, LeaveTask(id));
            && t.tasks == s.tasks[id := s.tasks[id].(pc := Ended(s.tasks[id].pc.outcome))]
            && t.book == s.book.(initTask := if s.book.initTask == Some(id) then None else s.book.initTask)
  {
  }

  /** A first initialization that nobody interrupts ends with its client initialized after one attempt. */
  lemma InitializationSucceeds(s: Sys)
    requires Reachable(s) && s.book.client.Some? && !s.book.initialized && !Underway(s)
    ensures var id := |s.tasks|;
            var t := Step(Step(Step(Step(Step(s, Initialize(s.book.client, false)), StartTask(id)), AttemptReturned(id)), PublishTask(id)), LeaveTask(id));
            && t.tasks == s.tasks + [InitTask(s.book.client, s.book.generation, 1, Ended(Returned))]
            && t.book == s.book.(initialized := true, initTask := None) && t.publisher == Some(id)
  {
    var id := |s.tasks|;
    InitializeRegisters(s, s.book.client, false);
    var s1 := Step(s, Initialize(s.book.client, false));
    AttemptStarts(s1, id);
    var s2 := Step(s1, StartTask(id));
    ReturnPublishesExactly(s2, id);
    LeavingEnds(Step(Step(s2, AttemptReturned(id)), PublishTask(id)), id);
  }

  /** A task that was registered when there was no client starts no attempt and returns nothing. */
  lemma NoClientNoAttempt(s: Sys, id: nat)
    requires Reachable(s) && id < |s.tasks| && s.tasks[id].client.None?
    ensures s.tasks[id].attempts == 0
    ensures s.tasks[id].pc.Ended? ==> s.tasks[id].pc.result == ResetError || s.tasks[id].pc.result == Cancelled
    ensures s.publisher != Some(id)
  {
    ReachableHolds(s);
    assert TaskOk(s, id, s.tasks[id]);
  }

  /** At any time at most one initialization task of a generation is unfinished. */
  lemma OneUnfinishedTask(s: Sys, i: nat, j: nat)
    requires Reachable(s) && i < |s.tasks| && j < |s.tasks|
    requires Unfinished(s.tasks[i]) && Unfinished(s.tasks[j]) && s.tasks[i].generation == s.tasks[j].generation
    ensures i == j
  {
    ReachableHolds(s);
    assert i < j ==> Apart(s.tasks[i], s.tasks[j]);
    assert j < i ==> Apart(s.tasks[j], s.tasks[i]);
  }

  /** Overtaken by a reset before it published: it is stale and has not decided its outcome. */
  predicate Overtaken(s: Sys, id: nat) {
    id < |s.tasks| && Stale(s, s.tasks[id]) && !s.tasks[id].pc.Leaving? && !s.tasks[id].pc.Ended?
  }

  /** How an overtaken task may end up: still overtaken, or out without a client. */
  predicate Thwarted(o: InitTask, n: InitTask) {
    && n.client == o.client && n.generation == o.generation && n.attempts == o.attempts
    && n.pc != Leaving(Returned) && n.pc != Ended(Returned) && n.pc != Leaving(Cancelled)
    && (n.pc == Ended(Cancelled) ==> o.pc.Queued?)
    && (n.pc == Leaving(Raised) || n.pc == Ended(Raised) ==> o.pc.Attempting?)
    && (n.pc.Queued? ==> o.pc.Queued?)
    && (n.pc.Attempting? ==> o.pc.Attempting?)
  }

  lemma ThwartedStep(s: Sys, e: Event, id: nat, o: InitTask)
    requires Inv(s) && id < |s.tasks| && Stale(s, s.tasks[id]) && Thwarted(o, s.tasks[id])
    ensures var t := Step(s, e); id < |t.tasks| && Stale(t, t.tasks[id]) && Thwarted(o, t.tasks[id])
  {
    assert TaskOk(s, id, s.tasks[id]);
  }

  /**
   Once a reset has overtaken a task that has not published, then over the whole rest of
   the run it never publishes, starts no further attempt and returns no client.  It
   passes on an error of its own only if client.init was running when it was overtaken,
   and is plainly cancelled only if it had not begun; otherwise it ends with the reset error.
   */
  lemma {:induction false} OvertakenNeverPublishes(s: Sys, events: seq<Event>, id: nat)
    requires Reachable(s) && Overtaken(s, id)
    ensures var t := Run(s, events);
            && id < |t.tasks| && Stale(t, t.tasks[id]) && Thwarted(s.tasks[id], t.tasks[id])
            && t.publisher != Some(id)
    decreases |events|
  {
    ReachableHolds(s);
    RunKeeps(s, events);
    if events != [] {
      OvertakenNeverPublishes(s, events[..|events| - 1], id);
      RunKeeps(s, events[..|events| - 1]);
      ThwartedStep(Run(s, events[..|events| - 1]), events[|events| - 1], id, s.tasks[id]);
    }
    var t := Run(s, events);
    assert PublisherOk(t) && TaskOk(t, id, t.tasks[id]);
  }

  /** A continuation in which the waiters of task `id` see something else than the reset error. */
  ghost predicate MayEndOtherwise(s: Sys, id: nat) {
    exists events :: EndsOtherwise(Run(s, events), id)
  }

  predicate EndsOtherwise(s: Sys, id: nat) {
    id < |s.tasks| && s.tasks[id].pc.Ended? && s.tasks[id].pc.result != ResetError
  }

  /**
   The waiters of an overtaken task can see something else than the reset error if and
   only if client.init was running when the task was overtaken, or it had not begun.
   */
  lemma OtherEndExactly(s: Sys, id: nat)
    requires Reachable(s) && Overtaken(s, id)
    ensures MayEndOtherwise(s, id) <==> s.tasks[id].pc.Attempting? || s.tasks[id].pc.Queued?
  {
    if s.tasks[id].pc.Queued? {
      RunOfOne(s, CancelTask(id));
      assert EndsOtherwise(Run(s, [CancelTask(id)]), id);
    } else if s.tasks[id].pc.Attempting? {
      RunOfTwo(s, [AttemptFailed(id, false), LeaveTask(id)]);
      assert EndsOtherwise(Run(s, [AttemptFailed(id, false), LeaveTask(id)]), id);
    } else {
      forall events ensures !EndsOtherwise(Run(s, events), id) { OvertakenNeverPublishes(s, events, id); }
    }
  }

  /** Both cases are reached: a queued task, and one whose client.init is running. */
  lemma BothAreReached() returns (queued: Sys, running: Sys)
    ensures Reachable(queued) && Overtaken(queued, 0) && queued.tasks[0].pc.Queued?
    ensures Reachable(running) && Overtaken(running, 0) && running.tasks[0].pc.Attempting?
  {
    var a := [GetClient, Initialize(Some(0), false), Reset(None), GetClient];
    var b := [GetClient, Initialize(Some(0), false), StartTask(0), Reset(None)];
    queued, running := Run(START, a), Run(START, b);
    RunOfFour(START, a);
    RunOfFour(START, b);
    assert Step(Step(START, GetClient), Initialize(Some(0), false)).tasks == [InitTask(Some(0), 0, 0, Queued)];
  }

  lemma RunOfOne(s: Sys, e: Event)
    ensures Run(s, [e]) == Step(s, e)
  {
    assert [e][..0] == [];
  }

  lemma RunOfTwo(s: Sys, events: seq<Event>)
    requires |events| == 2
    ensures Run(s, events) == Step(Step(s, events[0]), events[1])
  {
    RunOfOne(s, events[0]);
    assert events[..1] == [events[0]];
  }

  lemma RunOfFour(s: Sys, events: seq<Event>)
    requires |events| == 4
    ensures Run(s, events) == Step(Step(Step(Step(s, events[0]), events[1]), events[2]), events[3])
  {
    RunOfTwo(s, events[..2]);
    assert events[..3][..2] == events[..2];
    assert Run(s, events[..3]) == Step(Run(s, events[..2]), events[2]);
  }

  // ---------------------------------------------------------------- retirement

  /**
   Conservation: the clients ever created are exactly the detached ones, each detached
   once into one retirement of its own, and the current one if there is one.
   */
  lemma RetirementConservation(s: Sys, client: nat)
    requires Reachable(s) && client < s.book.nextClient
    ensures s.book.client == Some(client) <==> client == |s.retirements|
    ensures s.book.client != Some(client) ==> client < |s.retirements| && s.retirements[client].client == client
    ensures forall i :: 0 <= i < |s.retirements| && s.retirements[i].client == client ==> i == client
  {
    ReachableHolds(s);
  }

  /** A client closes only after every initialization task of it has ended, or inside that task. */
  lemma ClosedAfterInit(s: Sys, id: nat, task: nat)
    requires Reachable(s) && id < |s.retirements| && s.retirements[id].closed
    requires task < |s.tasks| && s.tasks[task].client == Some(s.retirements[id].client)
    ensures s.tasks[task].pc.Ended? || s.retirements[id].inside == Some(task)
    ensures s.tasks[task].generation < s.book.generation
  {
    ReachableHolds(s);
    assert RetirementOk(s, s.retirements[id]);
  }
}
