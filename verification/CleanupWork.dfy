/**
 One manager over a whole run: schedules, automatic and explicit deletions, workers that
 stop at every `await`, done-callbacks and account switches, in any order.

 Which timer fires, what a caller passes and what the durable table answers are event
 parameters, so every interleaving the source allows is among the runs.
 */
module CleanupWork {
  import opened Common
  import opened CleanupManager
  import opened CleanupEvolution
  import Store = CleanupStore

  datatype Pc = Created | Active(attempts: nat) | Done(outcome: CleanupState)

  /** A durable worker knows the attempt its claim counted; another counts its own when it begins. */
  datatype Worker = Worker(cid: Cid, generation: int, durable: bool, claimed: nat, pc: Pc)

  /** Workers are named in the order they are created. */
  datatype World = World(book: Book, workers: seq<Worker>)

  datatype Event =
    | Schedule(cid: Cid, retain: bool, explicitDelay: bool, deleteAt: Time, at: Option<int>, answer: DurableAnswer)
    | Delete(cid: Cid, at: Option<int>, expected: Option<Due>, now: Time, claim: ClaimAnswer)
    | Begin(worker: nat)
    | Succeed(worker: nat)
    | Fail(worker: nat, now: Time)
    | Abandon(worker: nat)
    | LoseRow(worker: nat, seen: Option<Store.Row>)
    | SuspendWork(worker: nat)
    | EndDurable(worker: nat, end: End)
    | Callback(worker: nat)
    | Switch(ids: seq<Cid>)
    | Bind
    | Refresh(row: Store.Row)
    | ContextChange(cid: Cid, at: Option<int>)
    | Timeout(cid: Cid, at: Option<int>, now: Time)
    | Failure(cid: Cid, attempts: nat, now: Time)

  predicate Live(w: World, id: nat) {
    id < |w.workers| && !w.workers[id].pc.Done?
  }

  /** The worker's outcome when its own section ran in the current generation, or the cancellation otherwise. */
  function OutcomeOf(w: World, id: nat, current: CleanupState): CleanupState
    requires id < |w.workers|
  {
    if w.workers[id].generation == w.book.generation then current
    else CancellationOf(w.book, w.workers[id].cid, w.workers[id].generation).state
  }

  function Move(w: World, id: nat, book: Book, pc: Pc): World
    requires id < |w.workers|
  {
    World(book, w.workers[id := w.workers[id].(pc := pc)])
  }

  function StartDeletion(w: World, cid: Cid, at: Option<int>, expected: Option<Due>, now: Time, claim: ClaimAnswer): World {
    var (book, verdict) := if ValidId(cid) then Admit(w.book, cid, at, expected, now, claim, |w.workers|) else (w.book, Answered);
    var durable := w.book.hasStore && claim.Granted?;
    if verdict.Start?
    then World(book, w.workers + [Worker(cid, w.book.generation, durable, if durable then claim.row.attempts else 0, Created)])
    else w.(book := book)
  }

  function WorkerStep(w: World, e: Event): World
    requires e.Begin? || e.Succeed? || e.Fail? || e.Abandon? || e.LoseRow? || e.SuspendWork? || e.EndDurable?
  {
    if !Live(w, e.worker) then w
    else
      var me := w.workers[e.worker];
      match e
      case Begin(id) =>
        if me.durable || me.pc != Created then w
        else
          var attempts := (if me.cid in w.book.pending then w.book.pending[me.cid].attempts else 0) + 1;
          var next := if me.generation == w.book.generation then Active(attempts) else Done(OutcomeOf(w, id, Cancelled));
          Move(w, id, BeginAttempt(w.book, me.cid, me.generation), next)
      case Succeed(id) =>
        if !me.pc.Active? then w
        else Move(w, id, Complete(w.book, me.cid, me.pc.attempts, me.generation), Done(OutcomeOf(w, id, Completed)))
      case Fail(id, now) =>
        if !me.pc.Active? then w
        else Move(w, id, RecordFailure(w.book, me.cid, me.pc.attempts, Some(me.generation), now), Done(OutcomeOf(w, id, Failed)))
      case Abandon(id) =>
        if !me.pc.Active? || me.generation == w.book.generation then w
        else Move(w, id, CancelFor(w.book, me.cid, me.generation), Done(OutcomeOf(w, id, Cancelled)))
      case LoseRow(id, row) =>
        if !me.durable then w
        else Move(w, id, LoseAuthority(w.book, me.cid, me.generation, row),
                  Done(OutcomeOf(w, id, if row.Some? then StateOf(row.value) else Cancelled)))
      case SuspendWork(id) =>
        if !me.durable then w else w.(book := Suspend(w.book, me.cid, me.generation))
      case EndDurable(id, end) =>
        if !me.durable then w
        else Move(w, id, FinishDurable(w.book, me.cid, me.claimed, me.generation, end), Done(OutcomeOf(w, id, EndState(end))))
  }

  function EndState(end: End): CleanupState {
    match end
    case Written(row) => StateOf(row)
    case RowGone => Cancelled
    case WriteFailed => Failed
  }

  function Step(w: World, e: Event): World {
    match e
    case Schedule(cid, retain, explicitDelay, deleteAt, at, answer) =>
      if ValidId(cid) then w.(book := CleanupManager.Schedule(w.book, cid, retain, explicitDelay, deleteAt, at, answer)) else w
    case Delete(cid, at, expected, now, claim) => StartDeletion(w, cid, at, expected, now, claim)
    case Callback(id) =>
      if id < |w.workers| && w.workers[id].pc.Done? then w.(book := Release(w.book, w.workers[id].cid, id)) else w
    case Switch(ids) => w.(book := SwitchAccount(w.book, ids))
    case Bind => w.(book := BindScope(w.book))
    case Refresh(row) => if w.book.hasStore && w.book.scoped then w.(book := Adopt(w.book, row)) else w
    case ContextChange(cid, at) => w.(book := RecordContextChange(w.book, cid, at))
    case Timeout(cid, at, now) => w.(book := WaitTimeout(w.book, cid, at, now))
    case Failure(cid, attempts, now) => if ValidId(cid) then w.(book := RecordFailure(w.book, cid, attempts, None, now)) else w
    case _ => WorkerStep(w, e)
  }

  function Run(w: World, events: seq<Event>): World
    decreases |events|
  {
    if events == [] then w else Step(Run(w, events[..|events| - 1]), events[|events| - 1])
  }

  predicate Initial(w: World) {
    && w.workers == [] && w.book.inflight == map[] && w.book.pending == map[] && w.book.completed == map[]
    && w.book.observedAt == map[] && w.book.cancelled == map[] && w.book.generation >= 0
  }

  ghost predicate Reachable(w: World) {
    exists start, events :: Initial(start) && w == Run(start, events)
  }

  // ---------------------------------------------------------------- generations

  /** The generation an event acts for, when it is bound to one. */
  function ActsFor(w: World, e: Event): Option<int> {
    match e
    case Schedule(_, _, _, _, at, _) => at
    case Delete(_, at, _, _, _) => at
    case ContextChange(_, at) => Some(at.Or(w.book.generation - 1))
    case Timeout(_, at, _) => at
    case Begin(id) => WorkerGeneration(w, id)
    case Succeed(id) => WorkerGeneration(w, id)
    case Fail(id, _) => WorkerGeneration(w, id)
    case Abandon(id) => WorkerGeneration(w, id)
    case LoseRow(id, _) => WorkerGeneration(w, id)
    case SuspendWork(id) => WorkerGeneration(w, id)
    case EndDurable(id, _) => WorkerGeneration(w, id)
    case Callback(id) => WorkerGeneration(w, id)
    case _ => None
  }

  function WorkerGeneration(w: World, id: nat): Option<int> {
    if id < |w.workers| then Some(w.workers[id].generation) else None
  }

  /** The only thing an event of another generation may do: record the cancellation of its chat. */
  ghost predicate OnlyCancels(w: World, t: World, generation: int) {
    && |t.workers| == |w.workers|
    && (t.book == w.book || exists cid :: t.book == CancelFor(w.book, cid, generation))
  }

  lemma OldCallerOnlyCancels(w: World, e: Event)
    requires ActsFor(w, e).Some? && ActsFor(w, e).value != w.book.generation
    requires e.Schedule? || e.Delete? || e.ContextChange? || e.Timeout?
    ensures OnlyCancels(w, Step(w, e), ActsFor(w, e).value)
  {
    var t := Step(w, e);
    if t.book != w.book {
      assert t.book == CancelFor(w.book, e.cid, ActsFor(w, e).value);
    }
  }

  lemma OldWorkerOnlyCancels(w: World, e: Event)
    requires Reachable(w)
    requires ActsFor(w, e).Some? && ActsFor(w, e).value != w.book.generation
    requires !(e.Schedule? || e.Delete? || e.ContextChange? || e.Timeout?)
    ensures OnlyCancels(w, Step(w, e), ActsFor(w, e).value)
  {
    ReachableHolds(w);
    var me := w.workers[e.worker];
    assert me.cid in w.book.inflight && w.book.inflight[me.cid] == e.worker ==> Holds(w, me.cid, me);
    var t := Step(w, e);
    if t.book != w.book {
      assert t.book == CancelFor(w.book, me.cid, me.generation);
    }
  }

  /** After an account switch, nothing bound to an older generation changes any work. */
  lemma OldGenerationIsInert(w: World, e: Event)
    requires Reachable(w)
    requires ActsFor(w, e).Some? && ActsFor(w, e).value != w.book.generation
    ensures OnlyCancels(w, Step(w, e), ActsFor(w, e).value)
    ensures OnlyObserves(w.book, Step(w, e).book)
  {
    if e.Schedule? || e.Delete? || e.ContextChange? || e.Timeout? {
      OldCallerOnlyCancels(w, e);
    } else {
      OldWorkerOnlyCancels(w, e);
    }
  }

  /** A chat's observation generation never decreases, in one step or over any run. */
  lemma {:induction false} ObservationsOnlyAdvance(w: World, events: seq<Event>, cid: Cid)
    ensures ObservedAt(Run(w, events).book, cid) >= ObservedAt(w.book, cid)
    ensures Run(w, events).book.generation >= w.book.generation
    decreases |events|
  {
    if events != [] {
      ObservationsOnlyAdvance(w, events[..|events| - 1], cid);
      StepObserves(Run(w, events[..|events| - 1]), events[|events| - 1], cid);
    }
  }

  lemma StepObserves(w: World, e: Event, cid: Cid)
    ensures ObservedAt(Step(w, e).book, cid) >= ObservedAt(w.book, cid)
    ensures Step(w, e).book.generation >= w.book.generation
  {
    StepEvolves(w, e);
    assert ObservedLater(w.book, Step(w, e).book, cid);
  }

  lemma WorkerStepEvolves(w: World, e: Event)
    requires e.Begin? || e.Succeed? || e.Fail? || e.Abandon? || e.LoseRow? || e.SuspendWork? || e.EndDurable?
    ensures Evolves(w.book, WorkerStep(w, e).book)
  {
    EvolvesRefl(w.book);
    if Live(w, e.worker) {
      var me := w.workers[e.worker];
      match e
      case Begin(id) => BeginAttemptEvolves(w.book, me.cid, me.generation);
      case Succeed(id) => if me.pc.Active? { CompleteEvolves(w.book, me.cid, me.pc.attempts, me.generation); }
      case Fail(id, now) => if me.pc.Active? { RecordFailureEvolves(w.book, me.cid, me.pc.attempts, Some(me.generation), now); }
      case Abandon(id) => CancelForEvolves(w.book, me.cid, me.generation);
      case LoseRow(id, seen) => LoseAuthorityEvolves(w.book, me.cid, me.generation, seen);
      case SuspendWork(id) => SuspendEvolves(w.book, me.cid, me.generation);
      case EndDurable(id, end) => FinishDurableEvolves(w.book, me.cid, me.claimed, me.generation, end);
    }
  }

  /** Every step moves the book only forward. */
  lemma StepEvolves(w: World, e: Event)
    ensures Evolves(w.book, Step(w, e).book)
  {
    match e
    case Schedule(cid, retain, explicitDelay, deleteAt, at, answer) =>
      EvolvesRefl(w.book);
      ScheduleEvolves(w.book, cid, retain, explicitDelay, deleteAt, at, answer);
    case Delete(cid, at, expected, now, claim) => EvolvesRefl(w.book); AdmitEvolves(w.book, cid, at, expected, now, claim, |w.workers|);
    case Callback(id) =>
      EvolvesRefl(w.book);
      if id < |w.workers| { ReleaseEvolves(w.book, w.workers[id].cid, id); }
    case Switch(ids) => SwitchEvolves(w.book, ids);
    case Bind => BindEvolves(w.book);
    case Refresh(row) => EvolvesRefl(w.book); AdoptEvolves(w.book, row);
    case ContextChange(cid, at) => EvolvesRefl(w.book); CancelForEvolves(w.book, cid, at.Or(w.book.generation - 1));
    case Timeout(cid, at, now) => WaitTimeoutEvolves(w.book, cid, at, now);
    case Failure(cid, attempts, now) => EvolvesRefl(w.book); RecordFailureEvolves(w.book, cid, attempts, None, now);
    case _ => WorkerStepEvolves(w, e);
  }

  /** A late result of an older generation never replaces a newer observation. */
  lemma LateResultNeverReplaces(w: World, e: Event, cid: Cid)
    requires Reachable(w)
    requires ActsFor(w, e).Some? && ActsFor(w, e).value != w.book.generation
    requires ActsFor(w, e).value < ObservedAt(w.book, cid) && cid in w.book.observations
    ensures var t := Step(w, e).book; cid in t.observations && t.observations[cid] == w.book.observations[cid]
  {
    OldGenerationIsInert(w, e);
    OldCancelKeepsNewer(w, Step(w, e), ActsFor(w, e).value, cid);
  }

  lemma OldCancelKeepsNewer(w: World, t: World, generation: int, cid: Cid)
    requires OnlyCancels(w, t, generation)
    requires generation < ObservedAt(w.book, cid) && cid in w.book.observations
    ensures cid in t.book.observations && t.book.observations[cid] == w.book.observations[cid]
  {
  }

  // ---------------------------------------------------------------- sharing

  predicate Same(a: Worker, b: Worker) {
    a.cid == b.cid && a.generation == b.generation
  }

  /** Two workers of one chat and generation: never both live, and never one beside a completed one. */
  predicate Apart(a: Worker, b: Worker) {
    Same(a, b) ==>
      && (a.pc.Done? || b.pc.Done?)
      && (a.pc == Done(Completed) ==> b.pc.Done? && b.pc != Done(Completed))
      && (b.pc == Done(Completed) ==> a.pc.Done? && a.pc != Done(Completed))
  }

  ghost predicate WorkersApart(workers: seq<Worker>) {
    forall i, j :: 0 <= i < j < |workers| ==> Apart(workers[i], workers[j])
  }

  /** What the book knows about one worker of its generation. */
  ghost predicate Registered(b: Book, worker: Worker, id: nat) {
    && worker.generation <= b.generation
    && (worker.generation == b.generation ==>
          && (!worker.pc.Done? ==> worker.cid in b.inflight && b.inflight[worker.cid] == id)
          && (worker.pc == Done(Completed) ==> worker.cid in b.completed))
  }

  ghost predicate AllRegistered(w: World) {
    forall i :: 0 <= i < |w.workers| ==> Registered(w.book, w.workers[i], i)
  }

  ghost predicate InflightOk(w: World) {
    forall cid :: cid in w.book.inflight ==> w.book.inflight[cid] < |w.workers| && Holds(w, cid, w.workers[w.book.inflight[cid]])
  }

  ghost predicate Holds(w: World, cid: Cid, worker: Worker) {
    worker.cid == cid && worker.generation == w.book.generation
  }

  ghost predicate BookOk(b: Book) {
    && (forall cid :: cid in b.pending ==> b.pending[cid].ident < b.nextIdent)
    && (forall past :: past in b.cancelled ==> b.cancelled[past].state == Cancelled)
  }

  ghost predicate Inv(w: World) {
    WorkersApart(w.workers) && AllRegistered(w) && InflightOk(w) && BookOk(w.book)
  }

  lemma BookStaysOk(b: Book, t: Book)
    requires BookOk(b) && Evolves(b, t)
    ensures BookOk(t)
  {
    forall cid | cid in t.pending ensures t.pending[cid].ident < t.nextIdent { assert TaskFrom(b, t, cid); }
    forall past | past in t.cancelled ensures t.cancelled[past].state == Cancelled { assert CancellationKept(b, t, past); }
  }

  /** The book of the same generation, with no deletion started or released. */
  ghost predicate Tame(b: Book, t: Book) {
    t.inflight == b.inflight && t.generation == b.generation && Evolves(b, t)
  }

  lemma ReachableHolds(w: World)
    requires Reachable(w)
    ensures Inv(w)
  {
    var start, events :| Initial(start) && w == Run(start, events);
    RunKeeps(start, events);
  }

  lemma {:induction false} RunKeeps(w: World, events: seq<Event>)
    requires Inv(w)
    ensures Inv(Run(w, events))
    decreases |events|
  {
    if events != [] {
      RunKeeps(w, events[..|events| - 1]);
      StepKeeps(Run(w, events[..|events| - 1]), events[|events| - 1]);
    }
  }

  lemma TameKeeps(w: World, book: Book)
    requires Inv(w) && Tame(w.book, book)
    ensures Inv(w.(book := book))
  {
    var t := w.(book := book);
    BookStaysOk(w.book, book);
    forall i | 0 <= i < |t.workers| ensures Registered(t.book, t.workers[i], i) {
      assert Registered(w.book, w.workers[i], i);
    }
    forall cid | cid in t.book.inflight ensures t.book.inflight[cid] < |t.workers| && Holds(t, cid, t.workers[t.book.inflight[cid]]) {
      assert Holds(w, cid, w.workers[w.book.inflight[cid]]);
    }
  }

  /** A live worker moves on; it completes only after the book says so. */
  lemma MoveKeeps(w: World, id: nat, book: Book, pc: Pc)
    requires Inv(w) && Tame(w.book, book) && Live(w, id)
    requires pc == Done(Completed) ==> w.workers[id].generation == w.book.generation && w.workers[id].cid in book.completed
    requires !pc.Done? ==> w.workers[id].generation == w.book.generation
    ensures Inv(Move(w, id, book, pc))
  {
    var t := Move(w, id, book, pc);
    BookStaysOk(w.book, book);
    forall i | 0 <= i < |t.workers| ensures Registered(t.book, t.workers[i], i) {
      assert Registered(w.book, w.workers[i], i);
    }
    forall cid | cid in t.book.inflight ensures t.book.inflight[cid] < |t.workers| && Holds(t, cid, t.workers[t.book.inflight[cid]]) {
      assert Holds(w, cid, w.workers[w.book.inflight[cid]]);
    }
    forall i, j | 0 <= i < j < |t.workers| ensures Apart(t.workers[i], t.workers[j]) {
      assert Apart(w.workers[i], w.workers[j]);
    }
  }

  lemma WorkerStepFrame(w: World, e: Event)
    requires e.Begin? || e.Succeed? || e.Fail? || e.Abandon? || e.LoseRow? || e.SuspendWork? || e.EndDurable?
    ensures WorkerStep(w, e).book.inflight == w.book.inflight && WorkerStep(w, e).book.generation == w.book.generation
  {
    if e.LoseRow? && e.seen.Some? && e.worker < |w.workers| {
    }
    if e.EndDurable? && e.end.Written? && e.worker < |w.workers| {
    }
  }

  /** A worker that ends COMPLETED in its own generation has left its chat completed in the book. */
  lemma CompletedIsKnown(w: World, e: Event)
    requires BookOk(w.book) && WorkerStep.requires(w, e)
    requires Live(w, e.worker) && WorkerStep(w, e).workers[e.worker].pc == Done(Completed)
    ensures w.workers[e.worker].generation == w.book.generation
    ensures w.workers[e.worker].cid in WorkerStep(w, e).book.completed
  {
    var me := w.workers[e.worker];
    if e.LoseRow? && e.seen.Some? {
    }
    if e.EndDurable? && e.end.Written? {
    }
  }

  lemma WorkerStepKeeps(w: World, e: Event)
    requires Inv(w)
    requires e.Begin? || e.Succeed? || e.Fail? || e.Abandon? || e.LoseRow? || e.SuspendWork? || e.EndDurable?
    ensures Inv(WorkerStep(w, e))
  {
    var t := WorkerStep(w, e);
    WorkerStepEvolves(w, e);
    WorkerStepFrame(w, e);
    if t != w {
      if t.workers == w.workers {
        TameKeeps(w, t.book);
      } else {
        var pc := t.workers[e.worker].pc;
        if pc == Done(Completed) { CompletedIsKnown(w, e); }
        MoveKeeps(w, e.worker, t.book, pc);
        assert t == Move(w, e.worker, t.book, pc);
      }
    }
  }

  lemma NewWorkerKeeps(w: World, book: Book, worker: Worker)
    requires Inv(w) && Tame(w.book, book)
    requires worker.cid !in w.book.inflight && worker.cid !in w.book.completed
    requires worker.generation == w.book.generation && worker.pc == Created
    ensures Inv(World(Enlist(book, worker.cid, |w.workers|), w.workers + [worker]))
  {
    var id := |w.workers|;
    var t := World(Enlist(book, worker.cid, id), w.workers + [worker]);
    BookStaysOk(w.book, book);
    forall i | 0 <= i < |t.workers| ensures Registered(t.book, t.workers[i], i) {
      if i < id { assert Registered(w.book, w.workers[i], i); }
    }
    forall cid | cid in t.book.inflight ensures t.book.inflight[cid] < |t.workers| && Holds(t, cid, t.workers[t.book.inflight[cid]]) {
      if cid != worker.cid { assert Holds(w, cid, w.workers[w.book.inflight[cid]]); }
    }
    forall i, j | 0 <= i < j < |t.workers| ensures Apart(t.workers[i], t.workers[j]) {
      if j < id { assert Apart(w.workers[i], w.workers[j]); } else { assert Registered(w.book, w.workers[i], i); }
    }
  }

  lemma StartKeeps(w: World, cid: Cid, at: Option<int>, expected: Option<Due>, now: Time, claim: ClaimAnswer)
    requires Inv(w)
    ensures Inv(StartDeletion(w, cid, at, expected, now, claim))
  {
    var t := StartDeletion(w, cid, at, expected, now, claim);
    if !ValidId(cid) {
      assert t == w;
      return;
    }
    var (book, verdict) := Admit(w.book, cid, at, expected, now, claim, |w.workers|);
    AdmitEvolves(w.book, cid, at, expected, now, claim, |w.workers|);
    AdmitFrame(w.book, cid, at, expected, now, claim, |w.workers|);
    if verdict.Start? {
      StartedFrom(w.book, cid, at, expected, now, claim, |w.workers|);
      NewWorkerKeeps(w, Admitted(w.book, cid, claim), t.workers[|w.workers|]);
    } else {
      TameKeeps(w, book);
    }
  }

  /** The book as the claim left it, before the worker is enlisted. */
  function Admitted(b: Book, cid: Cid, claim: ClaimAnswer): Book {
    if b.hasStore && claim.Granted? then Adopt(b, claim.row.(key := claim.row.key.(resource := cid.text))) else b
  }

  lemma StartedFrom(b: Book, cid: Cid, at: Option<int>, expected: Option<Due>, now: Time, claim: ClaimAnswer, worker: nat)
    requires Admit(b, cid, at, expected, now, claim, worker).1.Start?
    ensures Admit(b, cid, at, expected, now, claim, worker).0 == Enlist(Admitted(b, cid, claim), cid, worker)
    ensures Tame(b, Admitted(b, cid, claim))
  {
    EvolvesRefl(b);
    if b.hasStore && claim.Granted? {
      AdoptEvolves(b, claim.row.(key := claim.row.key.(resource := cid.text)));
    }
  }

  lemma CallbackKeeps(w: World, id: nat)
    requires Inv(w) && id < |w.workers| && w.workers[id].pc.Done?
    ensures Inv(w.(book := Release(w.book, w.workers[id].cid, id)))
  {
    var t := w.(book := Release(w.book, w.workers[id].cid, id));
    ReleaseEvolves(w.book, w.workers[id].cid, id);
    BookStaysOk(w.book, t.book);
    forall i | 0 <= i < |t.workers| ensures Registered(t.book, t.workers[i], i) {
      assert Registered(w.book, w.workers[i], i);
    }
    forall cid | cid in t.book.inflight ensures t.book.inflight[cid] < |t.workers| && Holds(t, cid, t.workers[t.book.inflight[cid]]) {
      assert Holds(w, cid, w.workers[w.book.inflight[cid]]);
    }
  }

  lemma SwitchKeeps(w: World, ids: seq<Cid>)
    requires Inv(w)
    ensures Inv(w.(book := SwitchAccount(w.book, ids)))
  {
    SwitchEvolves(w.book, ids);
    BookStaysOk(w.book, SwitchAccount(w.book, ids));
    var t := w.(book := SwitchAccount(w.book, ids));
    forall i | 0 <= i < |t.workers| ensures Registered(t.book, t.workers[i], i) {
      assert Registered(w.book, w.workers[i], i);
    }
  }

  lemma ScheduleKeeps(w: World, e: Event)
    requires Inv(w) && e.Schedule?
    ensures Inv(Step(w, e))
  {
    StepEvolves(w, e);
    ScheduleFrame(w.book, e.cid, e.retain, e.explicitDelay, e.deleteAt, e.at, e.answer);
    TameKeeps(w, Step(w, e).book);
  }

  lemma NoWorkerMoves(w: World, e: Event)
    requires Inv(w)
    requires e.Bind? || e.Refresh? || e.ContextChange? || e.Timeout? || e.Failure?
    ensures Inv(Step(w, e))
  {
    StepEvolves(w, e);
    TameKeeps(w, Step(w, e).book);
  }

  lemma StepKeeps(w: World, e: Event)
    requires Inv(w)
    ensures Inv(Step(w, e))
  {
    if e.Schedule? {
      ScheduleKeeps(w, e);
    } else if e.Bind? || e.Refresh? || e.ContextChange? || e.Timeout? || e.Failure? {
      NoWorkerMoves(w, e);
    } else {
      match e
      case Delete(cid, at, expected, now, claim) => StartKeeps(w, cid, at, expected, now, claim);
      case Callback(id) => if id < |w.workers| && w.workers[id].pc.Done? { CallbackKeeps(w, id); }
      case Switch(ids) => SwitchKeeps(w, ids);
      case _ => WorkerStepKeeps(w, e);
    }
  }

  /** At any time each chat has at most one live worker of each generation. */
  lemma OneLiveWorker(w: World, i: nat, j: nat)
    requires Reachable(w) && Live(w, i) && Live(w, j)
    requires w.workers[i].cid == w.workers[j].cid && w.workers[i].generation == w.workers[j].generation
    ensures i == j
  {
    ReachableHolds(w);
    assert i < j ==> Apart(w.workers[i], w.workers[j]);
    assert j < i ==> Apart(w.workers[j], w.workers[i]);
  }

  /** Over a whole run at most one worker of a chat and generation finishes COMPLETED. */
  lemma OneCompletion(w: World, i: nat, j: nat)
    requires Reachable(w) && i < |w.workers| && j < |w.workers|
    requires w.workers[i].pc == Done(Completed) && w.workers[j].pc == Done(Completed)
    requires w.workers[i].cid == w.workers[j].cid && w.workers[i].generation == w.workers[j].generation
    ensures i == j
  {
    ReachableHolds(w);
    assert i < j ==> Apart(w.workers[i], w.workers[j]);
    assert j < i ==> Apart(w.workers[j], w.workers[i]);
  }

  // ---------------------------------------------------------------- automatic deletions

  /** The decision as an automatic driver read it under the lock. */
  predicate Current(b: Book, cid: Cid, due: Due) {
    cid in b.pending && b.pending[cid].ident == due.ident && b.pending[cid].deleteAt == due.deleteAt
  }

  /** The decision was withdrawn: its task is gone or replaced, or got an earlier deadline. */
  predicate Withdrawn(b: Book, cid: Cid, due: Due) {
    && due.ident < b.nextIdent
    && (cid in b.pending && b.pending[cid].ident == due.ident ==> b.pending[cid].deleteAt < due.deleteAt)
  }

  /** An automatic worker starts exactly on a decision that is still current, due and unshared. */
  lemma AutomaticStart(w: World, cid: Cid, at: Option<int>, due: Due, now: Time, claim: ClaimAnswer)
    ensures var t := StartDeletion(w, cid, at, Some(due), now, claim);
            && (|t.workers| > |w.workers| <==>
                  && ValidId(cid) && Current(w.book, cid, due) && due.deleteAt <= now && w.book.pending[cid].attempts == due.attempts
                  && cid !in w.book.inflight && cid !in w.book.completed
                  && (at.None? || at.value == w.book.generation)
                  && (w.book.hasStore ==> w.book.scoped && (claim.Granted? || claim.NotDurable?)))
            && (|t.workers| > |w.workers| ==>
                  t.workers[|w.workers|].cid == cid && t.workers[|w.workers|].generation == w.book.generation)
  {
  }

  /** Later, a current decision is still current or withdrawn; a withdrawn one stays withdrawn. */
  lemma DecisionsOnlyWithdraw(b: Book, t: Book, cid: Cid, due: Due)
    requires BookOk(b) && Evolves(b, t)
    ensures Withdrawn(b, cid, due) ==> Withdrawn(t, cid, due)
    ensures Current(b, cid, due) ==> Current(t, cid, due) || Withdrawn(t, cid, due)
  {
    assert TaskFrom(b, t, cid);
  }

  lemma {:induction false} RunEvolves(w: World, events: seq<Event>)
    ensures Evolves(w.book, Run(w, events).book)
    decreases |events|
  {
    if events == [] {
      EvolvesRefl(w.book);
    } else {
      var t := Run(w, events[..|events| - 1]);
      RunEvolves(w, events[..|events| - 1]);
      StepEvolves(t, events[|events| - 1]);
      EvolvesTrans(w.book, t.book, Run(w, events).book);
    }
  }

  /**
   A chat whose task was retained, replaced or moved to an earlier deadline after an
   automatic driver decided on it is never deleted on that old decision, however the run
   goes on.
   */
  lemma OldDecisionNeverDeletes(w: World, middle: seq<Event>, last: seq<Event>, cid: Cid, due: Due, at: Option<int>, now: Time, claim: ClaimAnswer)
    requires Reachable(w) && Current(w.book, cid, due)
    requires !Current(Run(w, middle).book, cid, due)
    ensures var t := Run(Run(w, middle), last);
            StartDeletion(t, cid, at, Some(due), now, claim).workers == t.workers
  {
    ReachableHolds(w);
    RunKeeps(w, middle);
    var m := Run(w, middle);
    RunEvolves(w, middle);
    DecisionsOnlyWithdraw(w.book, m.book, cid, due);
    RunEvolves(m, last);
    DecisionsOnlyWithdraw(m.book, Run(m, last).book, cid, due);
  }

  /**
   The retention takes effect in memory.  Without a durable job that is the case unless
   the chat is completed already; a durable row must be settled or marked, or be of
   another version than the task that was decided on.
   */
  predicate RetentionBites(b: Book, cid: Cid, answer: DurableAnswer)
    requires cid in b.pending
  {
    if !b.hasStore || answer.NoJob? then cid !in b.completed
    else answer.Adopted? && (!Unsettled(answer.row) || Store.Marked(answer.row) || b.pending[cid].version != Some(answer.row.version))
  }

  predicate Unsettled(row: Store.Row) {
    row.state == Store.Pending || row.state == Store.Failed || row.state == Store.Running
  }

  /** Retaining a chat withdraws a current decision on it exactly when the retention takes effect. */
  lemma RetainWithdraws(b: Book, cid: Cid, due: Due, answer: DurableAnswer)
    requires BookOk(b) && Current(b, cid, due) && (b.hasStore ==> b.scoped)
    ensures Withdrawn(CleanupManager.Schedule(b, cid, true, false, 0.0, None, answer), cid, due) <==> RetentionBites(b, cid, answer)
  {
    if !b.hasStore || answer.NoJob? {
      RetainedHere(b, cid);
    } else if answer.Adopted? {
      ScheduleFollows(b, cid, true, false, 0.0, answer.row);
      var t := CleanupManager.Schedule(b, cid, true, false, 0.0, None, answer);
      RetainedDurably(b, t, cid, answer.row);
      Gone(b, t, cid, due, RetentionBites(b, cid, answer));
    } else {
      assert CleanupManager.Schedule(b, cid, true, false, 0.0, None, answer) == FailStorage(b, cid, 0);
      Gone(b, FailStorage(b, cid, 0), cid, due, false);
    }
  }

  /** The task is gone, or another object has taken its place; or nothing has changed. */
  predicate Replaced(b: Book, t: Book, cid: Cid, gone: bool) {
    && t.nextIdent >= b.nextIdent
    && if gone then cid in t.pending ==> t.pending[cid].ident >= b.nextIdent else t.pending == b.pending
  }

  lemma Gone(b: Book, t: Book, cid: Cid, due: Due, gone: bool)
    requires BookOk(b) && Current(b, cid, due) && Replaced(b, t, cid, gone)
    ensures Withdrawn(t, cid, due) <==> gone
  {
  }

  lemma RetainedHere(b: Book, cid: Cid)
    ensures Replaced(b, ScheduleHere(b, cid, true, false, 0.0), cid, cid !in b.completed)
  {
  }

  lemma RetainedDurably(b: Book, t: Book, cid: Cid, row: Store.Row)
    requires cid in b.pending && b.hasStore && FollowsRow(b, t, cid, true, row)
    ensures Replaced(b, t, cid, RetentionBites(b, cid, Adopted(row)))
  {
  }

  /** `t` has the tasks of `b` after a schedule followed the durable row of `cid`. */
  ghost predicate FollowsRow(b: Book, t: Book, cid: Cid, retain: bool, row: Store.Row) {
    var f := Follow(b, cid, row);
    && t.nextIdent == f.nextIdent
    && t.pending == (if retain && Store.Marked(row) then f.pending - {cid} else f.pending)
    && t.completed == if row.state == Store.Completed
                      then b.completed[cid := Observation(Completed, row.attempts, false)] else b.completed
  }

  lemma ScheduleFollows(b: Book, cid: Cid, retain: bool, explicitDelay: bool, deleteAt: Time, row: Store.Row)
    requires b.hasStore && b.scoped
    ensures FollowsRow(b, CleanupManager.Schedule(b, cid, retain, explicitDelay, deleteAt, None, Adopted(row)), cid, retain, row)
  {
    AdoptedTask(b, cid, row);
  }

  /** The tasks after a durable row was followed, and the completions. */
  lemma AdoptedTask(b: Book, cid: Cid, row: Store.Row)
    ensures var t := Adopt(b, row.(key := row.key.(resource := cid.text))); var f := Follow(b, cid, row);
            && t.pending == f.pending && t.nextIdent == f.nextIdent
            && t.completed == if row.state == Store.Completed
                              then b.completed[cid := Observation(Completed, row.attempts, false)] else b.completed
  {
    var named := row.(key := row.key.(resource := cid.text));
    assert Cid(named.key.resource) == cid;
    assert Follow(b, cid, named) == Follow(b, cid, row);
  }

  // ---------------------------------------------------------------- late steps of an older account

  predicate WorkKept(b: Book, t: Book) {
    t.pending == b.pending && t.completed == b.completed
  }

  /** Following this durable row changes the pending or the completed map. */
  predicate RowIsNews(b: Book, cid: Cid, row: Store.Row) {
    if Unsettled(row) then !(cid in b.pending && b.pending[cid].version == Some(row.version))
    else cid in b.pending
         || (row.state == Store.Completed && !(cid in b.completed && b.completed[cid] == Observation(Completed, row.attempts, false)))
  }

  /** The guard under which an entry that carries no generation changes the pending or the completed map. */
  predicate Enters(b: Book, e: Event) {
    match e
    case Schedule(cid, retain, explicitDelay, deleteAt, None, answer) =>
      && ValidId(cid)
      && (if !b.hasStore || (b.scoped && answer.NoJob?) then
            && cid !in b.completed
            && (if retain then cid in b.pending else cid !in b.pending || (explicitDelay && deleteAt < b.pending[cid].deleteAt))
          else
            b.scoped && answer.Adopted? && (if retain && Store.Marked(answer.row) then cid in b.pending else RowIsNews(b, cid, answer.row)))
    case Delete(cid, None, expected, now, claim) =>
      && ValidId(cid) && b.hasStore && b.scoped && (expected.Some? ==> StillDue(b, cid, expected.value, now))
      && cid !in b.completed && cid !in b.inflight
      && (claim.Granted? || claim.Refused?) && RowIsNews(b, cid, claim.row)
    case Timeout(cid, None, _) =>
      ValidId(cid) && (cid in b.observations ==> b.observations[cid].state == Pending) && cid !in b.pending
    case Failure(cid, attempts, _) => ValidId(cid) && (cid in b.pending ==> b.pending[cid].attempts != attempts)
    case _ => false
  }

  lemma FollowWrites(b: Book, cid: Cid, row: Store.Row)
    requires BookOk(b)
    ensures Follow(b, cid, row).pending == b.pending
            <==> if Unsettled(row) then cid in b.pending && b.pending[cid].version == Some(row.version) else cid !in b.pending
  {
    TaskWrites(b, cid, Task(b.nextIdent, DueOf(row), row.attempts, b.generation, Some(row.version)));
  }

  lemma FollowThenDrop(b: Book, cid: Cid, row: Store.Row)
    ensures Follow(b, cid, row).pending - {cid} == b.pending <==> cid !in b.pending
  {
    var task := Task(b.nextIdent, DueOf(row), row.attempts, b.generation, Some(row.version));
    DropTwice(b.pending, cid, task);
    TaskWrites(b, cid, task);
  }

  lemma DropTwice(pending: map<Cid, Task>, cid: Cid, task: Task)
    ensures pending[cid := task] - {cid} == pending - {cid}
    ensures (pending - {cid}) - {cid} == pending - {cid}
  {
  }

  lemma CompletionWrites(b: Book, cid: Cid, seen: Observation)
    ensures b.completed[cid := seen] == b.completed <==> cid in b.completed && b.completed[cid] == seen
  {
    assert b.completed[cid := seen][cid] == seen;
  }

  lemma RowWrites(b: Book, t: Book, cid: Cid, retain: bool, row: Store.Row)
    requires BookOk(b) && FollowsRow(b, t, cid, retain, row)
    ensures WorkKept(b, t) <==> !(if retain && Store.Marked(row) then cid in b.pending else RowIsNews(b, cid, row))
  {
    FollowWrites(b, cid, row);
    FollowThenDrop(b, cid, row);
    CompletionWrites(b, cid, Observation(Completed, row.attempts, false));
  }

  lemma FollowingWrites(b: Book, cid: Cid, row: Store.Row)
    requires BookOk(b)
    ensures WorkKept(b, Adopt(b, row.(key := row.key.(resource := cid.text)))) <==> !RowIsNews(b, cid, row)
  {
    AdoptedTask(b, cid, row);
    RowWrites(b, Adopt(b, row.(key := row.key.(resource := cid.text))), cid, false, row);
  }

  /** A dropped, replaced or rewritten task is a change exactly as one expects. */
  lemma TaskWrites(b: Book, cid: Cid, task: Task)
    ensures b.pending - {cid} == b.pending <==> cid !in b.pending
    ensures b.pending[cid := task] == b.pending <==> cid in b.pending && b.pending[cid] == task
  {
    if cid in b.pending { assert cid !in b.pending - {cid}; }
    assert b.pending[cid := task][cid] == task;
  }

  lemma ScheduleHereWrites(b: Book, cid: Cid, retain: bool, explicitDelay: bool, deleteAt: Time)
    ensures WorkKept(b, ScheduleHere(b, cid, retain, explicitDelay, deleteAt))
            <==> !(&& cid !in b.completed
                   && (if retain then cid in b.pending else cid !in b.pending || (explicitDelay && deleteAt < b.pending[cid].deleteAt)))
  {
  }

  lemma ScheduleWrites(b: Book, e: Event)
    requires BookOk(b) && e.Schedule? && e.at.None? && ValidId(e.cid)
    ensures WorkKept(b, CleanupManager.Schedule(b, e.cid, e.retain, e.explicitDelay, e.deleteAt, None, e.answer)) <==> !Enters(b, e)
  {
    var t := CleanupManager.Schedule(b, e.cid, e.retain, e.explicitDelay, e.deleteAt, None, e.answer);
    if !b.hasStore || (b.scoped && e.answer.NoJob?) {
      assert t == ScheduleHere(b, e.cid, e.retain, e.explicitDelay, e.deleteAt);
      ScheduleHereWrites(b, e.cid, e.retain, e.explicitDelay, e.deleteAt);
    } else if b.scoped && e.answer.Adopted? {
      ScheduleFollows(b, e.cid, e.retain, e.explicitDelay, e.deleteAt, e.answer.row);
      RowWrites(b, t, e.cid, e.retain, e.answer.row);
    } else {
      assert WorkKept(b, t);
    }
  }

  lemma DeleteWrites(w: World, e: Event)
    requires BookOk(w.book) && e.Delete? && e.at.None?
    ensures WorkKept(w.book, Step(w, e).book) <==> !Enters(w.book, e)
  {
    ClaimWrites(w.book, e.cid, if w.book.hasStore then e.claim else NotDurable, |w.workers|);
    assert Step(w, e).book == if ValidId(e.cid) then Admit(w.book, e.cid, None, e.expected, e.now, e.claim, |w.workers|).0 else w.book;
  }

  lemma ClaimWrites(b: Book, cid: Cid, claim: ClaimAnswer, worker: nat)
    requires BookOk(b)
    ensures WorkKept(b, AdmitNew(b, cid, claim, worker).0) <==> !((claim.Granted? || claim.Refused?) && RowIsNews(b, cid, claim.row))
  {
    if claim.Granted? || claim.Refused? { FollowingWrites(b, cid, claim.row); }
  }

  lemma TimeoutWrites(w: World, e: Event)
    requires e.Timeout? && e.at.None?
    ensures WorkKept(w.book, Step(w, e).book) <==> !Enters(w.book, e)
  {
    var attempts := if e.cid in w.book.observations then w.book.observations[e.cid].attempts else 0;
    TaskWrites(w.book, e.cid, Task(w.book.nextIdent, e.now, attempts, w.book.generation, None));
  }

  lemma FailureWrites(w: World, e: Event)
    requires e.Failure?
    ensures WorkKept(w.book, Step(w, e).book) <==> !Enters(w.book, e)
  {
    TaskWrites(w.book, e.cid, if e.cid in w.book.pending then w.book.pending[e.cid].(attempts := e.attempts)
                              else Task(w.book.nextIdent, e.now, e.attempts, w.book.generation, None));
  }

  /** The account operations themselves act for the account that is current when they run. */
  predicate IsAccountStep(e: Event) { e.Switch? || e.Bind? || e.Refresh? }

  /**
   What a step that began in generation `began`, before an account switch, may still do to
   the work of the new account: it changes the pending or the completed map if and only if
   it carries no generation and its entry's guard holds.
   */
  lemma LateStepsWriteExactly(w: World, e: Event, began: int)
    requires Reachable(w) && began < w.book.generation && !IsAccountStep(e)
    requires ActsFor(w, e) == None || ActsFor(w, e) == Some(began)
    ensures !WorkKept(w.book, Step(w, e).book) <==> ActsFor(w, e).None? && Enters(w.book, e)
  {
    ReachableHolds(w);
    if ActsFor(w, e).Some? {
      OldGenerationIsInert(w, e);
    } else if e.Schedule? {
      if ValidId(e.cid) { ScheduleWrites(w.book, e); }
    } else if e.Delete? {
      DeleteWrites(w, e);
    } else if e.Timeout? {
      TimeoutWrites(w, e);
    } else if e.Failure? {
      FailureWrites(w, e);
    }
  }

  lemma RunOfThree(w: World, a: Event, b: Event, c: Event)
    ensures Run(w, [a, b, c]) == Step(Step(Step(w, a), b), c)
  {
    assert [a, b, c][..2] == [a, b] && [a, b][..1] == [a] && [a][..0] == [];
    assert Run(w, [a]) == Step(Run(w, []), a);
    assert Run(w, [a, b]) == Step(Run(w, [a]), b);
  }

  /**
   The failure of a deletion that began before a switch becomes work of the new account:
   the chat is pending again, due at once, and an automatic deletion starts on it.
   */
  lemma LateFailureBecomesWork(w: World, ids: seq<Cid>, cid: Cid, now: Time, later: Time) returns (t: World)
    requires Reachable(w) && ValidId(cid) && now <= later
    ensures t == Run(w, [Switch(ids), Failure(cid, 1, now), Bind])
    ensures t.book.generation == w.book.generation + 1
    ensures cid in t.book.pending && t.book.pending[cid].generation == t.book.generation && t.book.pending[cid].deleteAt == now
    ensures var due := Due(t.book.pending[cid].ident, now, 1);
            var u := StartDeletion(t, cid, Some(t.book.generation), Some(due), later, NotDurable);
            u.workers == t.workers + [Worker(cid, t.book.generation, false, 0, Created)]
  {
    var b := SwitchAccount(w.book, ids);
    SwitchCancels(w.book, ids, cid);
    LateFailureSteps(w, ids, cid, now);
    t := World(BindScope(RecordFailure(b, cid, 1, None, now)), w.workers);
    FailureIsPending(b, cid, now);
    RunOfThree(w, Switch(ids), Failure(cid, 1, now), Bind);
    DuePendingStarts(t, cid, now, later);
  }

  lemma LateFailureSteps(w: World, ids: seq<Cid>, cid: Cid, now: Time)
    requires ValidId(cid)
    ensures Step(Step(Step(w, Switch(ids)), Failure(cid, 1, now)), Bind)
            == World(BindScope(RecordFailure(SwitchAccount(w.book, ids), cid, 1, None, now)), w.workers)
  {
  }

  lemma DuePendingStarts(t: World, cid: Cid, now: Time, later: Time)
    requires ValidId(cid) && cid in t.book.pending && now <= later && t.book.scoped
    requires t.book.pending[cid].deleteAt == now && t.book.pending[cid].attempts == 1
    requires cid !in t.book.inflight && cid !in t.book.completed
    ensures StartDeletion(t, cid, Some(t.book.generation), Some(Due(t.book.pending[cid].ident, now, 1)), later, NotDurable).workers
            == t.workers + [Worker(cid, t.book.generation, false, 0, Created)]
  {
  }

  lemma FailureIsPending(b: Book, cid: Cid, now: Time)
    requires b.pending == map[] && b.completed == map[] && b.inflight == map[]
    ensures var t := BindScope(RecordFailure(b, cid, 1, None, now));
            && t.pending == map[cid := Task(b.nextIdent, now, 1, b.generation, None)]
            && t.completed == map[] && t.inflight == map[] && t.scoped && t.generation == b.generation
  {
  }
}
