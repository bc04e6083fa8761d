/**
 The in-memory side of RemoteChatCleanupManager: pending tasks, observations, in-flight
 workers and authentication generations.

 Every section of the source that runs under `_lock` is one function on `Book`, and one
 method of the class that carries it out in place.  What the durable table answers
 inside such a section (see CleanupProtocol) is a parameter here.
 */
module CleanupManager {
  import opened Common
  import Store = CleanupStore

  type Time = Store.Time
  /** A remote chat id. */
  datatype Cid = Cid(text: string)

  datatype CleanupState =
    | NotApplicable | Retained | Pending | Completed | AlreadyCompleted | Failed | Cancelled | InvalidId

  /** `CleanupObservation`, without the fields kept for diagnostics. */
  datatype Observation = Observation(state: CleanupState, attempts: nat, idempotent: bool)

  /** `CleanupTask`; `ident` is the object's identity. */
  datatype Task = Task(ident: nat, deleteAt: Time, attempts: nat, generation: int, version: Option<nat>)

  /** The decision an automatic deletion was taken on: the task object, its deadline, its attempts. */
  datatype Due = Due(ident: nat, deleteAt: Time, attempts: nat)

  datatype Past = Past(generation: int, cid: Cid)

  datatype Book = Book(
    pending: map<Cid, Task>,
    observations: map<Cid, Observation>,
    completed: map<Cid, Observation>,
    inflight: map<Cid, nat>,
    suspended: set<Cid>,
    generation: int,
    observedAt: map<Cid, int>,
    cancelled: map<Past, Observation>,
    hasStore: bool,
    scoped: bool,
    nextIdent: nat)

  /** What the durable table said while a removal or retention was scheduled. */
  datatype DurableAnswer = NoJob | StoreFailed | Adopted(row: Store.Row)

  /** What the durable claim said while a deletion was started. */
  datatype ClaimAnswer = NotDurable | ClaimFailed | Refused(row: Store.Row) | Granted(row: Store.Row)

  /** How a durable worker's terminal section ended. */
  datatype End = Written(row: Store.Row) | RowGone | WriteFailed

  datatype Verdict =
    | Superseded          // another generation
    | NoScope
    | NotDueAnymore       // the automatic decision is no longer current
    | Already             // completed before
    | StorageFailure
    | Answered
    | Join(worker: nat)
    | Start(worker: nat)

  function ObservedAt(b: Book, cid: Cid): int {
    if cid in b.observedAt then b.observedAt[cid] else -1
  }

  /** Only observations and recorded cancellations may differ: no work is added, dropped or started. */
  predicate OnlyObserves(b: Book, t: Book) {
    && t.pending == b.pending && t.completed == b.completed && t.inflight == b.inflight
    && t.suspended == b.suspended && t.generation == b.generation
    && t.hasStore == b.hasStore && t.scoped == b.scoped && t.nextIdent == b.nextIdent
  }

  /** Observations of an older generation never replace newer ones. */
  function Record(b: Book, cid: Cid, seen: Observation, generation: int): (t: Book)
    ensures OnlyObserves(b, t)
  {
    if generation >= ObservedAt(b, cid)
    then b.(observations := b.observations[cid := seen], observedAt := b.observedAt[cid := generation])
    else b
  }

  /** The one cancellation recorded for a chat of an older generation. */
  function CancellationOf(b: Book, cid: Cid, generation: int): Observation {
    if Past(generation, cid) in b.cancelled then b.cancelled[Past(generation, cid)]
    else Observation(Cancelled, if cid in b.observations then b.observations[cid].attempts else 0, false)
  }

  function CancelFor(b: Book, cid: Cid, generation: int): (t: Book)
    ensures OnlyObserves(b, t)
  {
    var seen := CancellationOf(b, cid, generation);
    Record(b.(cancelled := b.cancelled[Past(generation, cid) := seen]), cid, seen, generation)
  }

  function FailStorage(b: Book, cid: Cid, attempts: nat): (t: Book)
    ensures SameProgress(b, t)
  {
    Record(b.(suspended := b.suspended + {cid}), cid, Observation(Failed, attempts, false), b.generation)
  }

  function StateOf(row: Store.Row): (state: CleanupState)
    ensures Shows(row, state)
  {
    match row.state
    case Pending => Pending
    case Running => Pending
    case Completed => Completed
    case Failed => Failed
    case Retained => Retained
    case Cancelled => Cancelled
  }

  function DueOf(row: Store.Row): Time {
    if row.state == Store.Running then Max(row.dueAt, Store.Deadline(row)) else row.dueAt
  }

  function NewTask(b: Book, cid: Cid, deleteAt: Time, attempts: nat, version: Option<nat>): (t: Book)
    ensures SameProgress(b, t)
  {
    b.(pending := b.pending[cid := Task(b.nextIdent, deleteAt, attempts, b.generation, version)], nextIdent := b.nextIdent + 1)
  }

  function DropTask(b: Book, cid: Cid): (t: Book)
    ensures SameProgress(b, t)
  {
    b.(pending := b.pending - {cid})
  }

  function EditTask(b: Book, cid: Cid, task: Task): (t: Book)
    ensures SameProgress(b, t)
  {
    b.(pending := b.pending[cid := task])
  }

  function MarkCompleted(b: Book, cid: Cid, seen: Observation): (t: Book)
    ensures SameProgress(b, t) && cid in t.completed
  {
    b.(completed := b.completed[cid := seen])
  }

  /** Neither the generation nor what is in flight differs. */
  predicate SameProgress(b: Book, t: Book) {
    t.inflight == b.inflight && t.generation == b.generation
  }

  /** A live row has a pending task of its version, any other row has none. */
  function Follow(b: Book, cid: Cid, row: Store.Row): (t: Book)
    ensures SameProgress(b, t)
  {
    if row.state == Store.Pending || row.state == Store.Failed || row.state == Store.Running then
      if cid in b.pending && b.pending[cid].version == Some(row.version) then b
      else NewTask(b, cid, DueOf(row), row.attempts, Some(row.version))
    else DropTask(b, cid)
  }

  /** The local picture follows a durable row. */
  function Adopt(b: Book, row: Store.Row): (t: Book)
    ensures SameProgress(b, t)
    ensures row.state == Store.Completed ==> Cid(row.key.resource) in t.completed
  {
    var cid := Cid(row.key.resource);
    var seen := Observation(StateOf(row), row.attempts, false);
    var followed := Follow(b, cid, row);
    var settled := if row.state == Store.Completed then MarkCompleted(followed, cid, seen) else followed;
    Record(settled, cid, seen, b.generation)
  }

  // ---------------------------------------------------------------- scheduling

  /** The decision kept in memory when there is no durable job to follow. */
  function ScheduleHere(b: Book, cid: Cid, retain: bool, explicitDelay: bool, deleteAt: Time): Book {
    if cid in b.completed then
      Record(b, cid, b.completed[cid].(state := AlreadyCompleted, idempotent := true), b.generation)
    else if retain then
      Record(DropTask(b, cid), cid, Observation(Retained, 0, false), b.generation)
    else if cid !in b.pending then
      Record(NewTask(b, cid, deleteAt, 0, None), cid, Observation(Pending, 0, false), b.generation)
    else if explicitDelay && deleteAt < b.pending[cid].deleteAt then
      Record(EditTask(b, cid, b.pending[cid].(deleteAt := deleteAt)), cid, Observation(Pending, b.pending[cid].attempts, true), b.generation)
    else if cid in b.observations && b.observations[cid].state == Failed then
      Record(b, cid, b.observations[cid].(idempotent := true), b.generation)
    else
      Record(b, cid, Observation(Pending, b.pending[cid].attempts, true), b.generation)
  }

  function Schedule(b: Book, cid: Cid, retain: bool, explicitDelay: bool, deleteAt: Time, generation: Option<int>,
                    answer: DurableAnswer): Book {
    if generation.Or(b.generation) != b.generation then CancelFor(b, cid, generation.value)
    else if !b.hasStore then ScheduleHere(b, cid, retain, explicitDelay, deleteAt)
    else if !b.scoped then Record(b, cid, Observation(Cancelled, 0, false), b.generation)
    else match answer
      case StoreFailed => FailStorage(b, cid, 0)
      case NoJob => ScheduleHere(b, cid, retain, explicitDelay, deleteAt)
      case Adopted(row) =>
        var adopted := Adopt(b, row.(key := row.key.(resource := cid.text)));
        var settled := if retain && Store.Marked(row) then DropTask(adopted, cid) else adopted;
        var shown := ShownState(row, retain);
        Record(settled, cid, Observation(shown, row.attempts, shown == AlreadyCompleted), b.generation)
  }

  /** What the caller of a schedule is told about the durable row it led to. */
  function ShownState(row: Store.Row, retain: bool): CleanupState {
    if retain && Store.Marked(row) then Retained
    else if !retain && row.state == Store.Completed then AlreadyCompleted
    else StateOf(row)
  }

  // ---------------------------------------------------------------- starting a deletion

  predicate StillDue(b: Book, cid: Cid, due: Due, now: Time) {
    && cid in b.pending
    && b.pending[cid].ident == due.ident
    && b.pending[cid].deleteAt == due.deleteAt
    && b.pending[cid].deleteAt <= now
    && b.pending[cid].attempts == due.attempts
    && cid !in b.inflight
  }

  /** Validate and claim under one lock: who, if anyone, will delete this chat. */
  function Admit(b: Book, cid: Cid, generation: Option<int>, expected: Option<Due>, now: Time, claim: ClaimAnswer,
                 worker: nat): (r: (Book, Verdict))
  {
    if generation.Or(b.generation) != b.generation then (CancelFor(b, cid, generation.value), Superseded)
    else if b.hasStore && !b.scoped then (b, NoScope)
    else if expected.Some? && !StillDue(b, cid, expected.value, now) then (b, NotDueAnymore)
    else if cid in b.completed then
      (Record(b, cid, b.completed[cid].(state := AlreadyCompleted, idempotent := true), b.generation), Already)
    else if cid in b.inflight then (b, Join(b.inflight[cid]))
    else AdmitNew(b, cid, if b.hasStore then claim else NotDurable, worker)
  }

  /** Nobody deletes this chat yet: the durable claim decides. */
  function AdmitNew(b: Book, cid: Cid, claim: ClaimAnswer, worker: nat): (r: (Book, Verdict)) {
    match claim
    case ClaimFailed => (FailStorage(b, cid, 0), StorageFailure)
    case Refused(row) => (Adopt(b, row.(key := row.key.(resource := cid.text))), Answered)
    case Granted(row) => (Enlist(Adopt(b, row.(key := row.key.(resource := cid.text))), cid, worker), Start(worker))
    case NotDurable => (Enlist(b, cid, worker), Start(worker))
  }

  function Enlist(b: Book, cid: Cid, worker: nat): Book {
    b.(inflight := b.inflight[cid := worker])
  }

  // ---------------------------------------------------------------- workers

  function BeginAttempt(b: Book, cid: Cid, generation: int): Book {
    if generation != b.generation then CancelFor(b, cid, generation)
    else
      var attempts := (if cid in b.pending then b.pending[cid].attempts else 0) + 1;
      var counted := if cid in b.pending then EditTask(b, cid, b.pending[cid].(attempts := attempts)) else b;
      Record(counted, cid, Observation(Pending, attempts, false), generation)
  }

  function Complete(b: Book, cid: Cid, attempts: nat, generation: int): Book {
    if generation != b.generation then CancelFor(b, cid, generation)
    else
      var seen := Observation(Completed, attempts, false);
      Record(MarkCompleted(DropTask(b, cid), cid, seen), cid, seen, generation)
  }

  function RecordFailure(b: Book, cid: Cid, attempts: nat, generation: Option<int>, now: Time): (t: Book)
    ensures SameProgress(b, t)
  {
    if generation.Or(b.generation) != b.generation then CancelFor(b, cid, generation.value)
    else
      var noted := if cid in b.pending then EditTask(b, cid, b.pending[cid].(attempts := attempts))
                   else NewTask(b, cid, now, attempts, None);
      Record(noted, cid, Observation(Failed, attempts, false), b.generation)
  }

  /** A durable worker finds its authority gone: it follows the row it sees instead. */
  function LoseAuthority(b: Book, cid: Cid, generation: int, seen: Option<Store.Row>): Book {
    if generation != b.generation then CancelFor(b, cid, generation)
    else match seen
      case Some(row) => Adopt(b, row.(key := row.key.(resource := cid.text)))
      case None => b
  }

  function Suspend(b: Book, cid: Cid, generation: int): Book {
    if generation != b.generation then b else b.(suspended := b.suspended + {cid})
  }

  function FinishDurable(b: Book, cid: Cid, attempts: nat, generation: int, end: End): Book {
    if generation != b.generation then CancelFor(b, cid, generation)
    else match end
      case Written(row) => Adopt(b, row.(key := row.key.(resource := cid.text)))
      case RowGone => b
      case WriteFailed => FailStorage(b, cid, attempts)
  }

  /** The done-callback releases only its own entry. */
  function Release(b: Book, cid: Cid, worker: nat): Book {
    if cid in b.inflight && b.inflight[cid] == worker then b.(inflight := b.inflight - {cid}) else b
  }

  // ---------------------------------------------------------------- accounts

  predicate ValidId(cid: Cid) {
    |cid.text| > 2 && cid.text[0] == 'c' && cid.text[1] == '_'
  }

  /** The chats whose work an account switch cancels. */
  function OldChats(b: Book, chats: set<Cid>): set<Cid> {
    set cid | cid in b.pending.Keys + b.inflight.Keys + chats && ValidId(cid)
  }

  /** Old work is dropped, and each chat in `ids` keeps one cancellation under the old generation. */
  function SwitchAccount(b: Book, ids: seq<Cid>): Book {
    CancelEach(Dropped(b), ids, b.generation)
  }

  function Dropped(b: Book): Book {
    b.(generation := b.generation + 1, pending := map[], completed := map[], inflight := map[], scoped := false)
  }

  function CancelEach(b: Book, ids: seq<Cid>, generation: int): (t: Book)
    ensures OnlyObserves(b, t)
    decreases |ids|
  {
    if ids == [] then b
    else CancelFor(CancelEach(b, ids[..|ids| - 1], generation), ids[|ids| - 1], generation)
  }

  function BindScope(b: Book): Book {
    b.(scoped := true, suspended := {})
  }

  function RecordContextChange(b: Book, cid: Cid, generation: Option<int>): Book {
    if ValidId(cid) then CancelFor(b, cid, generation.Or(b.generation - 1)) else b
  }

  function WaitTimeout(b: Book, cid: Cid, generation: Option<int>, now: Time): (t: Book)
    ensures SameProgress(b, t)
  {
    if !ValidId(cid) then b
    else if generation.Or(b.generation) != b.generation then CancelFor(b, cid, generation.value)
    else if cid in b.observations && b.observations[cid].state != Pending then b
    else
      var attempts := if cid in b.observations then b.observations[cid].attempts else 0;
      var noted := if cid in b.pending then b else NewTask(b, cid, now, attempts, None);
      Record(noted, cid, Observation(Pending, attempts, false), b.generation)
  }

  // ---------------------------------------------------------------- effects, field by field

  /** `seen` was stored unless a newer generation has been observed; nothing else is known to differ. */
  predicate Noted(b: Book, t: Book, cid: Cid, seen: Observation, at: int) {
    if at >= (if cid in b.observedAt then b.observedAt[cid] else -1)
    then t.observations == b.observations[cid := seen] && t.observedAt == b.observedAt[cid := at]
    else t.observations == b.observations && t.observedAt == b.observedAt
  }

  /** Pending, completed and in-flight work are as before. */
  predicate SameWork(b: Book, t: Book) {
    t.pending == b.pending && t.completed == b.completed && t.inflight == b.inflight && t.generation == b.generation
  }

  /** What a durable row says locally: its task with its due time, or none; its completion; its state. */
  predicate FollowsDurably(b: Book, t: Book, cid: Cid, row: Store.Row) {
    && TasksFollow(b, t, cid, row)
    && t.completed == (if row.state == Store.Completed then b.completed[cid := Observation(Completed, row.attempts, false)] else b.completed)
    && t.inflight == b.inflight && t.generation == b.generation && t.suspended == b.suspended && t.cancelled == b.cancelled
  }

  /** The local name of a durable row's state. */
  predicate Shows(row: Store.Row, state: CleanupState) {
    && (row.state == Store.Pending || row.state == Store.Running ==> state == Pending)
    && (row.state == Store.Completed ==> state == Completed)
    && (row.state == Store.Failed ==> state == Failed)
    && (row.state == Store.Retained ==> state == Retained)
    && (row.state == Store.Cancelled ==> state == Cancelled)
  }

  /** The part of FollowsDurably that is about tasks. */
  predicate TasksFollow(b: Book, t: Book, cid: Cid, row: Store.Row) {
    if row.state == Store.Pending || row.state == Store.Failed || row.state == Store.Running then
      if cid in b.pending && b.pending[cid].version == Some(row.version) then t.pending == b.pending
      else
        var due := if row.state == Store.Running && row.dueAt < row.leaseUntil.Or(0.0) then row.leaseUntil.Or(0.0) else row.dueAt;
        t.pending == b.pending[cid := Task(b.nextIdent, due, row.attempts, b.generation, Some(row.version))]
    else t.pending == b.pending - {cid}
  }

  /** Everything but the tasks is as before. */
  predicate OnlyTasks(b: Book, t: Book) {
    && t.observations == b.observations && t.completed == b.completed && t.inflight == b.inflight && t.suspended == b.suspended
    && t.generation == b.generation && t.observedAt == b.observedAt && t.cancelled == b.cancelled
    && t.hasStore == b.hasStore && t.scoped == b.scoped
  }

  lemma FollowTasks(b: Book, cid: Cid, row: Store.Row)
    ensures TasksFollow(b, Follow(b, cid, row), cid, row) && OnlyTasks(b, Follow(b, cid, row))
  {
    if row.state == Store.Pending || row.state == Store.Failed || row.state == Store.Running {
      if !(cid in b.pending && b.pending[cid].version == Some(row.version)) {
        assert Follow(b, cid, row) == NewTask(b, cid, DueOf(row), row.attempts, Some(row.version));
      }
    } else {
      assert Follow(b, cid, row) == DropTask(b, cid);
    }
  }

  lemma CompletedThenNoted(b: Book, f: Book, cid: Cid, row: Store.Row)
    requires TasksFollow(b, f, cid, row) && OnlyTasks(b, f)
    ensures var seen := Observation(StateOf(row), row.attempts, false);
            var settled := if row.state == Store.Completed then MarkCompleted(f, cid, seen) else f;
            FollowedAs(b, Record(settled, cid, seen, b.generation), cid, row)
  {
  }

  /** Adopting a durable row follows it, and observes its state. */
  lemma AdoptFollows(b: Book, row: Store.Row)
    ensures FollowedAs(b, Adopt(b, row), Cid(row.key.resource), row)
  {
    FollowTasks(b, Cid(row.key.resource), row);
    CompletedThenNoted(b, Follow(b, Cid(row.key.resource), row), Cid(row.key.resource), row);
  }

  /** Adopting under the name of the chat that was asked about. */
  predicate FollowedAs(b: Book, t: Book, cid: Cid, row: Store.Row) {
    FollowsDurably(b, t, cid, row) && Noted(b, t, cid, Observation(StateOf(row), row.attempts, false), b.generation)
  }

  lemma AdoptAs(b: Book, cid: Cid, row: Store.Row)
    ensures FollowedAs(b, Adopt(b, row.(key := row.key.(resource := cid.text))), cid, row)
  {
    AdoptFollows(b, row.(key := row.key.(resource := cid.text)));
  }

  /** Who deletes a chat, guard by guard. */
  lemma AdmitDecides(b: Book, cid: Cid, at: Option<int>, expected: Option<Due>, now: Time, claim: ClaimAnswer, worker: nat)
    ensures var (t, verdict) := Admit(b, cid, at, expected, now, claim, worker);
            var due := (expected.Some? ==>
                          && cid in b.pending && b.pending[cid].ident == expected.value.ident
                          && b.pending[cid].deleteAt == expected.value.deleteAt && b.pending[cid].deleteAt <= now
                          && b.pending[cid].attempts == expected.value.attempts && cid !in b.inflight);
            if at.Some? && at.value != b.generation then verdict == Superseded && SameWork(b, t)
            else if b.hasStore && !b.scoped then verdict == NoScope && t == b
            else if !due then verdict == NotDueAnymore && t == b
            else if cid in b.completed then
              && verdict == Already && SameWork(b, t)
              && Noted(b, t, cid, b.completed[cid].(state := AlreadyCompleted, idempotent := true), b.generation)
            else if cid in b.inflight then verdict == Join(b.inflight[cid]) && t == b
            else if !b.hasStore || claim.NotDurable? then
              verdict == Start(worker) && t == b.(inflight := b.inflight[cid := worker])
            else if claim.ClaimFailed? then verdict == StorageFailure && SameWork(b, t) && cid in t.suspended
            else if claim.Refused? then verdict == Answered && FollowedAs(b, t, cid, claim.row)
            else verdict == Start(worker) && t.inflight == b.inflight[cid := worker]
                 && FollowedAs(b, t.(inflight := b.inflight), cid, claim.row)
  {
    NewWorkDecides(b, cid, if b.hasStore then claim else NotDurable, worker);
  }

  lemma NewWorkDecides(b: Book, cid: Cid, claim: ClaimAnswer, worker: nat)
    ensures var (t, verdict) := AdmitNew(b, cid, claim, worker);
            match claim
            case NotDurable => verdict == Start(worker) && t == b.(inflight := b.inflight[cid := worker])
            case ClaimFailed => verdict == StorageFailure && SameWork(b, t) && cid in t.suspended
            case Refused(row) => verdict == Answered && FollowedAs(b, t, cid, row)
            case Granted(row) =>
              verdict == Start(worker) && t.inflight == b.inflight[cid := worker] && FollowedAs(b, t.(inflight := b.inflight), cid, row)
  {
    if claim.Refused? || claim.Granted? { AdoptAs(b, cid, claim.row); }
    if claim.Granted? {
      var adopted := Adopt(b, claim.row.(key := claim.row.key.(resource := cid.text)));
      assert Enlist(adopted, cid, worker).(inflight := b.inflight) == adopted;
    }
  }

  lemma DropWritten(pending: map<Cid, Task>, cid: Cid, task: Task)
    ensures pending[cid := task] - {cid} == pending - {cid}
  {
  }

  lemma DroppedTasks(b: Book, a: Book, cid: Cid, row: Store.Row)
    requires TasksFollow(b, a, cid, row) && row.state == Store.Running
    ensures a.pending - {cid} == b.pending - {cid}
  {
    if a.pending != b.pending { DropWritten(b.pending, cid, a.pending[cid]); }
  }

  /** A retention of a running, marked row drops the task; otherwise the task follows the row. */
  predicate Answers(b: Book, t: Book, cid: Cid, retain: bool, row: Store.Row) {
    var dropped := retain && row.state == Store.Running && row.error == Some(Store.RetainAfterClaim);
    && t.completed == (if row.state == Store.Completed then b.completed[cid := Observation(Completed, row.attempts, false)] else b.completed)
    && (if dropped then t.pending == b.pending - {cid} else TasksFollow(b, t, cid, row))
  }

  lemma ScheduleAnswers(b: Book, cid: Cid, retain: bool, explicitDelay: bool, deleteAt: Time, row: Store.Row)
    requires b.hasStore && b.scoped
    ensures Answers(b, Schedule(b, cid, retain, explicitDelay, deleteAt, None, Adopted(row)), cid, retain, row)
  {
    AdoptAs(b, cid, row);
    if row.state == Store.Running { DroppedTasks(b, Adopt(b, row.(key := row.key.(resource := cid.text))), cid, row); }
  }

  /** What the caller is told. */
  lemma ShownFollows(row: Store.Row, retain: bool)
    ensures var shown := ShownState(row, retain);
            if retain && row.state == Store.Running && row.error == Some(Store.RetainAfterClaim) then shown == Retained
            else if !retain && row.state == Store.Completed then shown == AlreadyCompleted
            else Shows(row, shown)
  {
  }

  // ---------------------------------------------------------------- the class

  /** `RemoteChatCleanupManager`; each method is one section under its lock. */
  class RemoteChatCleanupManager {
    var pending: map<Cid, Task>
    var observations: map<Cid, Observation>
    var completed: map<Cid, Observation>
    var inflight: map<Cid, nat>
    var suspended: set<Cid>
    var generation: int
    var observedAt: map<Cid, int>
    var cancelled: map<Past, Observation>
    var hasStore: bool
    var scoped: bool
    var nextIdent: nat

    ghost function State(): Book
      reads this
    {
      Book(pending, observations, completed, inflight, suspended, generation, observedAt, cancelled, hasStore, scoped, nextIdent)
    }

    constructor (hasStore: bool)
      ensures State() == Book(map[], map[], map[], map[], {}, 0, map[], map[], hasStore, false, 0)
    {
      pending, observations, completed, inflight, suspended := map[], map[], map[], map[], {};
      generation, observedAt, cancelled := 0, map[], map[];
      this.hasStore, scoped, nextIdent := hasStore, false, 0;
    }

    method StoreObservation(cid: Cid, seen: Observation, at: int)
      modifies this
      ensures State() == Record(old(State()), cid, seen, at)
      ensures Noted(old(State()), State(), cid, seen, at) && SameWork(old(State()), State())
    {
      var last := -1;
      if cid in observedAt { last := observedAt[cid]; }
      if at >= last {
        observations := observations[cid := seen];
        observedAt := observedAt[cid := at];
      }
    }

    method CancelledForGeneration(cid: Cid, at: int) returns (seen: Observation)
      modifies this
      ensures State() == CancelFor(old(State()), cid, at)
      ensures seen == CancellationOf(old(State()), cid, at)
      ensures Noted(old(State()), State(), cid, seen, at) && SameWork(old(State()), State()) && suspended == old(suspended)
      ensures cancelled == old(cancelled)[Past(at, cid) := seen]
      ensures Past(at, cid) in old(cancelled) ==> seen == old(cancelled)[Past(at, cid)]
      ensures Past(at, cid) !in old(cancelled) ==>
                seen == Observation(Cancelled, if cid in old(observations) then old(observations)[cid].attempts else 0, false)
    {
      if Past(at, cid) in cancelled {
        seen := cancelled[Past(at, cid)];
      } else {
        var attempts := 0;
        if cid in observations { attempts := observations[cid].attempts; }
        seen := Observation(Cancelled, attempts, false);
      }
      cancelled := cancelled[Past(at, cid) := seen];
      StoreObservation(cid, seen, at);
    }

    method StorageFailed(cid: Cid, attempts: nat)
      modifies this
      ensures State() == FailStorage(old(State()), cid, attempts)
      ensures Noted(old(State()), State(), cid, Observation(Failed, attempts, false), generation) && SameWork(old(State()), State())
      ensures suspended == old(suspended) + {cid}
    {
      suspended := suspended + {cid};
      StoreObservation(cid, Observation(Failed, attempts, false), generation);
    }

    method AdoptRecord(row: Store.Row)
      modifies this
      ensures State() == Adopt(old(State()), row)
    {
      var cid := Cid(row.key.resource);
      var seen := Observation(StateOf(row), row.attempts, false);
      if row.state == Store.Pending || row.state == Store.Failed || row.state == Store.Running {
        if cid !in pending || pending[cid].version != Some(row.version) {
          pending := pending[cid := Task(nextIdent, DueOf(row), row.attempts, generation, Some(row.version))];
          nextIdent := nextIdent + 1;
        }
      } else {
        pending := pending - {cid};
      }
      if row.state == Store.Completed {
        completed := completed[cid := seen];
      }
      StoreObservation(cid, seen, generation);
    }

    /** The in-memory branch of `schedule_cleanup_result`. */
    method ScheduleInMemory(cid: Cid, retain: bool, explicitDelay: bool, deleteAt: Time)
      modifies this
      ensures State() == ScheduleHere(old(State()), cid, retain, explicitDelay, deleteAt)
      ensures cid in old(completed) ==>
                && SameWork(old(State()), State())
                && Noted(old(State()), State(), cid, old(completed)[cid].(state := AlreadyCompleted, idempotent := true), generation)
      ensures cid !in old(completed) && retain ==>
                pending == old(pending) - {cid} && Noted(old(State()), State(), cid, Observation(Retained, 0, false), generation)
      ensures cid !in old(completed) && !retain && cid !in old(pending) ==>
                && pending == old(pending)[cid := Task(old(nextIdent), deleteAt, 0, generation, None)]
                && Noted(old(State()), State(), cid, Observation(Pending, 0, false), generation)
      ensures cid !in old(completed) && !retain && cid in old(pending) ==>
                if explicitDelay && deleteAt < old(pending)[cid].deleteAt
                then pending == old(pending)[cid := old(pending)[cid].(deleteAt := deleteAt)]
                     && Noted(old(State()), State(), cid, Observation(Pending, old(pending)[cid].attempts, true), generation)
                else pending == old(pending)
      ensures completed == old(completed) && inflight == old(inflight) && generation == old(generation)
    {
      if cid in completed {
        StoreObservation(cid, completed[cid].(state := AlreadyCompleted, idempotent := true), generation);
        return;
      }
      if retain {
        pending := pending - {cid};
        StoreObservation(cid, Observation(Retained, 0, false), generation);
        return;
      }
      var rescheduled := cid in pending && explicitDelay && deleteAt < pending[cid].deleteAt;
      if cid in pending && !rescheduled {
        var seen := Observation(Pending, pending[cid].attempts, true);
        if cid in observations && observations[cid].state == Failed {
          seen := observations[cid].(idempotent := true);
        }
        StoreObservation(cid, seen, generation);
        return;
      }
      if cid !in pending {
        pending := pending[cid := Task(nextIdent, deleteAt, 0, generation, None)];
        nextIdent := nextIdent + 1;
      } else {
        pending := pending[cid := pending[cid].(deleteAt := deleteAt)];
      }
      StoreObservation(cid, Observation(Pending, pending[cid].attempts, rescheduled), generation);
    }

    /** The locked section of `_delete_chat_result`. */
    method ClaimWork(cid: Cid, expectedGeneration: Option<int>, expected: Option<Due>, now: Time, claim: ClaimAnswer, worker: nat)
      returns (verdict: Verdict)
      modifies this
      ensures (State(), verdict) == Admit(old(State()), cid, expectedGeneration, expected, now, claim, worker)
    {
      var at := expectedGeneration.Or(generation);
      if at != generation {
        var _ := CancelledForGeneration(cid, at);
        return Superseded;
      }
      if hasStore && !scoped {
        return NoScope;
      }
      if expected.Some? {
        var due := expected.value;
        if cid !in pending {
          return NotDueAnymore;
        }
        var task := pending[cid];
        if || task.ident != due.ident || task.deleteAt != due.deleteAt || task.deleteAt > now
           || task.attempts != due.attempts || cid in inflight {
          return NotDueAnymore;
        }
      }
      if cid in completed {
        StoreObservation(cid, completed[cid].(state := AlreadyCompleted, idempotent := true), generation);
        return Already;
      }
      if cid in inflight {
        return Join(inflight[cid]);
      }
      if hasStore {
        match claim
        case ClaimFailed =>
          StorageFailed(cid, 0);
          return StorageFailure;
        case Refused(row) =>
          AdoptRecord(row.(key := row.key.(resource := cid.text)));
          return Answered;
        case Granted(row) =>
          AdoptRecord(row.(key := row.key.(resource := cid.text)));
        case NotDurable =>
      }
      inflight := inflight[cid := worker];
      return Start(worker);
    }

    /** The first locked section of `_execute_delete`. */
    method CountAttempt(cid: Cid, at: int) returns (attempts: nat)
      modifies this
      ensures State() == BeginAttempt(old(State()), cid, at)
      ensures at == generation ==> attempts == 1 + if cid in old(pending) then old(pending)[cid].attempts else 0
      ensures at == old(generation) ==>
                && pending == (if cid in old(pending) then old(pending)[cid := old(pending)[cid].(attempts := attempts)] else old(pending))
                && Noted(old(State()), State(), cid, Observation(Pending, attempts, false), at)
      ensures at != old(generation) ==> pending == old(pending)
      ensures completed == old(completed) && inflight == old(inflight)
    {
      if at != generation {
        var _ := CancelledForGeneration(cid, at);
        return 0;
      }
      attempts := 1;
      if cid in pending {
        attempts := pending[cid].attempts + 1;
        pending := pending[cid := pending[cid].(attempts := attempts)];
      }
      StoreObservation(cid, Observation(Pending, attempts, false), at);
    }

    /** The last locked section of `_execute_delete`, after a verified deletion. */
    method PublishCompleted(cid: Cid, attempts: nat, at: int) returns (seen: Observation)
      modifies this
      ensures State() == Complete(old(State()), cid, attempts, at)
      ensures seen == if at == generation then Observation(Completed, attempts, false) else CancellationOf(old(State()), cid, at)
      ensures at == old(generation) ==>
                && pending == old(pending) - {cid} && completed == old(completed)[cid := Observation(Completed, attempts, false)]
                && Noted(old(State()), State(), cid, Observation(Completed, attempts, false), at)
      ensures at != old(generation) ==> SameWork(old(State()), State())
      ensures inflight == old(inflight)
    {
      if at != generation {
        seen := CancelledForGeneration(cid, at);
        return;
      }
      seen := Observation(Completed, attempts, false);
      pending := pending - {cid};
      completed := completed[cid := seen];
      StoreObservation(cid, seen, at);
    }

    method NoteFailure(cid: Cid, attempts: nat, at: Option<int>, now: Time)
      modifies this
      ensures State() == RecordFailure(old(State()), cid, attempts, at, now)
      ensures at.Or(old(generation)) == old(generation) ==>
                && pending == old(pending)[cid := if cid in old(pending) then old(pending)[cid].(attempts := attempts)
                                                  else Task(old(nextIdent), now, attempts, generation, None)]
                && Noted(old(State()), State(), cid, Observation(Failed, attempts, false), generation)
      ensures at.Or(old(generation)) != old(generation) ==> pending == old(pending)
      ensures completed == old(completed) && inflight == old(inflight)
    {
      if at.Or(generation) != generation {
        var _ := CancelledForGeneration(cid, at.Or(generation));
        return;
      }
      if cid !in pending {
        pending := pending[cid := Task(nextIdent, now, 0, generation, None)];
        nextIdent := nextIdent + 1;
      }
      pending := pending[cid := pending[cid].(attempts := attempts)];
      StoreObservation(cid, Observation(Failed, attempts, false), generation);
    }

    /** `_finish_delete`. */
    method FinishDelete(cid: Cid, worker: nat)
      modifies this
      ensures State() == Release(old(State()), cid, worker)
      ensures inflight == if cid in old(inflight) && old(inflight)[cid] == worker then old(inflight) - {cid} else old(inflight)
      ensures pending == old(pending) && completed == old(completed) && observations == old(observations)
    {
      if cid in inflight && inflight[cid] == worker {
        inflight := inflight - {cid};
      }
    }

    /** `invalidate_authentication_context`, after the durable jobs were cancelled. */
    method InvalidateAuthenticationContext(chats: set<Cid>) returns (ids: seq<Cid>)
      modifies this
      ensures (set cid | cid in ids) == OldChats(old(State()), chats)
      ensures State() == SwitchAccount(old(State()), ids)
    {
      ghost var before := State();
      var was := generation;
      var left := set cid | cid in pending.Keys + inflight.Keys + chats && ValidId(cid);
      generation := generation + 1;
      pending, completed, inflight, scoped := map[], map[], map[], false;
      ids := [];
      while left != {}
        invariant (set cid | cid in ids) + left == OldChats(before, chats)
        invariant State() == CancelEach(Dropped(before), ids, was)
        decreases left
      {
        var cid :| cid in left;
        var _ := CancelledForGeneration(cid, was);
        assert (ids + [cid])[..|ids|] == ids;
        ids := ids + [cid];
        left := left - {cid};
      }
    }

    /** The locked section of `schedule_cleanup_result`. */
    method ScheduleCleanup(cid: Cid, retain: bool, explicitDelay: bool, deleteAt: Time, at: Option<int>, answer: DurableAnswer)
      modifies this
      ensures State() == Schedule(old(State()), cid, retain, explicitDelay, deleteAt, at, answer)
    {
      if at.Or(generation) != generation {
        var _ := CancelledForGeneration(cid, at.value);
        return;
      }
      if !hasStore {
        ScheduleInMemory(cid, retain, explicitDelay, deleteAt);
        return;
      }
      if !scoped {
        StoreObservation(cid, Observation(Cancelled, 0, false), generation);
        return;
      }
      match answer
      case StoreFailed => StorageFailed(cid, 0);
      case NoJob => ScheduleInMemory(cid, retain, explicitDelay, deleteAt);
      case Adopted(row) =>
        AdoptRecord(row.(key := row.key.(resource := cid.text)));
        var shown := StateOf(row);
        if retain && row.state == Store.Running && row.error == Some(Store.RetainAfterClaim) {
          pending := pending - {cid};
          shown := Retained;
        } else if !retain && row.state == Store.Completed {
          shown := AlreadyCompleted;
        }
        StoreObservation(cid, Observation(shown, row.attempts, shown == AlreadyCompleted), generation);
    }

    /** A durable worker's check found its authority gone. */
    method LeaveWithoutAuthority(cid: Cid, at: int, seen: Option<Store.Row>)
      modifies this
      ensures State() == LoseAuthority(old(State()), cid, at, seen)
      ensures at == old(generation) && seen.Some? ==> FollowedAs(old(State()), State(), cid, seen.value)
      ensures at != old(generation) || seen.None? ==> SameWork(old(State()), State())
    {
      if at != generation {
        var _ := CancelledForGeneration(cid, at);
        return;
      }
      if seen.Some? {
        AdoptAs(State(), cid, seen.value);
        AdoptRecord(seen.value.(key := seen.value.key.(resource := cid.text)));
      }
    }

    /** The terminal section of a durable worker. */
    method EndDurableDelete(cid: Cid, attempts: nat, at: int, end: End)
      modifies this
      ensures State() == FinishDurable(old(State()), cid, attempts, at, end)
      ensures at == old(generation) && end.Written? ==> FollowedAs(old(State()), State(), cid, end.row)
      ensures at != old(generation) || end.RowGone? ==> SameWork(old(State()), State())
      ensures at == old(generation) && end.WriteFailed? ==> cid in suspended && SameWork(old(State()), State())
    {
      if at != generation {
        var _ := CancelledForGeneration(cid, at);
        return;
      }
      match end
      case Written(row) =>
        AdoptAs(State(), cid, row);
        AdoptRecord(row.(key := row.key.(resource := cid.text)));
      case RowGone =>
      case WriteFailed => StorageFailed(cid, attempts);
    }

    /** A cancelled durable worker keeps its chat from being armed again. */
    method SuspendCancelled(cid: Cid, at: int)
      modifies this
      ensures State() == Suspend(old(State()), cid, at)
      ensures suspended == if at == old(generation) then old(suspended) + {cid} else old(suspended)
      ensures SameWork(old(State()), State()) && observations == old(observations)
    {
      if at == generation {
        suspended := suspended + {cid};
      }
    }

    /** `bind_authentication_scope`, after another scope was left. */
    method TakeScope()
      modifies this
      ensures State() == BindScope(old(State()))
      ensures scoped && suspended == {} && SameWork(old(State()), State()) && observations == old(observations)
    {
      scoped, suspended := true, {};
    }

    method RecordWaitTimeout(cid: Cid, at: Option<int>, now: Time)
      modifies this
      ensures State() == WaitTimeout(old(State()), cid, at, now)
      ensures var attempts := if cid in old(observations) then old(observations)[cid].attempts else 0;
              ValidId(cid) && at.Or(old(generation)) == old(generation) && (cid in old(observations) ==> old(observations)[cid].state == Pending) ==>
                && pending == (if cid in old(pending) then old(pending) else old(pending)[cid := Task(old(nextIdent), now, attempts, generation, None)])
                && Noted(old(State()), State(), cid, Observation(Pending, attempts, false), generation)
      ensures !ValidId(cid) || (at.Or(old(generation)) == old(generation) && cid in old(observations) && old(observations)[cid].state != Pending)
              ==> State() == old(State())
      ensures completed == old(completed) && inflight == old(inflight)
    {
      if !ValidId(cid) {
        return;
      }
      if at.Or(generation) != generation {
        var _ := CancelledForGeneration(cid, at.Or(generation));
        return;
      }
      if cid in observations && observations[cid].state != Pending {
        return;
      }
      var attempts := 0;
      if cid in observations { attempts := observations[cid].attempts; }
      if cid !in pending {
        pending := pending[cid := Task(nextIdent, now, attempts, generation, None)];
        nextIdent := nextIdent + 1;
      }
      StoreObservation(cid, Observation(Pending, attempts, false), generation);
    }
  }

  /**
   What a switch leaves behind: nothing pending, completed or in flight; every listed chat
   has its cancellation under the old generation, newer observations stay, and chats that
   are not listed keep theirs.
   */
  lemma SwitchCancels(b: Book, ids: seq<Cid>, cid: Cid)
    ensures var t := SwitchAccount(b, ids);
            && t.pending == map[] && t.completed == map[] && t.inflight == map[] && !t.scoped
            && t.generation == b.generation + 1 && t.nextIdent == b.nextIdent && t.suspended == b.suspended
            && (cid in ids ==>
                  && Past(b.generation, cid) in t.cancelled
                  && (Past(b.generation, cid) !in b.cancelled ==> t.cancelled[Past(b.generation, cid)].state == Cancelled)
                  && (ObservedAt(b, cid) <= b.generation ==>
                        cid in t.observations && t.observations[cid] == t.cancelled[Past(b.generation, cid)]))
            && (cid !in ids || ObservedAt(b, cid) > b.generation ==>
                  && ObservedAt(t, cid) == ObservedAt(b, cid)
                  && (cid in t.observations <==> cid in b.observations)
                  && (cid in b.observations ==> t.observations[cid] == b.observations[cid]))
  {
    CancelEachAt(Dropped(b), ids, b.generation, cid);
  }

  /** `t` is `b` after cancelling a batch in which `cid` is or is not listed. */
  ghost predicate CancelledIn(b: Book, t: Book, listed: bool, generation: int, cid: Cid) {
    && (listed ==>
          && Past(generation, cid) in t.cancelled
          && (ObservedAt(b, cid) <= generation ==>
                && cid in t.observations && t.observations[cid] == t.cancelled[Past(generation, cid)]
                && ObservedAt(t, cid) == generation))
    && (Past(generation, cid) in t.cancelled ==>
          if Past(generation, cid) in b.cancelled
          then t.cancelled[Past(generation, cid)] == b.cancelled[Past(generation, cid)]
          else t.cancelled[Past(generation, cid)].state == Cancelled)
    && (Past(generation, cid) in b.cancelled ==> Past(generation, cid) in t.cancelled)
    && (!listed || ObservedAt(b, cid) > generation ==>
          && ObservedAt(t, cid) == ObservedAt(b, cid)
          && (cid in t.observations <==> cid in b.observations)
          && (cid in b.observations ==> t.observations[cid] == b.observations[cid]))
  }

  lemma CancelForNotes(b: Book, cid: Cid, generation: int)
    ensures var t := CancelFor(b, cid, generation);
            && t.cancelled == b.cancelled[Past(generation, cid) := CancellationOf(b, cid, generation)]
            && Noted(b, t, cid, CancellationOf(b, cid, generation), generation)
  {
  }

  lemma CancelAnother(b: Book, t: Book, listed: bool, generation: int, cid: Cid, last: Cid)
    requires CancelledIn(b, t, listed, generation, cid) && cid != last
    ensures CancelledIn(b, CancelFor(t, last, generation), listed, generation, cid)
  {
    var u := CancelFor(t, last, generation);
    CancelForNotes(t, last, generation);
    assert ObservedAt(u, cid) == ObservedAt(t, cid);
    assert Past(generation, cid) in u.cancelled <==> Past(generation, cid) in t.cancelled;
  }

  lemma CancelThis(b: Book, t: Book, listed: bool, generation: int, cid: Cid)
    requires CancelledIn(b, t, listed, generation, cid)
    ensures CancelledIn(b, CancelFor(t, cid, generation), true, generation, cid)
  {
    CancelForNotes(t, cid, generation);
    CancelledHere(b, t, CancelFor(t, cid, generation), listed, generation, cid, CancellationOf(t, cid, generation));
  }

  lemma CancelledHere(b: Book, t: Book, u: Book, listed: bool, generation: int, cid: Cid, seen: Observation)
    requires CancelledIn(b, t, listed, generation, cid) && seen == CancellationOf(t, cid, generation)
    requires u.cancelled == t.cancelled[Past(generation, cid) := seen] && Noted(t, u, cid, seen, generation)
    ensures CancelledIn(b, u, true, generation, cid)
  {
  }

  lemma {:induction false} CancelEachAt(b: Book, ids: seq<Cid>, generation: int, cid: Cid)
    ensures CancelledIn(b, CancelEach(b, ids, generation), cid in ids, generation, cid)
    decreases |ids|
  {
    if ids != [] {
      var front, last := ids[..|ids| - 1], ids[|ids| - 1];
      assert ids == front + [last];
      CancelEachAt(b, front, generation, cid);
      if cid == last {
        CancelThis(b, CancelEach(b, front, generation), cid in front, generation, cid);
      } else {
        CancelAnother(b, CancelEach(b, front, generation), cid in front, generation, cid, last);
      }
    }
  }
}
