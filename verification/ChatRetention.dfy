/**
 When a session's source chat may be deleted (ChatService._send_session_locked in
 src/services/chat.py).

 A send stops where it awaits: while the message is being sent, and while the Task is read
 back.  Each stretch between is a function on `Chat` and a method of the class.  `log`
 lists the cleanup decisions this session issued.  `Cid` stands for valid chat ids only;
 an invalid one is None.
 */
module ChatRetention {
  import opened Common

  datatype Cid = Cid(name: string)

  /** A plain SDK session shows the id it has now; an owned one the id it was last seen with. */
  datatype Session = Plain(cid: Option<Cid>) | Owned(observed: Option<Cid>)

  datatype Strategy = Response | SessionOnly | ResponseThenSession

  datatype Client = Client(ownsChats: bool, scopesTasks: bool)

  datatype Request = Request(
    task: Option<bool>, temporary: Option<bool>, learning: bool, retain: Option<bool>, strategy: Strategy)

  datatype Phase = Idle | Sending(request: Request, monitored: bool, before: Option<Cid>) | Reading(request: Request)

  datatype Decision = Decision(cid: Cid, retain: bool)

  datatype Chat = Chat(
    session: Session,
    upstream: Option<Cid>,
    taskMode: bool,
    taskPending: bool,
    recoveryPending: bool,
    temporary: bool,
    learning: bool,
    retain: bool,
    phase: Phase,
    log: seq<Decision>)

  function SessionCid(s: Session): Option<Cid> {
    match s
    case Plain(cid) => cid
    case Owned(observed) => observed
  }

  function Source(c: Chat): Option<Cid> {
    SessionCid(c.session).Else(c.upstream)
  }

  function Issue(log: seq<Decision>, cid: Option<Cid>, retain: bool): seq<Decision> {
    if cid.Some? then log + [Decision(cid.value, retain)] else log
  }

  function RetainSource(c: Chat): Chat {
    c.(log := Issue(c.log, Source(c), true))
  }

  // ---------------------------------------------------------------- stretches of one send

  predicate Invalid(c: Chat, r: Request) {
    (r.task.Or(c.taskMode) || c.taskPending) && (r.learning || c.learning || r.temporary.Or(c.temporary))
  }

  predicate Blank(c: Chat) {
    Source(c).None? && c.session.Plain?
  }

  predicate Incapable(c: Chat, task: bool, client: Client, sendLocked: bool) {
    task && (!client.scopesTasks || (Blank(c) && (sendLocked || !client.ownsChats)))
  }

  predicate Accepted(c: Chat, r: Request, client: Client, sendLocked: bool) {
    c.phase.Idle? && !Invalid(c, r) && !Incapable(c, r.task.Or(c.taskMode), client, sendLocked)
  }

  /** A blank session becomes an owned one, unless only an older Task is being watched. */
  function Adopted(c: Chat, task: bool, client: Client, sendLocked: bool): Session {
    if Blank(c) && client.ownsChats && !sendLocked && (task || !c.taskPending) then Owned(None) else c.session
  }

  function Begin(c: Chat, r: Request, client: Client, sendLocked: bool): Chat
    requires Accepted(c, r, client, sendLocked)
  {
    var task := r.task.Or(c.taskMode);
    var monitored := task || c.taskPending;
    var a := c.(session := Adopted(c, task, client, sendLocked));
    var m := if monitored then a.(taskPending := true) else a.(recoveryPending := true);
    var kept := if monitored || client.ownsChats then RetainSource(m) else m;
    kept.(taskMode := task, phase := Sending(r, monitored, SessionCid(a.session)))
  }

  /** The SDK stores a chat id in the session; an owned session reports a new one at once. */
  function Observe(c: Chat, cid: Cid): Chat {
    match c.session
    case Plain(_) => c.(session := Plain(Some(cid)))
    case Owned(observed) =>
      c.(session := Owned(Some(cid)), log := if observed == Some(cid) then c.log else Issue(c.log, Some(cid), true))
  }

  /** The SDK restores the metadata a session had before the failed send. */
  function Rollback(c: Chat): Chat
    requires c.phase.Sending?
  {
    if c.session.Plain? then c.(session := Plain(c.phase.before))
    else if c.phase.before.Some? then Observe(c, c.phase.before.value)
    else c
  }

  function Abandoned(c: Chat): Chat
    requires c.phase.Sending?
  {
    RetainSource(c.(upstream := Source(c), phase := Idle))
  }

  function Raised(c: Chat): Chat
    requires c.phase.Sending?
  {
    var monitored := c.phase.monitored;
    RetainSource(c.(upstream := Source(c), taskPending := c.taskPending || monitored,
                    recoveryPending := c.recoveryPending || !monitored, phase := Idle))
  }

  /** The send was refused: the session is gone, or an account switch took it (with a late answer or none). */
  function Refused(c: Chat, answer: Option<Cid>): Chat
    requires c.phase.Sending?
  {
    c.(upstream := answer.Else(c.upstream), phase := Idle)
  }

  function Policy(c: Chat, r: Request): bool {
    r.retain.Or(c.retain)
  }

  function Answered(c: Chat, answer: Option<Cid>, live: bool): Chat
    requires c.phase.Sending?
  {
    var r := c.phase.request;
    var done := c.(recoveryPending := false, upstream := if live then SessionCid(c.session) else c.upstream);
    if c.phase.monitored then done.(phase := Reading(r))
    else
      var cid := if r.strategy.SessionOnly? || (r.strategy.ResponseThenSession? && answer.None?) then Source(done) else answer;
      done.(log := Issue(c.log, cid, Policy(c, r)), phase := Idle)
  }

  function TaskRead(c: Chat, terminal: bool): Chat
    requires c.phase.Reading?
  {
    c.(taskPending := !terminal, log := Issue(c.log, Source(c), !terminal || Policy(c, c.phase.request)), phase := Idle)
  }

  /** The chat id a session is known by: the one it shows, or else the one remembered for it. */
  predicate KnownAs(session: Session, upstream: Option<Cid>, source: Option<Cid>) {
    match session
    case Plain(cid) => source == if cid.Some? then cid else upstream
    case Owned(observed) => source == if observed.Some? then observed else upstream
  }

  class ChatSession {
    var session: Session
    var upstream: Option<Cid>
    var taskMode: bool
    var taskPending: bool
    var recoveryPending: bool
    const temporary: bool
    const learning: bool
    const retain: bool
    var phase: Phase
    var log: seq<Decision>

    function State(): Chat
      reads this
    {
      Chat(session, upstream, taskMode, taskPending, recoveryPending, temporary, learning, retain, phase, log)
    }

    constructor (session: Session, taskMode: bool, temporary: bool, learning: bool, retain: bool)
      ensures State() == Chat(session, None, taskMode, taskMode, false, temporary, learning, retain, Idle, [])
    {
      this.session, upstream := session, None;
      this.taskMode, taskPending, recoveryPending := taskMode, taskMode, false;
      this.temporary, this.learning, this.retain := temporary, learning, retain;
      phase, log := Idle, [];
    }

    method Keep()
      modifies this`log
      ensures State() == RetainSource(old(State()))
      ensures exists source :: KnownAs(session, upstream, source)
                               && log == if source.Some? then old(log) + [Decision(source.value, true)] else old(log)
    {
      var source := Source(State());
      if source.Some? {
        log := log + [Decision(source.value, true)];
      }
    }

    /** Checks what may be asked of this session and client before anything is changed. */
    method Admit(r: Request, client: Client, sendLocked: bool) returns (accepted: bool)
      requires phase.Idle?
      ensures accepted <==> Accepted(State(), r, client, sendLocked)
      ensures var monitored := r.task.Or(taskMode) || taskPending; var blank := session == Plain(None) && upstream == None;
              accepted <==>
                && (monitored ==> !r.learning && !learning && !r.temporary.Or(temporary))
                && (r.task.Or(taskMode) ==> client.scopesTasks && (blank ==> !sendLocked && client.ownsChats))
    {
      var task := r.task.Or(taskMode);
      if (task || taskPending) && (r.learning || learning || r.temporary.Or(temporary)) {
        return false;
      }
      if task && !client.scopesTasks {
        return false;
      }
      if task && session.Plain? && session.cid.None? && upstream.None? {
        return !sendLocked && client.ownsChats;
      }
      return true;
    }

    method StartSend(r: Request, client: Client, sendLocked: bool) returns (started: bool)
      requires phase.Idle?
      modifies this
      ensures started <==> Accepted(old(State()), r, client, sendLocked)
      ensures State() == if started then Begin(old(State()), r, client, sendLocked) else old(State())
    {
      started := Admit(r, client, sendLocked);
      if !started {
        return;
      }
      var task := r.task.Or(taskMode);
      var monitored := task || taskPending;
      session := Adopted(State(), task, client, sendLocked);
      if monitored {
        taskPending := true;
      } else {
        recoveryPending := true;
      }
      if monitored || client.ownsChats {
        Keep();
      }
      taskMode := task;
      phase := Sending(r, monitored, SessionCid(session));
    }

    method ObserveChat(cid: Cid)
      modifies this
      ensures State() == Observe(old(State()), cid)
      ensures session == if old(session).Plain? then Plain(Some(cid)) else Owned(Some(cid))
      ensures log == if old(session).Plain? || old(session) == Owned(Some(cid)) then old(log) else old(log) + [Decision(cid, true)]
      ensures upstream == old(upstream) && taskPending == old(taskPending) && recoveryPending == old(recoveryPending) && phase == old(phase)
    {
      if session.Plain? {
        session := Plain(Some(cid));
      } else {
        var changed := session.observed != Some(cid);
        session := Owned(Some(cid));
        if changed {
          log := log + [Decision(cid, true)];
        }
      }
    }

    method FailSend(cancelled: bool)
      requires phase.Sending?
      modifies this
      ensures State() == if cancelled then Abandoned(old(State())) else Raised(old(State()))
      ensures KnownAs(old(session), old(upstream), upstream) && session == old(session) && phase.Idle?
      ensures log == if upstream.Some? then old(log) + [Decision(upstream.value, true)] else old(log)
      ensures taskPending == (old(taskPending) || (!cancelled && old(phase).monitored))
      ensures recoveryPending == (old(recoveryPending) || (!cancelled && !old(phase).monitored))
    {
      upstream := Source(State());
      if !cancelled {
        if phase.monitored {
          taskPending := true;
        } else {
          recoveryPending := true;
        }
      }
      Keep();
      phase := Idle;
    }

    /** The session service refused the send, perhaps with the late answer of an old account. */
    method RefuseSend(answer: Option<Cid>)
      requires phase.Sending?
      modifies this
      ensures State() == Refused(old(State()), answer)
      ensures upstream == (if answer.Some? then answer else old(upstream)) && phase.Idle? && log == old(log) && session == old(session)
      ensures taskPending == old(taskPending) && recoveryPending == old(recoveryPending)
    {
      if answer.Some? {
        upstream := answer;
      }
      phase := Idle;
    }

    method FinishSend(answer: Option<Cid>, live: bool)
      requires phase.Sending?
      modifies this
      ensures State() == Answered(old(State()), answer, live)
    {
      if live {
        upstream := SessionCid(session);
      }
      recoveryPending := false;
      var r := phase.request;
      if phase.monitored {
        phase := Reading(r);
        return;
      }
      var keep := r.retain.Or(retain);
      phase := Idle;
      if !r.strategy.SessionOnly? {
        if answer.Some? {
          log := log + [Decision(answer.value, keep)];
        }
        if answer.Some? || r.strategy.Response? {
          return;
        }
      }
      log := Issue(log, Source(State()), keep);
    }

    method FinishTask(terminal: bool)
      requires phase.Reading?
      modifies this
      ensures State() == TaskRead(old(State()), terminal)
      ensures taskPending == !terminal && recoveryPending == old(recoveryPending) && session == old(session) && upstream == old(upstream) && phase.Idle?
      ensures var r := old(phase).request; var keep := !terminal || (if r.retain.Some? then r.retain.value else retain);
              exists source :: KnownAs(session, upstream, source)
                               && log == if source.Some? then old(log) + [Decision(source.value, keep)] else old(log)
    {
      taskPending := !terminal;
      log := Issue(log, Source(State()), if taskPending then true else phase.request.retain.Or(retain));
      phase := Idle;
    }
  }

  // ---------------------------------------------------------------- runs

  datatype Event =
    | StartSend(request: Request, client: Client, sendLocked: bool)
    | ObserveChat(cid: Cid)
    | RollBack
    | CancelSend
    | RaiseSend
    | RefuseSend(answer: Option<Cid>)
    | AnswerSend(answer: Option<Cid>, live: bool)
    | ReadTask(terminal: bool)
    | CancelRead

  function Step(c: Chat, e: Event): Chat {
    match e
    case StartSend(r, client, sendLocked) => if Accepted(c, r, client, sendLocked) then Begin(c, r, client, sendLocked) else c
    case ObserveChat(cid) => Observe(c, cid)
    case RollBack => if c.phase.Sending? then Rollback(c) else c
    case CancelSend => if c.phase.Sending? then Abandoned(c) else c
    case RaiseSend => if c.phase.Sending? then Raised(c) else c
    case RefuseSend(answer) => if c.phase.Sending? then Refused(c, answer) else c
    case AnswerSend(answer, live) => if c.phase.Sending? then Answered(c, answer, live) else c
    case ReadTask(terminal) => if c.phase.Reading? then TaskRead(c, terminal) else c
    case CancelRead => if c.phase.Reading? then c.(phase := Idle) else c
  }

  function Run(c: Chat, events: seq<Event>): Chat
    decreases |events|
  {
    if events == [] then c else Step(Run(c, events[..|events| - 1]), events[|events| - 1])
  }

  /** A session as start_session makes it: a task session is owned from the start. */
  predicate New(c: Chat) {
    && c.phase.Idle? && c.log == [] && c.upstream.None? && !c.recoveryPending && c.taskPending == c.taskMode
    && SessionCid(c.session).None? && (c.taskMode ==> c.session.Owned?)
  }

  /** The last decision issued for `cid`, if any, was to retain it. */
  predicate Kept(log: seq<Decision>, cid: Cid)
    decreases |log|
  {
    log != [] && (if log[|log| - 1].cid == cid then log[|log| - 1].retain else Kept(log[..|log| - 1], cid))
  }

  predicate Pending(c: Chat) { c.taskPending || c.recoveryPending }

  /** While a Task or a recovery is pending, the known source was last retained. */
  predicate Retained(c: Chat) {
    Pending(c) && Source(c).Some? ==> Kept(c.log, Source(c).value)
  }

  predicate PhaseOk(c: Chat) {
    match c.phase
    case Idle => true
    case Sending(_, monitored, _) => if monitored then c.taskPending else c.recoveryPending && !c.taskPending
    case Reading(_) => c.taskPending && !c.recoveryPending
  }

  predicate Unkept(c: Chat, cid: Option<Cid>) { cid.Some? && !Kept(c.log, cid.value) }

  /**
   The steps that leave a pending source without a retaining decision: a session that is
   not owned shows a new id (stored, restored, or in the late answer after an account
   switch), or a client without owned chats starts a watchless send.
   */
  predicate Exposes(c: Chat, e: Event) {
    match e
    case StartSend(r, client, sendLocked) =>
      Accepted(c, r, client, sendLocked) && !client.ownsChats && !r.task.Or(c.taskMode) && !c.taskPending && Unkept(c, Source(c))
    case ObserveChat(cid) => c.session.Plain? && Pending(c) && Unkept(c, Some(cid))
    case RollBack => c.phase.Sending? && c.session.Plain? && Unkept(c, c.phase.before.Else(c.upstream))
    case RefuseSend(answer) => c.phase.Sending? && SessionCid(c.session).None? && Unkept(c, answer.Else(c.upstream))
    case _ => false
  }

  lemma IssueKept(log: seq<Decision>, cid: Option<Cid>, retain: bool)
    ensures cid.Some? ==> (Kept(Issue(log, cid, retain), cid.value) <==> retain)
    ensures forall other :: Some(other) != cid ==> (Kept(Issue(log, cid, retain), other) <==> Kept(log, other))
  {
    if cid.Some? { assert Issue(log, cid, retain)[..|log|] == log; }
  }

  lemma StepPhase(c: Chat, e: Event)
    requires PhaseOk(c)
    ensures PhaseOk(Step(c, e))
  {
  }

  /** What a send that starts changes, field by field. */
  lemma StartSets(c: Chat, r: Request, client: Client, sendLocked: bool)
    requires Accepted(c, r, client, sendLocked)
    ensures var d := Step(c, StartSend(r, client, sendLocked));
            var task := r.task.Or(c.taskMode); var monitored := task || c.taskPending;
            && d.taskMode == task && d.taskPending == (c.taskPending || task) && d.recoveryPending == (c.recoveryPending || !monitored)
            && d.upstream == c.upstream && d.phase.Sending? && d.phase.request == r && d.phase.monitored == monitored
            && d.session == if c.session == Plain(None) && c.upstream == None && client.ownsChats && !sendLocked
                               && (task || !c.taskPending) then Owned(None) else c.session
  {
  }

  /** What an answer changes: recovery is over, and without a Task the one decision follows strategy and policy. */
  lemma AnswerSets(c: Chat, answer: Option<Cid>, live: bool)
    requires c.phase.Sending?
    ensures var d := Step(c, AnswerSend(answer, live)); var r := c.phase.request;
            && !d.recoveryPending && d.taskPending == c.taskPending && d.session == c.session
            && d.upstream == (if live then SessionCid(c.session) else c.upstream)
            && (c.phase.monitored ==> d.phase == Reading(r) && d.log == c.log)
            && (!c.phase.monitored ==> d.phase.Idle?)
  {
  }

  lemma AnswerDecides(c: Chat, answer: Option<Cid>, live: bool, source: Option<Cid>)
    requires c.phase.Sending? && !c.phase.monitored
    requires KnownAs(c.session, if live then SessionCid(c.session) else c.upstream, source)
    ensures var d := Step(c, AnswerSend(answer, live)); var r := c.phase.request;
            var keep := if r.retain.Some? then r.retain.value else c.retain;
            var decided := match r.strategy
                           case Response => answer
                           case SessionOnly => source
                           case ResponseThenSession => if answer.Some? then answer else source;
            d.log == if decided.Some? then c.log + [Decision(decided.value, keep)] else c.log
  {
  }

  /** A restored id is shown again, and an owned session reports it if it is new to it. */
  lemma RollBackShows(c: Chat)
    requires c.phase.Sending?
    ensures var d := Step(c, RollBack); var before := c.phase.before;
            && (c.session.Plain? ==> d.session == Plain(before) && d.log == c.log)
            && (c.session.Owned? && before.Some? ==>
                  && d.session == Owned(before)
                  && d.log == if c.session.observed == before then c.log else c.log + [Decision(before.value, true)])
            && (c.session.Owned? && before.None? ==> d == c)
  {
  }

  /** A send that starts retains its source at once, unless neither a Task is watched nor chats are owned. */
  lemma StartRetains(c: Chat, r: Request, client: Client, sendLocked: bool, cid: Cid)
    requires Accepted(c, r, client, sendLocked) && KnownAs(c.session, c.upstream, Some(cid))
    ensures var d := Step(c, StartSend(r, client, sendLocked));
            d.log == if r.task.Or(c.taskMode) || c.taskPending || client.ownsChats then c.log + [Decision(cid, true)] else c.log
  {
  }

  lemma BeginBreaks(c: Chat, r: Request, client: Client, sendLocked: bool)
    requires PhaseOk(c) && Retained(c) && Accepted(c, r, client, sendLocked)
    ensures !Retained(Begin(c, r, client, sendLocked)) <==> Exposes(c, StartSend(r, client, sendLocked))
  {
    IssueKept(c.log, Source(c), true);
  }

  lemma ShowBreaks(c: Chat, cid: Cid)
    requires PhaseOk(c) && Retained(c)
    ensures !Retained(Observe(c, cid)) <==> c.session.Plain? && Pending(c) && Unkept(c, Some(cid))
  {
    IssueKept(c.log, Some(cid), true);
  }

  lemma RollbackBreaks(c: Chat)
    requires PhaseOk(c) && Retained(c) && c.phase.Sending?
    ensures !Retained(Rollback(c)) <==> Exposes(c, RollBack)
  {
    if c.phase.before.Some? { ShowBreaks(c, c.phase.before.value); }
  }

  lemma FailureRetains(c: Chat)
    requires c.phase.Sending?
    ensures Retained(Abandoned(c)) && Retained(Raised(c))
  {
    IssueKept(c.log, Source(c), true);
  }

  lemma TaskReadRetains(c: Chat, terminal: bool)
    requires c.phase.Reading? && PhaseOk(c)
    ensures Retained(TaskRead(c, terminal))
  {
    IssueKept(c.log, Source(c), !terminal || Policy(c, c.phase.request));
  }

  lemma AnswerRetains(c: Chat, answer: Option<Cid>, live: bool)
    requires c.phase.Sending? && PhaseOk(c) && Retained(c)
    ensures Retained(Answered(c, answer, live))
  {
  }

  /** A step breaks the retention of a pending source exactly when it is one that exposes it. */
  lemma BrokenExactly(c: Chat, e: Event)
    requires PhaseOk(c) && Retained(c)
    ensures !Retained(Step(c, e)) <==> Exposes(c, e)
  {
    match e
    case StartSend(r, client, sendLocked) => if Accepted(c, r, client, sendLocked) { BeginBreaks(c, r, client, sendLocked); }
    case ObserveChat(cid) => ShowBreaks(c, cid);
    case RollBack => if c.phase.Sending? { RollbackBreaks(c); }
    case CancelSend => if c.phase.Sending? { FailureRetains(c); }
    case RaiseSend => if c.phase.Sending? { FailureRetains(c); }
    case RefuseSend(_) =>
    case AnswerSend(answer, live) => if c.phase.Sending? { AnswerRetains(c, answer, live); }
    case ReadTask(terminal) => if c.phase.Reading? { TaskReadRetains(c, terminal); }
    case CancelRead =>
  }

  ghost predicate NeverExposed(c: Chat, events: seq<Event>) {
    forall n :: 0 <= n < |events| ==> !Exposes(Run(c, events[..n]), events[n])
  }

  /** Over a whole run: no exposing step, then the pending source is retained at every point. */
  lemma {:induction false} RetainedThroughout(c: Chat, events: seq<Event>)
    requires PhaseOk(c) && Retained(c) && NeverExposed(c, events)
    ensures PhaseOk(Run(c, events)) && Retained(Run(c, events))
    decreases |events|
  {
    if events != [] {
      var less := events[..|events| - 1];
      forall n | 0 <= n < |less| ensures !Exposes(Run(c, less[..n]), less[n]) { assert less[..n] == events[..n]; }
      RetainedThroughout(c, less);
      StepPhase(Run(c, less), events[|events| - 1]);
      BrokenExactly(Run(c, less), events[|events| - 1]);
    }
  }

  // ---------------------------------------------------------------- clients that support owned chats

  /**
   The client supports owned chats, no direct send runs on the session until it is owned,
   and the SDK stores a chat id in the session before it answers with it.
   */
  predicate Through(c: Chat, e: Event) {
    match e
    case StartSend(_, client, sendLocked) => client.ownsChats && (sendLocked ==> c.session.Owned?)
    case ObserveChat(_) => c.session.Owned?
    case RefuseSend(answer) => answer.Some? ==> SessionCid(c.session).Some?
    case _ => true
  }

  /** A session that is not owned yet has not been used. */
  predicate OwnedOnceUsed(c: Chat) {
    c.session.Plain? ==> Source(c).None? && c.upstream.None? && !c.taskPending && c.phase.Idle?
  }

  predicate UpstreamOk(c: Chat) {
    c.upstream.Some? ==> SessionCid(c.session).Some?
  }

  lemma ThroughKeeps(c: Chat, e: Event)
    requires Through(c, e) && PhaseOk(c) && OwnedOnceUsed(c) && UpstreamOk(c)
    ensures OwnedOnceUsed(Step(c, e)) && UpstreamOk(Step(c, e)) && !Exposes(c, e)
  {
  }

  /**
   For clients that support owned chats: at every point of a session's life, while a Task
   or a recovery is pending and the source is known, the last decision issued for that
   source is to retain it.
   */
  lemma {:induction false} PendingSourceRetained(c: Chat, events: seq<Event>)
    requires New(c) && forall n :: 0 <= n < |events| ==> Through(Run(c, events[..n]), events[n])
    ensures var d := Run(c, events); PhaseOk(d) && OwnedOnceUsed(d) && UpstreamOk(d) && Retained(d)
    decreases |events|
  {
    if events != [] {
      var less := events[..|events| - 1];
      forall n | 0 <= n < |less| ensures Through(Run(c, less[..n]), less[n]) { assert less[..n] == events[..n]; }
      PendingSourceRetained(c, less);
      StepPhase(Run(c, less), events[|events| - 1]);
      ThroughKeeps(Run(c, less), events[|events| - 1]);
      BrokenExactly(Run(c, less), events[|events| - 1]);
    }
  }

  /** Without that, the promise fails: a direct send holds the send lock, so the session stays plain. */
  lemma PlainSessionExposed(c: Chat, r: Request, client: Client, cid: Cid)
    requires New(c) && c.session.Plain? && !r.task.Or(false)
    ensures var d := Run(c, [StartSend(r, client, true), ObserveChat(cid)]);
            Pending(d) && Source(d) == Some(cid) && !Kept(d.log, cid)
  {
    var events := [StartSend(r, client, true), ObserveChat(cid)];
    assert events[..1] == [events[0]] && [events[0]][..0] == [];
    assert Run(c, [events[0]]) == Step(Run(c, []), events[0]);
  }

  // ---------------------------------------------------------------- decisions that delete

  /** A response was received, and its Task, if one was watched, was read back as terminal. */
  predicate Settles(c: Chat, e: Event) {
    (e.AnswerSend? && c.phase.Sending? && !c.phase.monitored) || (e.ReadTask? && c.phase.Reading? && e.terminal)
  }

  /** What a step may add to the log: one decision, which retains unless the step settles. */
  predicate Adds(log: seq<Decision>, more: seq<Decision>, settled: bool) {
    && log <= more && |more| <= |log| + 1
    && (|more| > |log| && !more[|log|].retain ==> settled)
  }

  lemma IssueAdds(log: seq<Decision>, cid: Option<Cid>, retain: bool)
    ensures Adds(log, Issue(log, cid, retain), !retain)
    ensures Adds(log, log, false)
  {
  }

  lemma SettlingEnds(c: Chat, e: Event)
    requires PhaseOk(c) && Settles(c, e)
    ensures !Pending(Step(c, e))
  {
  }

  lemma OnlySettledMayDelete(c: Chat, e: Event)
    requires PhaseOk(c)
    ensures Adds(c.log, Step(c, e).log, Settles(c, e)) && (Settles(c, e) ==> !Pending(Step(c, e)))
  {
    if Settles(c, e) { SettlingEnds(c, e); }
    match e
    case StartSend(r, client, sendLocked) =>
      if Accepted(c, r, client, sendLocked) { BeginAdds(c, r, client, sendLocked); }
    case AnswerSend(answer, live) => if c.phase.Sending? { AnswerAdds(c, answer, live); }
    case ReadTask(terminal) => if c.phase.Reading? { IssueAdds(c.log, Source(c), !terminal || Policy(c, c.phase.request)); }
    case _ => OtherAdds(c, e);
  }

  lemma OtherAdds(c: Chat, e: Event)
    requires !e.StartSend? && !e.AnswerSend? && !e.ReadTask?
    ensures Adds(c.log, Step(c, e).log, false)
  {
    match e
    case ObserveChat(cid) => ObserveAdds(c, cid);
    case RollBack => if c.phase.Sending? && c.phase.before.Some? { ObserveAdds(c, c.phase.before.value); }
    case CancelSend => IssueAdds(c.log, Source(c), true);
    case RaiseSend => IssueAdds(c.log, Source(c), true);
    case RefuseSend(_) =>
    case CancelRead =>
  }

  lemma ObserveAdds(c: Chat, cid: Cid)
    ensures Adds(c.log, Observe(c, cid).log, false)
  {
  }

  lemma AnswerAdds(c: Chat, answer: Option<Cid>, live: bool)
    requires c.phase.Sending?
    ensures Adds(c.log, Answered(c, answer, live).log, !c.phase.monitored)
  {
  }

  lemma BeginAdds(c: Chat, r: Request, client: Client, sendLocked: bool)
    requires Accepted(c, r, client, sendLocked)
    ensures Adds(c.log, Begin(c, r, client, sendLocked).log, false)
  {
    IssueAdds(c.log, Source(c), true);
  }

  /** Over a whole run, every decision that allows deletion was issued by a settling step. */
  lemma {:induction false} DeletionsWereSettled(c: Chat, events: seq<Event>, k: nat) returns (n: nat)
    requires PhaseOk(c) && |c.log| <= k < |Run(c, events).log| && !Run(c, events).log[k].retain
    ensures n < |events| && |Run(c, events[..n]).log| == k
    ensures Settles(Run(c, events[..n]), events[n]) && !Pending(Run(c, events[..n + 1]))
    decreases |events|
  {
    var less := events[..|events| - 1];
    PhaseThroughout(c, less);
    OnlySettledMayDelete(Run(c, less), events[|events| - 1]);
    if k < |Run(c, less).log| {
      n := DeletionsWereSettled(c, less, k);
      assert less[..n] == events[..n] && less[..n + 1] == events[..n + 1];
    } else {
      n := |events| - 1;
      assert events[..n + 1] == events;
    }
  }

  lemma {:induction false} PhaseThroughout(c: Chat, events: seq<Event>)
    requires PhaseOk(c)
    ensures PhaseOk(Run(c, events))
    decreases |events|
  {
    if events != [] {
      PhaseThroughout(c, events[..|events| - 1]);
      StepPhase(Run(c, events[..|events| - 1]), events[|events| - 1]);
    }
  }
}
