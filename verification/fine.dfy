// The protocol at the fine grain: every SQL statement and every publish of
// every handler is a step of its own, with any number of handlers at any point.

module Fine {
  import opened Domain
  import opened Schema
  import opened Query
  import opened Pipeline
  import opened Coarse
  import opened Batch

  // Where a handler is: each point but the last names its next call.
  datatype PassAt = Top | WritePending | WriteDeadLettered | CountFailed
  datatype ReplayAt =
    | Lookup
    | Restart(dl: DeadLetter)
    | Reenqueue(dl: DeadLetter)
    | Discard(dl: DeadLetter)
    | CountReplayed(dl: DeadLetter)
    | Ended(code: Code)
  datatype WorkerAt = MarkDispatched | CountDispatched | Asleep | CountDelivered | Gone
  datatype SendAt = Create | CountAccepted | Enqueue | Answered(code: Code)

  datatype Handler =
    | Pass(batch: seq<Job>, i: nat, pass: PassAt)
    | Replayer(caller: Id, letterId: Id, replay: ReplayAt)
    | Worker(message: Job, worker: WorkerAt)
    | Sender(serviceId: Id, payload: Option<Payload>, requestId: Id, send: SendAt)

  // The calls that took effect, as far as the theorems count them.
  datatype Effect = ResetOf(id: Id) | PublishOf(id: Id) | BurialOf(id: Id) | FailureOf(id: Id, serviceId: Id)

  datatype State = State(
    db: Tables,
    queue: multiset<Job>,
    handlers: map<Id, Handler>,
    history: seq<Effect>)

  datatype CallEnv = CallEnv(outcome: Outcome, letterId: Id, now: Time)

  datatype Action =
    | Poll(h: Id, batch: seq<Job>, now: Time)
    | BeginReplay(h: Id, caller: Id, letterId: Id)
    | BeginSend(h: Id, serviceId: Id, payload: Option<Payload>, requestId: Id)
    | Receive(h: Id, message: Job)
    | Act(h: Id, env: CallEnv)
    | FailAction(id: Id, at: Time, outcome: Outcome)

  // ----- one call of one handler -----

  datatype NextCall = NoCall | Sql(st: Statement) | Pub(message: Job)

  function PassCall(cfg: Config, job: Job, at: PassAt, env: CallEnv): NextCall {
    match at
    case Top =>
      if ShouldRetry(cfg, job.retryCount) then (if job.payload.Malformed? then NoCall else Pub(job))
      else if cfg.dlq then Sql(Letter(LetterFor(job, env.letterId, env.now)))
      else NoCall
    case WritePending => Sql(Update(job.requestId, PENDING))
    case WriteDeadLettered => Sql(Update(job.requestId, DEAD_LETTERED))
    case CountFailed => Sql(Count(job.serviceId, FAILED, env.now))
  }

  function ReplayCall(at: ReplayAt, env: CallEnv): NextCall {
    match at
    case Lookup => NoCall
    case Restart(dl) => Sql(Reset(ReplayJob(dl)))
    case Reenqueue(dl) => Pub(ReplayJob(dl))
    case Discard(dl) => Sql(Unletter(dl.notificationId))
    case CountReplayed(dl) => Sql(Count(dl.serviceId, ACCEPTED, env.now))
    case Ended(_) => NoCall
  }

  function WorkerCall(message: Job, at: WorkerAt, env: CallEnv): NextCall {
    match at
    case MarkDispatched => Sql(Update(message.requestId, DISPATCHED))
    case CountDispatched => Sql(Count(message.serviceId, DISPATCHED, env.now))
    case Asleep => Sql(Update(message.requestId, DELIVERED))
    case CountDelivered => Sql(Count(message.serviceId, DELIVERED, env.now))
    case Gone => NoCall
  }

  function SendCall(job: Job, at: SendAt, env: CallEnv): NextCall {
    match at
    case Create => Sql(Insert(job))
    case CountAccepted => Sql(Count(job.serviceId, ACCEPTED, env.now))
    case Enqueue => Pub(job)
    case Answered(_) => NoCall
  }

  function CallOf(cfg: Config, hd: Handler, env: CallEnv): NextCall {
    match hd
    case Pass(batch, i, pass) => if i < |batch| then PassCall(cfg, batch[i], pass, env) else NoCall
    case Replayer(_, _, replay) => ReplayCall(replay, env)
    case Worker(message, worker) => WorkerCall(message, worker, env)
    case Sender(serviceId, payload, requestId, send) => SendCall(NewJob(serviceId, payload, requestId), send, env)
  }

  // Whether the handler sees its call succeed.
  predicate Succeeds(db: Tables, call: NextCall, outcome: Outcome) {
    outcome.Clean? && (call.Sql? ==> Accepted(db, call.st))
  }

  predicate Accepted(db: Tables, st: Statement) {
    match st
    case Insert(job) => JobAccepted(db, job)
    case Fail(id, _) => FailAccepted(db, id)
    case Reset(job) => ResetAccepted(db, job)
    case Letter(dl) => LetterAccepted(db, dl)
    case Count(serviceId, _, _) => StatAccepted(db, serviceId)
    case Register(svc) => ServiceAccepted(db, svc)
    case Unregister(id, _) => DeleteFindsService(db, id)
    case _ => true
  }

  // A failed call ends the job's iteration, never the pass.
  function NextPass(cfg: Config, hd: Handler, ok: bool): Handler
    requires hd.Pass?
  {
    if hd.i >= |hd.batch| then hd
    else
      var job, over := hd.batch[hd.i], hd.(i := hd.i + 1, pass := Top);
      match hd.pass
      case Top =>
        if ShouldRetry(cfg, job.retryCount) then
          (if ok && job.payload.Json? then hd.(pass := WritePending) else over)
        else if ok || !cfg.dlq then hd.(pass := WriteDeadLettered)
        else over
      case WritePending => over
      case WriteDeadLettered => if ok then hd.(pass := CountFailed) else over
      case CountFailed => over
  }

  function NextReplay(db: Tables, hd: Handler, ok: bool): Handler
    requires hd.Replayer?
  {
    match hd.replay
    case Lookup =>
      if !ok then hd.(replay := Ended(Internal))
      else if hd.letterId !in db.letters then hd.(replay := Ended(NotFound))
      else if db.letters[hd.letterId].serviceId != hd.caller then hd.(replay := Ended(PermissionDenied))
      else if db.letters[hd.letterId].payload.Malformed? then hd.(replay := Ended(Internal))
      else hd.(replay := Restart(db.letters[hd.letterId]))
    case Restart(dl) => hd.(replay := if ok then Reenqueue(dl) else Ended(Internal))
    case Reenqueue(dl) => hd.(replay := if ok then Discard(dl) else Ended(Internal))
    case Discard(dl) => hd.(replay := if ok then CountReplayed(dl) else Ended(Internal))
    case CountReplayed(dl) => hd.(replay := Ended(OK))
    case Ended(_) => hd
  }

  function NextWorker(hd: Handler, ok: bool): Handler
    requires hd.Worker?
  {
    match hd.worker
    case MarkDispatched => hd.(worker := if ok then CountDispatched else Gone)
    case CountDispatched => hd.(worker := Asleep)
    case Asleep => hd.(worker := CountDelivered)
    case CountDelivered => hd.(worker := Gone)
    case Gone => hd
  }

  function NextSend(hd: Handler, ok: bool): Handler
    requires hd.Sender?
  {
    match hd.send
    case Create => hd.(send := if ok then CountAccepted else Answered(Internal))
    case CountAccepted => hd.(send := Enqueue)
    case Enqueue => hd.(send := Answered(if ok then OK else Internal))
    case Answered(_) => hd
  }

  function Next(cfg: Config, db: Tables, hd: Handler, ok: bool): Handler {
    match hd
    case Pass(_, _, _) => NextPass(cfg, hd, ok)
    case Replayer(_, _, _) => NextReplay(db, hd, ok)
    case Worker(_, _) => NextWorker(hd, ok)
    case Sender(_, _, _, _) => NextSend(hd, ok)
  }

  function DbAfter(db: Tables, call: NextCall, outcome: Outcome): Tables {
    if call.Sql? then Call(outcome, db, Exec(db, call.st)) else db
  }

  function QueueAfter(queue: multiset<Job>, call: NextCall, outcome: Outcome): multiset<Job> {
    if call.Pub? then Call(outcome, queue, queue + multiset{call.message}) else queue
  }

  function EffectsOf(db: Tables, hd: Handler, call: NextCall, outcome: Outcome): seq<Effect> {
    if outcome.LostCall? then []
    else match call
      case NoCall => []
      case Pub(m) => [PublishOf(m.requestId)]
      case Sql(Reset(job)) => if ResetAccepted(db, job) then [ResetOf(job.requestId)] else []
      case Sql(Update(id, DEAD_LETTERED)) => [BurialOf(id)]
      case Sql(Count(serviceId, FAILED, _)) =>
        if StatAccepted(db, serviceId) && hd.Pass? && hd.i < |hd.batch|
        then [FailureOf(hd.batch[hd.i].requestId, serviceId)] else []
      case _ => []
  }

  function Acted(cfg: Config, s: State, h: Id, env: CallEnv): State
    requires h in s.handlers
  {
    var hd := s.handlers[h];
    var call := CallOf(cfg, hd, env);
    State(DbAfter(s.db, call, env.outcome),
          QueueAfter(s.queue, call, env.outcome),
          s.handlers[h := Next(cfg, s.db, hd, Succeeds(s.db, call, env.outcome))],
          s.history + EffectsOf(s.db, hd, call, env.outcome))
  }

  // An action that is not enabled changes nothing. A handler that crashes is
  // one that takes no further step.
  ghost function Apply(cfg: Config, s: State, a: Action): State {
    match a
    case Poll(h, batch, now) =>
      if h !in s.handlers && IsTop(DueJobs(s.db, now), RetryTime, 50, batch)
      then s.(handlers := s.handlers[h := Pass(batch, 0, Top)]) else s
    case BeginReplay(h, caller, letterId) =>
      if h !in s.handlers && letterId != NO_ID
      then s.(handlers := s.handlers[h := Replayer(caller, letterId, Lookup)]) else s
    case BeginSend(h, serviceId, payload, requestId) =>
      if h !in s.handlers && serviceId != NO_ID
      then s.(handlers := s.handlers[h := Sender(serviceId, payload, requestId, Create)]) else s
    case Receive(h, message) =>
      if h !in s.handlers && message in s.queue
      then s.(queue := s.queue - multiset{message}, handlers := s.handlers[h := Worker(message, MarkDispatched)])
      else s
    case Act(h, env) => if h in s.handlers then Acted(cfg, s, h, env) else s
    case FailAction(id, at, outcome) => s.(db := Call(outcome, s.db, FailJob(s.db, id, at)))
  }

  ghost function Run(cfg: Config, s: State, acts: seq<Action>): State
    decreases |acts|
  {
    if acts == [] then s else Run(cfg, Apply(cfg, s, acts[0]), acts[1..])
  }

  lemma {:induction false} RunConcat(cfg: Config, s: State, a: seq<Action>, b: seq<Action>)
    ensures Run(cfg, s, a + b) == Run(cfg, Run(cfg, s, a), b)
    decreases |a|
  {
    hide Apply;
    if a == [] {
      assert a + b == b;
    } else {
      assert (a + b)[1..] == a[1..] + b;
      RunConcat(cfg, Apply(cfg, s, a[0]), a[1..], b);
    }
  }

  // ----- provenance -----

  // The jobs a handler may still write, publish or store as a letter.
  function Carried(hd: Handler): set<Job> {
    match hd
    case Pass(batch, _, _) => set j | j in batch
    case Replayer(_, _, Lookup) => {}
    case Replayer(_, _, Ended(_)) => {}
    case Replayer(_, _, replay) => {ReplayJob(replay.dl)}
    case Worker(message, _) => {message}
    case Sender(serviceId, payload, requestId, send) =>
      if send.CountAccepted? || send.Enqueue? then {NewJob(serviceId, payload, requestId)} else {}
  }

  ghost predicate HandlerKnown(jobs: map<Id, Job>, hd: Handler) {
    forall j :: j in Carried(hd) ==> Known(jobs, j)
  }

  ghost predicate HandlersKnown(jobs: map<Id, Job>, handlers: map<Id, Handler>) {
    forall h :: h in handlers ==> HandlerKnown(jobs, handlers[h])
  }

  // FAILED rows have failed at least once and have a time to retry at.
  ghost predicate FailuresTimed(jobs: map<Id, Job>) {
    forall id :: id in jobs && jobs[id].status.FAILED? ==> jobs[id].retryCount >= 1 && jobs[id].nextRetryAt.Some?
  }

  ghost predicate Inv(s: State) {
    && Integrity(s.db)
    && LettersKnown(s.db.jobs, s.db.letters)
    && AllKnown(s.db.jobs, s.queue)
    && HandlersKnown(s.db.jobs, s.handlers)
    && FailuresTimed(s.db.jobs)
  }

  // The statements handlers run: a letter is a carried job's, a new row is
  // ACCEPTED and no status write says FAILED.
  ghost predicate Lawful(db: Tables, st: Statement) {
    && (st.Letter? ==> Known(db.jobs, ReplayJob(st.dl)))
    && (st.Insert? ==> st.job.status.ACCEPTED?)
    && (st.Update? ==> !st.status.FAILED?)
  }

  lemma StatementKeepsRows(db: Tables, st: Statement)
    requires Integrity(db) && LettersKnown(db.jobs, db.letters) && FailuresTimed(db.jobs) && Lawful(db, st)
    ensures var after := Exec(db, st);
      Integrity(after) && LettersKnown(after.jobs, after.letters) && FailuresTimed(after.jobs)
      && Stable(db.jobs, after.jobs)
  {
    IntegrityKept(db, st);
    StatementsStable(db, st);
    FailuresStayTimed(db, st);
    var after := Exec(db, st);
    hide Integrity, Exec, FailuresTimed;
    forall k | k in after.letters ensures Known(after.jobs, ReplayJob(after.letters[k])) {
      StatementLetters(db, st, k);
    }
  }

  lemma FailuresStayTimed(db: Tables, st: Statement)
    requires FailuresTimed(db.jobs) && Lawful(db, st)
    ensures FailuresTimed(Exec(db, st).jobs)
  {
  }

  lemma StableHandlers(before: map<Id, Job>, after: map<Id, Job>, handlers: map<Id, Handler>)
    requires JobsKeyedOnly(before) && Stable(before, after) && HandlersKnown(before, handlers)
    ensures HandlersKnown(after, handlers)
  {
  }

  // The call of a handler whose jobs are known.
  lemma CallsAreLawful(cfg: Config, db: Tables, hd: Handler, env: CallEnv)
    requires HandlerKnown(db.jobs, hd)
    ensures var call := CallOf(cfg, hd, env);
      (call.Sql? ==> Lawful(db, call.st)) && (call.Pub? ==> Known(db.jobs, call.message))
  {
    match hd
    case Pass(batch, i, pass) =>
      if i < |batch| {
        assert batch[i] in Carried(hd);
      }
    case Replayer(_, _, replay) =>
    case Worker(message, worker) =>
    case Sender(serviceId, payload, requestId, send) =>
      if send.Enqueue? {
        assert NewJob(serviceId, payload, requestId) in Carried(hd);
      }
  }

  // What the next point carries was carried, or was just created or looked up.
  lemma NextCarriesKnown(cfg: Config, db: Tables, hd: Handler, env: CallEnv)
    requires JobsKeyedOnly(db.jobs) && HandlerKnown(db.jobs, hd) && LettersKnown(db.jobs, db.letters)
    requires var call := CallOf(cfg, hd, env); Stable(db.jobs, DbAfter(db, call, env.outcome).jobs)
    ensures var call := CallOf(cfg, hd, env);
      HandlerKnown(DbAfter(db, call, env.outcome).jobs, Next(cfg, db, hd, Succeeds(db, call, env.outcome)))
  {
    var call := CallOf(cfg, hd, env);
    var after, next := DbAfter(db, call, env.outcome), Next(cfg, db, hd, Succeeds(db, call, env.outcome));
    if hd.Sender? && hd.send.Create? {
      var job := NewJob(hd.serviceId, hd.payload, hd.requestId);
      if next.send.CountAccepted? {
        assert after.jobs[job.requestId] == job;
      }
    } else if hd.Replayer? && hd.replay.Lookup? {
    } else {
      assert Carried(next) <= Carried(hd);
    }
  }

  lemma ActKeeps(cfg: Config, s: State, h: Id, env: CallEnv)
    requires Inv(s) && h in s.handlers
    ensures Inv(Acted(cfg, s, h, env)) && Stable(s.db.jobs, Acted(cfg, s, h, env).db.jobs)
  {
    var hd := s.handlers[h];
    var call := CallOf(cfg, hd, env);
    var after := Acted(cfg, s, h, env);
    assert HandlerKnown(s.db.jobs, hd);
    CallsAreLawful(cfg, s.db, hd, env);
    if call.Sql? {
      StatementKeepsRows(s.db, call.st);
    }
    hide CallOf, Next, Exec, Succeeds, HandlerKnown, Integrity, EffectsOf, FailuresTimed, LettersKnown;
    assert JobsKeyedOnly(s.db.jobs) by {
      KeyedFromIntegrity(s.db);
    }
    assert Stable(s.db.jobs, after.db.jobs);
    StableHandlers(s.db.jobs, after.db.jobs, s.handlers);
    NextCarriesKnown(cfg, s.db, hd, env);
    StableKeepsKnown(s.db.jobs, after.db.jobs, s.queue);
    if call.Pub? {
      assert after.db == s.db;
      assert forall m :: m in s.queue + multiset{call.message} ==> m == call.message || m in s.queue;
    }
  }

  lemma KeyedFromIntegrity(db: Tables)
    requires Integrity(db)
    ensures JobsKeyedOnly(db.jobs) && Stable(db.jobs, db.jobs)
  {
  }

  lemma ApplyKeeps(cfg: Config, s: State, a: Action)
    requires Inv(s)
    ensures Inv(Apply(cfg, s, a)) && Stable(s.db.jobs, Apply(cfg, s, a).db.jobs)
  {
    KeyedFromIntegrity(s.db);
    match a
    case Act(h, env) =>
      if h in s.handlers {
        ActKeeps(cfg, s, h, env);
      }
    case FailAction(id, at, outcome) => FailKeepsInv(s, id, at);
    case _ => BeginKeeps(cfg, s, a);
  }

  lemma FailKeepsInv(s: State, id: Id, at: Time)
    requires Inv(s)
    ensures Inv(s.(db := FailJob(s.db, id, at))) && Stable(s.db.jobs, FailJob(s.db, id, at).jobs)
  {
    KeyedFromIntegrity(s.db);
    StatementKeepsRows(s.db, Fail(id, at));
    hide Integrity, LettersKnown, FailuresTimed, FailJob, HandlersKnown, AllKnown, Stable;
    StableHandlers(s.db.jobs, FailJob(s.db, id, at).jobs, s.handlers);
    StableKeepsKnown(s.db.jobs, FailJob(s.db, id, at).jobs, s.queue);
  }

  // A new handler carries rows of the table, a queued message, or nothing.
  lemma BeginKeeps(cfg: Config, s: State, a: Action)
    requires Inv(s) && !a.Act? && !a.FailAction?
    ensures Inv(Apply(cfg, s, a)) && Apply(cfg, s, a).db == s.db
  {
    KeyedFromIntegrity(s.db);
    hide Integrity, LettersKnown, FailuresTimed, IsTop, DueJobs, Acted, FailJob, HandlersKnown, AllKnown;
    match a
    case Poll(h, batch, now) =>
      if IsTop(DueJobs(s.db, now), RetryTime, 50, batch) {
        PolledRowsKnown(s.db, batch, now);
        NewHandlerKeeps(s, h, Pass(batch, 0, Top));
      }
    case Receive(h, message) =>
      if message in s.queue {
        QueuedIsKnown(s, message);
        NewHandlerKeeps(s.(queue := s.queue - multiset{message}), h, Worker(message, MarkDispatched));
      }
    case BeginReplay(h, caller, letterId) => NewHandlerKeeps(s, h, Replayer(caller, letterId, Lookup));
    case BeginSend(h, serviceId, payload, requestId) =>
      NewHandlerKeeps(s, h, Sender(serviceId, payload, requestId, Create));
    case _ =>
  }

  lemma PolledRowsKnown(db: Tables, batch: seq<Job>, now: Time)
    requires JobsKeyedOnly(db.jobs) && IsTop(DueJobs(db, now), RetryTime, 50, batch)
    ensures HandlerKnown(db.jobs, Pass(batch, 0, Top))
  {
    forall j | j in batch ensures Known(db.jobs, j) {
      assert j in DueJobs(db, now);
    }
  }

  lemma QueuedIsKnown(s: State, message: Job)
    requires Inv(s) && message in s.queue
    ensures Inv(s.(queue := s.queue - multiset{message})) && HandlerKnown(s.db.jobs, Worker(message, MarkDispatched))
  {
    hide Integrity, LettersKnown, FailuresTimed, HandlersKnown;
  }

  lemma NewHandlerKeeps(s: State, h: Id, hd: Handler)
    requires Inv(s) && HandlerKnown(s.db.jobs, hd)
    ensures Inv(s.(handlers := s.handlers[h := hd]))
  {
    hide Integrity, LettersKnown, FailuresTimed, AllKnown, HandlerKnown;
  }

  // Over any interleaving, with any faults and failures: every letter, message
  // and snapshot names a row that exists, with that row's service and payload,
  // and neither column ever changes.
  lemma {:induction false} ProvenanceOverRuns(cfg: Config, s: State, acts: seq<Action>)
    requires Inv(s)
    ensures Inv(Run(cfg, s, acts)) && Stable(s.db.jobs, Run(cfg, s, acts).db.jobs)
    decreases |acts|
  {
    KeyedFromIntegrity(s.db);
    if acts != [] {
      var s1 := Apply(cfg, s, acts[0]);
      ApplyKeeps(cfg, s, acts[0]);
      KeyedFromIntegrity(s1.db);
      ProvenanceOverRuns(cfg, s1, acts[1..]);
      hide Inv, Apply, Run;
      var end := Run(cfg, s1, acts[1..]);
      forall id | id in s.db.jobs ensures Known(end.db.jobs, s.db.jobs[id]) {
        assert Known(s1.db.jobs, s.db.jobs[id]) && Known(end.db.jobs, s1.db.jobs[id]);
      }
      StepRun(cfg, s, acts);
    }
  }

  lemma StepRun(cfg: Config, s: State, acts: seq<Action>)
    requires acts != []
    ensures Run(cfg, s, acts) == Run(cfg, Apply(cfg, s, acts[0]), acts[1..])
  {
  }

  // So a replay about to reset its job always finds the row: the upsert takes
  // its conflict branch, and at most one letter names the job.
  lemma ResetFindsRow(cfg: Config, s: State, acts: seq<Action>, h: Id)
    requires Inv(s)
    requires var end := Run(cfg, s, acts);
      h in end.handlers && end.handlers[h].Replayer? && end.handlers[h].replay.Restart?
    ensures var end := Run(cfg, s, acts);
      var job := ReplayJob(end.handlers[h].replay.dl);
      && Known(end.db.jobs, job) && ResetAccepted(end.db, job)
      && ResetForReplay(end.db, job).jobs.Keys == end.db.jobs.Keys
      && (forall a, b :: a in end.db.letters && b in end.db.letters
            && end.db.letters[a].notificationId == job.requestId && end.db.letters[b].notificationId == job.requestId
            ==> a == b)
  {
    ProvenanceOverRuns(cfg, s, acts);
    var end := Run(cfg, s, acts);
    assert HandlerKnown(end.db.jobs, end.handlers[h]);
    assert ReplayJob(end.handlers[h].replay.dl) in Carried(end.handlers[h]);
  }

  // ----- passes -----

  // A pass over distinct jobs, at one of them while it has a call left to make.
  ghost predicate Shaped(hd: Handler) {
    hd.Pass? ==> DistinctIds(hd.batch) && (hd.pass != Top ==> hd.i < |hd.batch|)
  }

  // So is every pass of every run.
  lemma {:induction false} PassesAreShaped(cfg: Config, s: State, acts: seq<Action>)
    requires Inv(s) && forall h :: h in s.handlers ==> Shaped(s.handlers[h])
    ensures forall h :: h in Run(cfg, s, acts).handlers ==> Shaped(Run(cfg, s, acts).handlers[h])
    decreases |acts|
  {
    if acts != [] {
      ApplyKeeps(cfg, s, acts[0]);
      StepShaped(cfg, s, acts[0]);
      hide Inv, Apply, Shaped;
      PassesAreShaped(cfg, Apply(cfg, s, acts[0]), acts[1..]);
    }
  }

  lemma StepShaped(cfg: Config, s: State, a: Action)
    requires Inv(s) && forall h :: h in s.handlers ==> Shaped(s.handlers[h])
    ensures forall h :: h in Apply(cfg, s, a).handlers ==> Shaped(Apply(cfg, s, a).handlers[h])
  {
    hide Inv, CallOf, Succeeds, DbAfter, QueueAfter, EffectsOf, IsTop, DueJobs, FailJob;
    if a.Poll? && IsTop(DueJobs(s.db, a.now), RetryTime, 50, a.batch) {
      PollIsShaped(s, a.batch, a.now);
    }
  }

  lemma PollIsShaped(s: State, batch: seq<Job>, now: Time)
    requires Inv(s) && IsTop(DueJobs(s.db, now), RetryTime, 50, batch)
    ensures Shaped(Pass(batch, 0, Top))
  {
    KeyedFromIntegrity(s.db);
    hide Inv;
    forall i, j | 0 <= i < j < |batch| ensures batch[i].requestId != batch[j].requestId {
      assert batch[i] in DueJobs(s.db, now) && batch[j] in DueJobs(s.db, now);
    }
  }

  // ----- FAILED is entered by FailJob alone -----

  lemma FailedOnlyByFailJob(cfg: Config, s: State, a: Action, id: Id)
    requires id in Apply(cfg, s, a).db.jobs && Apply(cfg, s, a).db.jobs[id].status.FAILED?
    requires !(a.FailAction? && a.id == id)
    ensures id in s.db.jobs && s.db.jobs[id] == Apply(cfg, s, a).db.jobs[id]
  {
    if a.Act? && a.h in s.handlers {
      StatementNeverFails(cfg, s.db, s.handlers[a.h], a.env, id);
      hide CallOf, Next, EffectsOf, Succeeds;
    }
  }

  lemma StatementNeverFails(cfg: Config, db: Tables, hd: Handler, env: CallEnv, id: Id)
    ensures var after := DbAfter(db, CallOf(cfg, hd, env), env.outcome);
      id in after.jobs && after.jobs[id].status.FAILED? ==> id in db.jobs && db.jobs[id] == after.jobs[id]
  {
  }

  ghost predicate Holds(hd: Handler, id: Id) {
    hd.Pass? && exists j :: j in hd.batch && j.requestId == id
  }

  // Once out of FAILED, and until FailJob is called on it again, a job is in
  // no snapshot that a poll takes.
  lemma {:induction false} OutOfFailedStaysOut(cfg: Config, s: State, acts: seq<Action>, id: Id, h: Id)
    requires id in s.db.jobs ==> !s.db.jobs[id].status.FAILED?
    requires forall a :: a in acts ==> !(a.FailAction? && a.id == id)
    requires JobsKeyedOnly(s.db.jobs) && Inv(s)
    requires h in s.handlers ==> !Holds(s.handlers[h], id)
    requires h in Run(cfg, s, acts).handlers
    ensures !Holds(Run(cfg, s, acts).handlers[h], id)
    ensures id in Run(cfg, s, acts).db.jobs ==> !Run(cfg, s, acts).db.jobs[id].status.FAILED?
    decreases |acts|
  {
    if acts != [] {
      var a := acts[0];
      var s1 := Apply(cfg, s, a);
      assert a in acts;
      if id in s1.db.jobs && s1.db.jobs[id].status.FAILED? {
        FailedOnlyByFailJob(cfg, s, a, id);
      }
      ApplyKeeps(cfg, s, a);
      KeyedFromIntegrity(s1.db);
      NewSnapshotsAreFailed(cfg, s, a, id, h);
      hide Apply, Inv, Holds;
      OutOfFailedStaysOut(cfg, s1, acts[1..], id, h);
    }
  }

  lemma NewSnapshotsAreFailed(cfg: Config, s: State, a: Action, id: Id, h: Id)
    requires JobsKeyedOnly(s.db.jobs) && (id in s.db.jobs ==> !s.db.jobs[id].status.FAILED?)
    requires h in s.handlers ==> !Holds(s.handlers[h], id)
    ensures h in Apply(cfg, s, a).handlers ==> !Holds(Apply(cfg, s, a).handlers[h], id)
  {
    if a.Poll? && IsTop(DueJobs(s.db, a.now), RetryTime, 50, a.batch) {
      forall j | j in a.batch ensures j.requestId != id {
        assert j in DueJobs(s.db, a.now);
      }
    }
    if a.Act? && a.h == h && h in s.handlers {
      NextHoldsSame(cfg, s.db, s.handlers[h], Succeeds(s.db, CallOf(cfg, s.handlers[h], a.env), a.env.outcome), id);
    }
    hide IsTop, DueJobs, CallOf, Next, EffectsOf, Exec, FailJob;
  }

  lemma NextHoldsSame(cfg: Config, db: Tables, hd: Handler, ok: bool, id: Id)
    ensures Holds(Next(cfg, db, hd, ok), id) <==> Holds(hd, id)
  {
    assert hd.Pass? ==> Next(cfg, db, hd, ok).Pass? && Next(cfg, db, hd, ok).batch == hd.batch;
  }
}
