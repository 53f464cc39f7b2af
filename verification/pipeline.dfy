// What one uninterleaved run of each handler does to the tables and the queue,
// call by call, under an outcome for every call.

module Pipeline {
  import opened Domain
  import opened Schema

  datatype World = World(db: Tables, queue: multiset<Job>)

  function Publish(w: World, message: Job): World {
    w.(queue := w.queue + multiset{message})
  }

  // ----- retry scheduler: one job of a pass -----

  datatype IterEnv = IterEnv(
    publish: Outcome,
    create: Outcome,
    update: Outcome,
    count: Outcome,
    letterId: Id,
    now: Time)

  const NO_FAULT_ITER := IterEnv(Clean, Clean, Clean, Clean, NO_ID, 0)

  predicate Uncut(env: IterEnv) {
    env.publish.Clean? && env.create.Clean? && env.update.Clean? && env.count.Clean?
  }

  function LetterFor(job: Job, letterId: Id, now: Time): DeadLetter {
    DeadLetter(letterId, job.requestId, job.serviceId, job.payload, "max retries exceeded", job.retryCount, now)
  }

  function Requeue(w: World, job: Job, env: IterEnv): World {
    if job.payload.Malformed? then w
    else
      var sent := Call(env.publish, w, Publish(w, job));
      if !env.publish.Clean? then sent
      else sent.(db := Call(env.update, sent.db, SetStatus(sent.db, job.requestId, PENDING)))
  }

  function Bury(w: World, job: Job, env: IterEnv): World {
    var marked := Call(env.update, w.db, SetStatus(w.db, job.requestId, DEAD_LETTERED));
    if !env.update.Clean? then w.(db := marked)
    else w.(db := Call(env.count, marked, CountStat(marked, job.serviceId, FAILED, env.now)))
  }

  function DeadLetterJob(cfg: Config, w: World, job: Job, env: IterEnv): World {
    if !cfg.dlq then Bury(w, job, env)
    else
      var dl := LetterFor(job, env.letterId, env.now);
      var stored := w.(db := Call(env.create, w.db, InsertLetter(w.db, dl)));
      if env.create.Clean? && LetterAccepted(w.db, dl) then Bury(stored, job, env) else stored
  }

  // job is the snapshot the poll returned, however stale by now.
  function Iterate(cfg: Config, w: World, job: Job, env: IterEnv): World {
    if ShouldRetry(cfg, job.retryCount) then Requeue(w, job, env) else DeadLetterJob(cfg, w, job, env)
  }

  // A pass over its batch; envs gives the outcomes of each job's calls.
  function RunBatch(cfg: Config, w: World, batch: seq<Job>, envs: Id -> IterEnv): World
    decreases |batch|
  {
    if batch == [] then w
    else RunBatch(cfg, Iterate(cfg, w, batch[0], envs(batch[0].requestId)), batch[1..], envs)
  }

  // ----- ReplayDeadLetter -----

  datatype Code = OK | InvalidArgument | NotFound | PermissionDenied | Internal

  datatype ReplayEnv = ReplayEnv(
    lookup: Outcome,
    reset: Outcome,
    publish: Outcome,
    delete: Outcome,
    count: Outcome,
    now: Time)

  // The best-effort stat may fail; every other call is answered.
  predicate UncutReplay(env: ReplayEnv) {
    env.lookup.Clean? && env.reset.Clean? && env.publish.Clean? && env.delete.Clean?
  }

  function ReplayJob(dl: DeadLetter): Job {
    Job(dl.notificationId, dl.serviceId, dl.payload, PENDING, 0, None)
  }

  function Redeliver(w: World, dl: DeadLetter, env: ReplayEnv): (World, Code) {
    var job := ReplayJob(dl);
    if job.payload.Malformed? then (w, Internal)
    else
      var reset := w.(db := Call(env.reset, w.db, ResetForReplay(w.db, job)));
      if !env.reset.Clean? || !ResetAccepted(w.db, job) then (reset, Internal)
      else
        var sent := Call(env.publish, reset, Publish(reset, job));
        if !env.publish.Clean? then (sent, Internal)
        else
          var gone := sent.(db := Call(env.delete, sent.db, DeleteLetters(sent.db, dl.notificationId)));
          if !env.delete.Clean? then (gone, Internal)
          else (gone.(db := Call(env.count, gone.db, CountStat(gone.db, dl.serviceId, ACCEPTED, env.now))), OK)
  }

  // caller is the service the auth interceptor put in the context, if any.
  function Replay(w: World, caller: Option<Id>, letterId: Id, env: ReplayEnv): (World, Code) {
    if letterId == NO_ID then (w, InvalidArgument)
    else if caller.None? || !env.lookup.Clean? then (w, Internal)
    else if letterId !in w.db.letters then (w, NotFound)
    else if w.db.letters[letterId].serviceId != caller.value then (w, PermissionDenied)
    else Redeliver(w, w.db.letters[letterId], env)
  }

  // A replay changes nothing, or redelivers one of its caller's letters.
  lemma ReplayCases(w: World, caller: Option<Id>, letterId: Id, env: ReplayEnv)
    ensures var after := Replay(w, caller, letterId, env).0;
      after == w
      || (letterId in w.db.letters && caller == Some(w.db.letters[letterId].serviceId)
          && after == Redeliver(w, w.db.letters[letterId], env).0)
  {
    hide Redeliver;
  }

  lemma RedeliverKeepsServices(w: World, dl: DeadLetter, env: ReplayEnv)
    ensures Redeliver(w, dl, env).0.db.services == w.db.services
  {
    var reset := ResetForReplay(w.db, ReplayJob(dl));
    var gone := DeleteLetters(reset, dl.notificationId);
    assert reset.services == w.db.services && gone.services == reset.services;
    assert CountStat(gone, dl.serviceId, ACCEPTED, env.now).services == gone.services;
    hide ResetForReplay, ResetAccepted, DeleteLetters, CountStat;
  }

  // ----- SendNotification -----

  datatype SendEnv = SendEnv(create: Outcome, count: Outcome, publish: Outcome, requestId: Id, now: Time)

  function NewJob(serviceId: Id, payload: Option<Payload>, requestId: Id): Job {
    Job(requestId, serviceId, if payload.Some? then payload.value else Json("{}"), ACCEPTED, 0, None)
  }

  function Send(w: World, serviceId: Id, payload: Option<Payload>, env: SendEnv): (World, Code) {
    if serviceId == NO_ID then (w, InvalidArgument)
    else
      var job := NewJob(serviceId, payload, env.requestId);
      var created := w.(db := Call(env.create, w.db, InsertJob(w.db, job)));
      if !env.create.Clean? || !JobAccepted(w.db, job) then (created, Internal)
      else
        var counted := created.(db := Call(env.count, created.db, CountStat(created.db, serviceId, ACCEPTED, env.now)));
        (Call(env.publish, counted, Publish(counted, job)), if env.publish.Clean? then OK else Internal)
  }

  // ----- worker -----

  datatype WorkEnv = WorkEnv(update: Outcome, count: Outcome, now: Time)

  // The subscription callback, the message already off the queue. The second
  // result says whether the delayed delivery was spawned.
  function Dispatch(db: Tables, message: Job, env: WorkEnv): (Tables, bool) {
    var marked := Call(env.update, db, SetStatus(db, message.requestId, DISPATCHED));
    if !env.update.Clean? then (marked, false)
    else (Call(env.count, marked, CountStat(marked, message.serviceId, DISPATCHED, env.now)), true)
  }

  // The delayed goroutine ignores both errors.
  function Deliver(db: Tables, message: Job, env: WorkEnv): Tables {
    var marked := Call(env.update, db, SetStatus(db, message.requestId, DELIVERED));
    Call(env.count, marked, CountStat(marked, message.serviceId, DELIVERED, env.now))
  }
}
