// The protocol at the coarse grain: one job of a scheduler pass is a step, and
// so is one replay, one send, one dispatch and one delayed delivery. Outcomes
// may cut any of them short after any call. Snapshots may be arbitrarily stale,
// so a step stands for any number of schedulers.

module Coarse {
  import opened Domain
  import opened Schema
  import opened Query
  import opened Pipeline

  datatype System = System(
    w: World,
    held: multiset<Job>,   // messages whose delayed delivery is asleep
    snapshots: set<Job>,   // every row any poll ever returned
    refused: set<Id>,      // rows whose send answered with an error
    dropped: set<Id>)      // jobs for which a worker write failed

  datatype Step =
    | SendStep(serviceId: Id, payload: Option<Payload>, send: SendEnv)
    | PollStep(batch: seq<Job>, now: Time)
    | IterateStep(snapshot: Job, iter: IterEnv)
    | ReplayStep(caller: Option<Id>, letterId: Id, replay: ReplayEnv)
    | DispatchStep(message: Job, work: WorkEnv)
    | DeliverStep(message: Job, work: WorkEnv)
    | FailStep(id: Id, at: Time, outcome: Outcome)
    | RegisterStep(svc: Service, outcome: Outcome)
    | UnregisterStep(id: Id, at: Time, outcome: Outcome)

  // A step that is not enabled changes nothing.
  ghost function Apply(cfg: Config, s: System, step: Step): System {
    match step
    case SendStep(serviceId, payload, send) =>
      var (w, code) := Send(s.w, serviceId, payload, send);
      var created := w.db.jobs != s.w.db.jobs;
      s.(w := w, refused := if created && !code.OK? then s.refused + {send.requestId} else s.refused)
    case PollStep(batch, now) =>
      if IsTop(DueJobs(s.w.db, now), RetryTime, 50, batch)
      then s.(snapshots := s.snapshots + set j | j in batch) else s
    case IterateStep(snapshot, iter) =>
      if snapshot in s.snapshots then s.(w := Iterate(cfg, s.w, snapshot, iter)) else s
    case ReplayStep(caller, letterId, replay) =>
      s.(w := Replay(s.w, caller, letterId, replay).0)
    case DispatchStep(message, work) =>
      if message in s.w.queue then
        var (db, spawned) := Dispatch(s.w.db, message, work);
        s.(w := World(db, s.w.queue - multiset{message}),
           held := if spawned then s.held + multiset{message} else s.held,
           dropped := if spawned then s.dropped else s.dropped + {message.requestId})
      else s
    case DeliverStep(message, work) =>
      if message in s.held then
        s.(w := s.w.(db := Deliver(s.w.db, message, work)),
           held := s.held - multiset{message},
           dropped := if work.update.LostCall? then s.dropped + {message.requestId} else s.dropped)
      else s
    case FailStep(id, at, outcome) =>
      s.(w := s.w.(db := Call(outcome, s.w.db, FailJob(s.w.db, id, at))))
    case RegisterStep(svc, outcome) =>
      s.(w := s.w.(db := Call(outcome, s.w.db, InsertService(s.w.db, svc))))
    case UnregisterStep(id, at, outcome) =>
      s.(w := s.w.(db := Call(outcome, s.w.db, SoftDelete(s.w.db, id, at))))
  }

  // The step puts a message for its job back on the queue.
  ghost predicate Republishes(cfg: Config, s: System, step: Step) {
    && step.IterateStep? && step.snapshot in s.snapshots && ShouldRetry(cfg, step.snapshot.retryCount)
    && step.snapshot.payload.Json? && !step.iter.publish.LostCall?
  }

  ghost function Run(cfg: Config, s: System, steps: seq<Step>): System
    decreases |steps|
  {
    if steps == [] then s else Run(cfg, Apply(cfg, s, steps[0]), steps[1..])
  }

  const INIT := System(World(Tables(map[], map[], map[], map[]), multiset{}), multiset{}, {}, {}, {})

  // ----- the invariant -----

  // j names a row that exists, with its service and its payload.
  predicate Known(jobs: map<Id, Job>, j: Job) {
    j.requestId in jobs && jobs[j.requestId].serviceId == j.serviceId && jobs[j.requestId].payload == j.payload
  }

  // Rows are never removed and never change service or payload.
  ghost predicate Stable(before: map<Id, Job>, after: map<Id, Job>) {
    forall id :: id in before ==> Known(after, before[id])
  }

  ghost predicate Awaits(messages: multiset<Job>, id: Id) {
    exists m :: m in messages && m.requestId == id
  }

  // Where a job of this status must still be findable.
  predicate Traced(job: Job, queued: bool, asleep: bool, lettered: bool, refused: bool, dropped: bool) {
    match job.status
    case ACCEPTED => queued || refused || dropped
    case PENDING => queued || lettered || dropped
    case DISPATCHED => asleep || dropped
    case DELIVERED => true
    case FAILED => job.nextRetryAt.Some?
    case DEAD_LETTERED => lettered
  }

  ghost predicate TracedIn(s: System, id: Id)
    requires id in s.w.db.jobs
  {
    Traced(s.w.db.jobs[id], Awaits(s.w.queue, id), Awaits(s.held, id), HasLetter(s.w.db, id),
           id in s.refused, id in s.dropped)
  }

  ghost predicate AllKnown(jobs: map<Id, Job>, messages: multiset<Job>) {
    forall m :: m in messages ==> Known(jobs, m)
  }

  ghost predicate LettersKnown(jobs: map<Id, Job>, letters: map<Id, DeadLetter>) {
    forall k :: k in letters ==> Known(jobs, ReplayJob(letters[k]))
  }

  ghost predicate LettersExhausted(cfg: Config, letters: map<Id, DeadLetter>) {
    forall k :: k in letters ==> letters[k].attemptCount >= cfg.maxAttempts
  }

  // Provenance and the declared constraints.
  ghost predicate Sound(cfg: Config, s: System) {
    && Integrity(s.w.db)
    && AllKnown(s.w.db.jobs, s.w.queue)
    && AllKnown(s.w.db.jobs, s.held)
    && AllKnown(s.w.db.jobs, multiset(s.snapshots))
    && LettersKnown(s.w.db.jobs, s.w.db.letters)
    && LettersExhausted(cfg, s.w.db.letters)
  }

  ghost predicate AllTraced(s: System) {
    forall id :: id in s.w.db.jobs ==> TracedIn(s, id)
  }

  ghost predicate Inv(cfg: Config, s: System) {
    Sound(cfg, s) && AllTraced(s)
  }

  // ----- one call -----

  function After(s: System, st: Statement): System {
    s.(w := s.w.(db := Exec(s.w.db, st)))
  }

  function Sent(s: System, m: Job): System {
    s.(w := Publish(s.w, m))
  }

  lemma StatementsStable(db: Tables, st: Statement)
    requires JobsKeyed(db.services, db.jobs)
    ensures Stable(db.jobs, Exec(db, st).jobs)
  {
  }

  lemma StableKeepsKnown(before: map<Id, Job>, after: map<Id, Job>, messages: multiset<Job>)
    requires JobsKeyedOnly(before) && Stable(before, after) && AllKnown(before, messages)
    ensures AllKnown(after, messages)
  {
  }

  ghost predicate JobsKeyedOnly(jobs: map<Id, Job>) {
    forall k :: k in jobs ==> jobs[k].requestId == k
  }

  // The letters a statement leaves are old ones or the one it inserts.
  lemma StatementLetters(db: Tables, st: Statement, k: Id)
    requires k in Exec(db, st).letters
    ensures (k in db.letters && Exec(db, st).letters[k] == db.letters[k])
         || (st.Letter? && Exec(db, st).letters[k] == st.dl)
  {
  }

  lemma StatementKeepsSound(cfg: Config, s: System, st: Statement)
    requires Sound(cfg, s)
    requires st.Letter? ==> Known(s.w.db.jobs, ReplayJob(st.dl)) && st.dl.attemptCount >= cfg.maxAttempts
    ensures Sound(cfg, After(s, st))
  {
    var db := s.w.db;
    var after := Exec(db, st);
    IntegrityKept(db, st);
    StatementsStable(db, st);
    StableKeepsKnown(db.jobs, after.jobs, s.w.queue);
    StableKeepsKnown(db.jobs, after.jobs, s.held);
    StableKeepsKnown(db.jobs, after.jobs, multiset(s.snapshots));
    forall k | k in after.letters
      ensures Known(after.jobs, ReplayJob(after.letters[k])) && after.letters[k].attemptCount >= cfg.maxAttempts
    {
      StatementLetters(db, st, k);
    }
  }

  // A statement that changes at most the row of id, adds and removes no letter
  // of another notification, and leaves id itself traced.
  lemma StatementKeepsTraced(s: System, st: Statement, id: Id)
    requires AllTraced(s)
    requires var db, after := s.w.db, Exec(s.w.db, st);
      && after.jobs.Keys - {id} == db.jobs.Keys - {id}
      && (forall x :: x in db.jobs && x != id ==> x in after.jobs && after.jobs[x] == db.jobs[x])
      && (forall x :: x != id && HasLetter(db, x) ==> HasLetter(after, x))
    requires id in Exec(s.w.db, st).jobs ==> TracedIn(After(s, st), id)
    ensures AllTraced(After(s, st))
  {
    var after := After(s, st);
    forall x | x in after.w.db.jobs && x != id ensures TracedIn(after, x) {
      assert x in s.w.db.jobs.Keys - {id};
      assert TracedIn(s, x);
    }
  }

  // A status write is sound when the job is already where the status says.
  lemma StatusKeeps(cfg: Config, s: System, id: Id, status: Status)
    requires Inv(cfg, s)
    requires match status
      case PENDING => Awaits(s.w.queue, id)
      case DISPATCHED => Awaits(s.held, id)
      case DELIVERED => true
      case DEAD_LETTERED => HasLetter(s.w.db, id)
      case _ => false
    ensures Inv(cfg, After(s, Update(id, status)))
  {
    hide Sound;
    StatementKeepsSound(cfg, s, Update(id, status));
    SameLetters(s.w.db, SetStatus(s.w.db, id, status));
    StatementKeepsTraced(s, Update(id, status), id);
  }

  lemma PublishKeeps(cfg: Config, s: System, m: Job)
    requires Inv(cfg, s) && Known(s.w.db.jobs, m)
    ensures Inv(cfg, Sent(s, m)) && Awaits(Sent(s, m).w.queue, m.requestId)
  {
    var after := Sent(s, m);
    assert m in after.w.queue;
    assert forall x :: x in after.w.queue ==> x == m || x in s.w.queue;
    forall id | id in after.w.db.jobs ensures TracedIn(after, id) {
      assert TracedIn(s, id);
      assert Awaits(s.w.queue, id) ==> Awaits(after.w.queue, id) by {
        if Awaits(s.w.queue, id) {
          var x :| x in s.w.queue && x.requestId == id;
          assert x in after.w.queue;
        }
      }
    }
  }

  lemma CountKeeps(cfg: Config, s: System, serviceId: Id, status: Status, t: Time)
    requires Inv(cfg, s)
    ensures Inv(cfg, After(s, Count(serviceId, status, t)))
  {
    hide Sound, AllTraced;
    StatementKeepsSound(cfg, s, Count(serviceId, status, t));
    SameTraces(s, After(s, Count(serviceId, status, t)));
  }

  lemma SameLetters(db: Tables, after: Tables)
    requires after.letters == db.letters
    ensures forall x :: HasLetter(after, x) <==> HasLetter(db, x)
  {
  }

  // Only services and stats differ.
  lemma SameTraces(s: System, t: System)
    requires AllTraced(s) && t.w.db.jobs == s.w.db.jobs && t.w.db.letters == s.w.db.letters
    requires t.w.queue == s.w.queue && t.held == s.held && s.refused <= t.refused && s.dropped <= t.dropped
    ensures AllTraced(t)
  {
    forall id | id in t.w.db.jobs ensures TracedIn(t, id) {
      assert TracedIn(s, id);
      assert HasLetter(s.w.db, id) <==> HasLetter(t.w.db, id);
    }
  }

  lemma InsertionKeepsLetters(db: Tables, dl: DeadLetter)
    ensures forall id :: HasLetter(db, id) ==> HasLetter(InsertLetter(db, dl), id)
    ensures LetterAccepted(db, dl) ==> HasLetter(InsertLetter(db, dl), dl.notificationId)
  {
    var after := InsertLetter(db, dl);
    if after != db {
      assert dl.id in after.letters;
      forall id | HasLetter(db, id) ensures HasLetter(after, id) {
        var k :| k in db.letters && db.letters[k].notificationId == id;
        assert k in after.letters;
      }
    }
  }

  lemma LetterKeeps(cfg: Config, s: System, dl: DeadLetter)
    requires Inv(cfg, s) && Known(s.w.db.jobs, ReplayJob(dl)) && dl.attemptCount >= cfg.maxAttempts
    ensures Inv(cfg, After(s, Letter(dl)))
    ensures LetterAccepted(s.w.db, dl) ==> HasLetter(After(s, Letter(dl)).w.db, dl.notificationId)
  {
    hide Sound;
    StatementKeepsSound(cfg, s, Letter(dl));
    InsertionKeepsLetters(s.w.db, dl);
    assert dl.notificationId in s.w.db.jobs && TracedIn(s, dl.notificationId);
    StatementKeepsTraced(s, Letter(dl), dl.notificationId);
  }

  lemma ResetStaysKnown(cfg: Config, s: System, job: Job)
    requires Sound(cfg, s) && Known(s.w.db.jobs, job)
    ensures Known(After(s, Reset(job)).w.db.jobs, job)
  {
  }

  lemma ResetKeeps(cfg: Config, s: System, job: Job)
    requires Inv(cfg, s) && Known(s.w.db.jobs, job) && HasLetter(s.w.db, job.requestId)
    ensures Inv(cfg, After(s, Reset(job)))
    ensures HasLetter(After(s, Reset(job)).w.db, job.requestId) && Known(After(s, Reset(job)).w.db.jobs, job)
    ensures ResetAccepted(s.w.db, job) ==> After(s, Reset(job)).w.db.jobs[job.requestId].status.PENDING?
  {
    ResetStaysKnown(cfg, s, job);
    hide Sound;
    StatementKeepsSound(cfg, s, Reset(job));
    SameLetters(s.w.db, ResetForReplay(s.w.db, job));
    assert TracedIn(s, job.requestId);
    StatementKeepsTraced(s, Reset(job), job.requestId);
  }

  lemma DeleteKeeps(cfg: Config, s: System, nid: Id)
    requires Inv(cfg, s) && Awaits(s.w.queue, nid) && nid in s.w.db.jobs && s.w.db.jobs[nid].status.PENDING?
    ensures Inv(cfg, After(s, Unletter(nid)))
  {
    StatementKeepsSound(cfg, s, Unletter(nid));
    forall x | x != nid && HasLetter(s.w.db, x) ensures HasLetter(DeleteLetters(s.w.db, nid), x) {
      var k :| k in s.w.db.letters && s.w.db.letters[k].notificationId == x;
      assert k in DeleteLetters(s.w.db, nid).letters;
    }
    StatementKeepsTraced(s, Unletter(nid), nid);
  }

  // ----- one step -----

  lemma SendKeeps(cfg: Config, s: System, step: Step)
    requires step.SendStep? && Inv(cfg, s)
    ensures Inv(cfg, Apply(cfg, s, step))
  {
    hide Inv;
    var env := step.send;
    var job := NewJob(step.serviceId, step.payload, env.requestId);
    if step.serviceId != NO_ID && JobAccepted(s.w.db, job) && !env.create.LostCall? {
      var created := After(s.(refused := s.refused + {job.requestId}), Insert(job));
      CreateKeeps(cfg, s, job);
      assert created.w.db.jobs[job.requestId] == job && created.w.db.jobs != s.w.db.jobs;
      if env.create.Clean? {
        CountKeeps(cfg, created, step.serviceId, ACCEPTED, env.now);
        var counted :=
          if env.count.LostCall? then created else After(created, Count(step.serviceId, ACCEPTED, env.now));
        PublishKeeps(cfg, counted, job);
        if env.publish.Clean? {
          PardonKeeps(cfg, Sent(counted, job), s.refused, job.requestId);
        }
      }
    }
  }

  // A new row is excused until its message is out.
  lemma CreateKeeps(cfg: Config, s: System, job: Job)
    requires Inv(cfg, s) && JobAccepted(s.w.db, job) && job.status.ACCEPTED?
    ensures Inv(cfg, After(s.(refused := s.refused + {job.requestId}), Insert(job)))
  {
    var excused := s.(refused := s.refused + {job.requestId});
    StatementKeepsSound(cfg, excused, Insert(job));
    SameTraces(s, excused);
    SameLetters(s.w.db, InsertJob(s.w.db, job));
    StatementKeepsTraced(excused, Insert(job), job.requestId);
  }

  // An excuse no longer needed can be withdrawn.
  lemma PardonKeeps(cfg: Config, s: System, refused: set<Id>, id: Id)
    requires Inv(cfg, s) && s.refused == refused + {id} && Awaits(s.w.queue, id)
    ensures Inv(cfg, s.(refused := refused))
  {
    var after := s.(refused := refused);
    forall x | x in after.w.db.jobs ensures TracedIn(after, x) {
      assert TracedIn(s, x);
    }
  }

  // Every snapshot is a row that exists.
  lemma PollKeeps(cfg: Config, s: System, batch: seq<Job>, now: Time)
    requires Inv(cfg, s) && IsTop(DueJobs(s.w.db, now), RetryTime, 50, batch)
    ensures Inv(cfg, s.(snapshots := s.snapshots + set j | j in batch))
  {
    forall j | j in batch ensures Known(s.w.db.jobs, j) {
      assert j in DueJobs(s.w.db, now);
    }
    hide IsTop, DueJobs, Integrity;
    SameTraces(s, s.(snapshots := s.snapshots + set j | j in batch));
  }

  lemma RequeueKeeps(cfg: Config, s: System, job: Job, env: IterEnv)
    requires Inv(cfg, s) && Known(s.w.db.jobs, job)
    ensures Inv(cfg, s.(w := Requeue(s.w, job, env)))
  {
    hide Inv;
    PublishKeeps(cfg, s, job);
    StatusKeeps(cfg, Sent(s, job), job.requestId, PENDING);
  }

  lemma BuryKeeps(cfg: Config, s: System, job: Job, env: IterEnv)
    requires Inv(cfg, s) && HasLetter(s.w.db, job.requestId)
    ensures Inv(cfg, s.(w := Bury(s.w, job, env)))
  {
    hide Inv;
    StatusKeeps(cfg, s, job.requestId, DEAD_LETTERED);
    CountKeeps(cfg, After(s, Update(job.requestId, DEAD_LETTERED)), job.serviceId, FAILED, env.now);
  }

  lemma DeadLetterKeeps(cfg: Config, s: System, job: Job, env: IterEnv)
    requires cfg.dlq && Inv(cfg, s) && Known(s.w.db.jobs, job) && !ShouldRetry(cfg, job.retryCount)
    ensures Inv(cfg, s.(w := DeadLetterJob(cfg, s.w, job, env)))
  {
    var dl := LetterFor(job, env.letterId, env.now);
    hide Inv, HasLetter;
    LetterKeeps(cfg, s, dl);
    if env.create.Clean? && LetterAccepted(s.w.db, dl) {
      BuryKeeps(cfg, After(s, Letter(dl)), job, env);
    }
  }

  // A letter is the only one of a job that exists, with its service and payload.
  lemma LetterNamesItsJob(cfg: Config, s: System, k: Id)
    requires Inv(cfg, s) && k in s.w.db.letters
    ensures var dl := s.w.db.letters[k];
      && Known(s.w.db.jobs, ReplayJob(dl)) && HasLetter(s.w.db, dl.notificationId) && dl.payload.Json?
      && s.w.db.jobs[dl.notificationId].requestId == dl.notificationId
      && forall l :: l in s.w.db.letters && s.w.db.letters[l].notificationId == dl.notificationId ==> l == k
  {
    assert Known(s.w.db.jobs, ReplayJob(s.w.db.letters[k]));
  }

  lemma RedeliverKeeps(cfg: Config, s: System, dl: DeadLetter, env: ReplayEnv)
    requires Inv(cfg, s) && dl.id in s.w.db.letters && s.w.db.letters[dl.id] == dl
    ensures Inv(cfg, s.(w := Redeliver(s.w, dl, env).0))
  {
    hide Inv;
    var job := ReplayJob(dl);
    LetterNamesItsJob(cfg, s, dl.id);
    ResetKeeps(cfg, s, job);
    var reset := After(s, Reset(job));
    PublishKeeps(cfg, reset, job);
    var sent := Sent(reset, job);
    DeleteKeeps(cfg, sent, dl.notificationId);
    CountKeeps(cfg, After(sent, Unletter(dl.notificationId)), dl.serviceId, ACCEPTED, env.now);
  }

  lemma LetterIsKeyed(cfg: Config, s: System, k: Id)
    requires Inv(cfg, s) && k in s.w.db.letters
    ensures s.w.db.letters[k].id == k
  {
  }

  lemma ReplayKeeps(cfg: Config, s: System, step: Step)
    requires step.ReplayStep? && Inv(cfg, s)
    ensures Inv(cfg, Apply(cfg, s, step))
  {
    hide Inv, Redeliver, Replay;
    ReplayCases(s.w, step.caller, step.letterId, step.replay);
    if Replay(s.w, step.caller, step.letterId, step.replay).0 != s.w {
      LetterIsKeyed(cfg, s, step.letterId);
      RedeliverKeeps(cfg, s, s.w.db.letters[step.letterId], step.replay);
    }
  }

  // Taking a message off the queue is safe once its delivery is held, or
  // excused; so a dispatch is read with the hold first.
  lemma DispatchKeeps(cfg: Config, s: System, step: Step)
    requires step.DispatchStep? && Inv(cfg, s) && step.message in s.w.queue
    ensures Inv(cfg, Apply(cfg, s, step))
  {
    var m, env := step.message, step.work;
    assert Known(s.w.db.jobs, m);
    hide Inv;
    if env.update.Clean? {
      CleanDispatchKeeps(cfg, s, m, env);
    } else {
      FailedDispatchKeeps(cfg, s, m, env);
    }
  }

  lemma CleanDispatchKeeps(cfg: Config, s: System, m: Job, env: WorkEnv)
    requires Inv(cfg, s) && Known(s.w.db.jobs, m) && env.update.Clean?
    ensures Inv(cfg, s.(w := World(Dispatch(s.w.db, m, env).0, s.w.queue - multiset{m}), held := s.held + multiset{m}))
  {
    hide Inv;
    var held := s.(held := s.held + multiset{m});
    HoldKeeps(cfg, s, m);
    StatusKeeps(cfg, held, m.requestId, DISPATCHED);
    var marked := After(held, Update(m.requestId, DISPATCHED));
    CountKeeps(cfg, marked, m.serviceId, DISPATCHED, env.now);
    var counted := if env.count.LostCall? then marked else After(marked, Count(m.serviceId, DISPATCHED, env.now));
    TakeKeeps(cfg, counted, m);
  }

  lemma FailedDispatchKeeps(cfg: Config, s: System, m: Job, env: WorkEnv)
    requires Inv(cfg, s) && Known(s.w.db.jobs, m) && !env.update.Clean?
    ensures Inv(cfg, s.(w := World(Dispatch(s.w.db, m, env).0, s.w.queue - multiset{m}),
                        dropped := s.dropped + {m.requestId}))
  {
    hide Inv;
    var excused := s.(dropped := s.dropped + {m.requestId});
    ExcuseKeeps(cfg, s, m.requestId);
    var marked := if env.update.LostCall? then excused else After(excused, Update(m.requestId, DISPATCHED));
    ExcusedStatusKeeps(cfg, excused, m.requestId, DISPATCHED);
    TakeKeeps(cfg, marked, m);
  }

  lemma ExcuseKeeps(cfg: Config, s: System, id: Id)
    requires Inv(cfg, s)
    ensures Inv(cfg, s.(dropped := s.dropped + {id}))
  {
    SameTraces(s, s.(dropped := s.dropped + {id}));
  }

  lemma HoldKeeps(cfg: Config, s: System, m: Job)
    requires Inv(cfg, s) && Known(s.w.db.jobs, m)
    ensures Inv(cfg, s.(held := s.held + multiset{m})) && Awaits(s.held + multiset{m}, m.requestId)
  {
    var after := s.(held := s.held + multiset{m});
    assert m in after.held;
    assert forall x :: x in after.held ==> x == m || x in s.held;
    forall id | id in after.w.db.jobs ensures TracedIn(after, id) {
      assert TracedIn(s, id);
      assert forall x :: x in s.held ==> x in after.held;
    }
  }

  lemma ExcusedStatusKeeps(cfg: Config, s: System, id: Id, status: Status)
    requires Inv(cfg, s) && id in s.dropped && status.DISPATCHED?
    ensures Inv(cfg, After(s, Update(id, status)))
  {
    hide Sound;
    StatementKeepsSound(cfg, s, Update(id, status));
    SameLetters(s.w.db, SetStatus(s.w.db, id, status));
    StatementKeepsTraced(s, Update(id, status), id);
  }

  lemma TakeKeeps(cfg: Config, s: System, m: Job)
    requires Inv(cfg, s) && m.requestId in s.w.db.jobs
    requires m.requestId in s.dropped || (s.w.db.jobs[m.requestId].status.DISPATCHED? && Awaits(s.held, m.requestId))
    ensures Inv(cfg, s.(w := s.w.(queue := s.w.queue - multiset{m})))
  {
    var after := s.(w := s.w.(queue := s.w.queue - multiset{m}));
    forall id | id in after.w.db.jobs ensures TracedIn(after, id) {
      assert TracedIn(s, id);
      OthersStillAwait(s.w.queue, m, id);
    }
  }

  lemma OthersStillAwait(messages: multiset<Job>, m: Job, id: Id)
    ensures m.requestId != id && Awaits(messages, id) ==> Awaits(messages - multiset{m}, id)
  {
    if m.requestId != id && Awaits(messages, id) {
      var other :| other in messages && other.requestId == id;
      assert other in messages - multiset{m};
    }
  }

  lemma DeliverKeeps(cfg: Config, s: System, step: Step)
    requires step.DeliverStep? && Inv(cfg, s) && step.message in s.held
    ensures Inv(cfg, Apply(cfg, s, step))
  {
    var m, env := step.message, step.work;
    assert Known(s.w.db.jobs, m);
    hide Inv;
    if env.update.LostCall? {
      ExcuseKeeps(cfg, s, m.requestId);
      WakeKeeps(cfg, s.(dropped := s.dropped + {m.requestId}), m, env);
    } else {
      StatusKeeps(cfg, s, m.requestId, DELIVERED);
      WakeKeeps(cfg, After(s, Update(m.requestId, DELIVERED)), m, env);
    }
  }

  // What follows the DELIVERED write: the stat, and the goroutine is gone.
  lemma WakeKeeps(cfg: Config, s: System, m: Job, env: WorkEnv)
    requires Inv(cfg, s) && m.requestId in s.w.db.jobs
    requires m.requestId in s.dropped || s.w.db.jobs[m.requestId].status.DELIVERED?
    ensures Inv(cfg, s.(w := s.w.(db := Call(env.count, s.w.db, CountStat(s.w.db, m.serviceId, DELIVERED, env.now))),
                        held := s.held - multiset{m}))
  {
    hide Inv;
    CountKeeps(cfg, s, m.serviceId, DELIVERED, env.now);
    ReleaseKeeps(cfg, if env.count.LostCall? then s else After(s, Count(m.serviceId, DELIVERED, env.now)), m);
  }

  lemma ReleaseKeeps(cfg: Config, s: System, m: Job)
    requires Inv(cfg, s) && m.requestId in s.w.db.jobs
    requires m.requestId in s.dropped || s.w.db.jobs[m.requestId].status.DELIVERED?
    ensures Inv(cfg, s.(held := s.held - multiset{m}))
  {
    var after := s.(held := s.held - multiset{m});
    forall id | id in after.w.db.jobs ensures TracedIn(after, id) {
      assert TracedIn(s, id);
      OthersStillAwait(s.held, m, id);
    }
  }

  lemma TableStepKeeps(cfg: Config, s: System, step: Step)
    requires step.FailStep? || step.RegisterStep? || step.UnregisterStep?
    requires Inv(cfg, s)
    ensures Inv(cfg, Apply(cfg, s, step))
  {
    hide Inv;
    match step {
      case FailStep(id, at, outcome) => FailKeeps(cfg, s, id, at);
      case RegisterStep(svc, outcome) => ServiceKeeps(cfg, s, Register(svc));
      case UnregisterStep(id, at, outcome) => ServiceKeeps(cfg, s, Unregister(id, at));
    }
  }

  lemma FailKeeps(cfg: Config, s: System, id: Id, at: Time)
    requires Inv(cfg, s)
    ensures Inv(cfg, After(s, Fail(id, at)))
  {
    hide Sound;
    StatementKeepsSound(cfg, s, Fail(id, at));
    SameLetters(s.w.db, FailJob(s.w.db, id, at));
    assert id in s.w.db.jobs ==> TracedIn(s, id);
    StatementKeepsTraced(s, Fail(id, at), id);
  }

  lemma ServiceKeeps(cfg: Config, s: System, st: Statement)
    requires st.Register? || st.Unregister?
    requires Inv(cfg, s)
    ensures Inv(cfg, After(s, st))
  {
    hide Sound, AllTraced;
    StatementKeepsSound(cfg, s, st);
    SameTraces(s, After(s, st));
  }

  lemma StepKeeps(cfg: Config, s: System, step: Step)
    requires cfg.dlq && Inv(cfg, s)
    ensures Inv(cfg, Apply(cfg, s, step))
  {
    match step
    case SendStep(_, _, _) => SendKeeps(cfg, s, step);
    case PollStep(batch, now) =>
      if IsTop(DueJobs(s.w.db, now), RetryTime, 50, batch) {
        PollKeeps(cfg, s, batch, now);
      }
    case IterateStep(snapshot, _) =>
      if snapshot in s.snapshots {
        assert snapshot in multiset(s.snapshots);
        if ShouldRetry(cfg, snapshot.retryCount) {
          RequeueKeeps(cfg, s, snapshot, step.iter);
        } else {
          DeadLetterKeeps(cfg, s, snapshot, step.iter);
        }
      }
    case ReplayStep(_, _, _) => ReplayKeeps(cfg, s, step);
    case DispatchStep(message, _) =>
      if message in s.w.queue {
        DispatchKeeps(cfg, s, step);
      }
    case DeliverStep(message, _) =>
      if message in s.held {
        DeliverKeeps(cfg, s, step);
      }
    case _ => TableStepKeeps(cfg, s, step);
  }

  lemma {:induction false} InvOverRuns(cfg: Config, s: System, steps: seq<Step>)
    requires cfg.dlq && Inv(cfg, s)
    ensures Inv(cfg, Run(cfg, s, steps))
    decreases |steps|
  {
    if steps != [] {
      StepKeeps(cfg, s, steps[0]);
      InvOverRuns(cfg, Apply(cfg, s, steps[0]), steps[1..]);
    }
  }

  // ----- no silent loss -----

  // A send that answers OK, and a worker whose status writes succeed.
  predicate Reliable(step: Step) {
    match step
    case SendStep(_, _, send) => send.create.Clean? && send.publish.Clean?
    case DispatchStep(_, work) => work.update.Clean?
    case DeliverStep(_, work) => work.update.Clean?
    case _ => true
  }

  lemma {:induction false} ReliableRunsExcuseNothing(cfg: Config, s: System, steps: seq<Step>)
    requires forall step :: step in steps ==> Reliable(step)
    ensures Run(cfg, s, steps).refused == s.refused && Run(cfg, s, steps).dropped == s.dropped
    decreases |steps|
  {
    if steps != [] {
      assert Reliable(steps[0]);
      ReliableRunsExcuseNothing(cfg, Apply(cfg, s, steps[0]), steps[1..]);
    }
  }

  // Over any run at all, a job that its status no longer leads to is one whose
  // sender was told of an error or whose worker saw a write fail.
  lemma StrandedOnlyIfReported(cfg: Config, steps: seq<Step>, id: Id)
    requires cfg.dlq && id in Run(cfg, INIT, steps).w.db.jobs
    ensures var s := Run(cfg, INIT, steps);
      id in s.refused || id in s.dropped
      || Traced(s.w.db.jobs[id], Awaits(s.w.queue, id), Awaits(s.held, id), HasLetter(s.w.db, id), false, false)
  {
    InvOverRuns(cfg, INIT, steps);
    assert TracedIn(Run(cfg, INIT, steps), id);
  }

  // Whatever the scheduler and the replays suffer, no job is stranded: every
  // status names the place the job can still be found in.
  lemma NoSilentLoss(cfg: Config, steps: seq<Step>, id: Id)
    requires cfg.dlq
    requires forall step :: step in steps ==> Reliable(step)
    requires id in Run(cfg, INIT, steps).w.db.jobs
    ensures var s := Run(cfg, INIT, steps);
      var db, job := s.w.db, s.w.db.jobs[id];
      && (job.status.ACCEPTED? ==> Awaits(s.w.queue, id))
      && (job.status.PENDING? ==> Awaits(s.w.queue, id) || HasLetter(db, id))
      && (job.status.DISPATCHED? ==> Awaits(s.held, id))
      && (job.status.FAILED? ==> job.nextRetryAt.Some?)
      && (job.status.DEAD_LETTERED? ==> |set k | k in db.letters && db.letters[k].notificationId == id| == 1)
  {
    InvOverRuns(cfg, INIT, steps);
    ReliableRunsExcuseNothing(cfg, INIT, steps);
    var s := Run(cfg, INIT, steps);
    assert TracedIn(s, id);
    if s.w.db.jobs[id].status.DEAD_LETTERED? {
      OneLetterEach(s.w.db, id);
    }
  }

  // The letters of any run carry at least MaxAttempts attempts, one letter a
  // notification, each with the service and payload of its job.
  lemma LettersAreExhaustedJobs(cfg: Config, steps: seq<Step>, k: Id)
    requires cfg.dlq && k in Run(cfg, INIT, steps).w.db.letters
    ensures var db := Run(cfg, INIT, steps).w.db;
      && db.letters[k].attemptCount >= cfg.maxAttempts
      && Known(db.jobs, ReplayJob(db.letters[k]))
      && (forall other :: other in db.letters && db.letters[other].notificationId == db.letters[k].notificationId
            ==> other == k)
  {
    InvOverRuns(cfg, INIT, steps);
  }
}
