// What each handler stores, sends and answers, column by column.

module Laws {
  import opened Domain
  import opened Schema
  import opened Stats
  import opened Pipeline

  // The stat of one status of one service rises by one, every other stays.
  ghost predicate OneMore(before: Tables, after: Tables, serviceId: Id, status: Status) {
    forall svc: Id, st: Status ::
      Total(after.stats, svc, st) == Total(before.stats, svc, st) + if svc == serviceId && st == status then 1 else 0
  }

  lemma CountIsOneMore(before: Tables, db: Tables, serviceId: Id, status: Status, t: Time)
    requires serviceId in db.services && before.stats == db.stats
    ensures OneMore(before, CountStat(db, serviceId, status, t), serviceId, status)
  {
    forall svc: Id, st: Status
      ensures Total(CountStat(db, serviceId, status, t).stats, svc, st)
           == Total(before.stats, svc, st) + if svc == serviceId && st == status then 1 else 0
    {
      CountAddsOne(db, serviceId, status, t, svc, st);
    }
  }

  // IncrementStats: the bucket of the full hour, created at one.
  lemma CountIs(db: Tables, serviceId: Id, status: Status, t: Time)
    ensures var key := StatKey(serviceId, status, t - t % 3600);
      var count := if key in db.stats then db.stats[key] + 1 else 1;
      && (StatAccepted(db, serviceId) <==> serviceId in db.services)
      && CountStat(db, serviceId, status, t) ==
         if serviceId in db.services then Tables(db.services, db.jobs, db.letters, db.stats[key := count]) else db
  {
  }

  // ----- sending -----

  predicate IsJson(p: Payload) {
    p.Json?
  }

  // A send is answered OK exactly if it names a registered service, its payload
  // is JSON, its ID is new and the row and the message both got through.
  lemma SendAnswers(w: World, serviceId: Id, payload: Option<Payload>, env: SendEnv)
    ensures var code := Send(w, serviceId, payload, env).1;
      && (code == OK <==> serviceId != 0 && serviceId in w.db.services && env.requestId !in w.db.jobs
                          && (payload.Some? ==> IsJson(payload.value)) && env.create == Clean && env.publish == Clean)
      && (code == InvalidArgument <==> serviceId == 0)
      && (code == OK || code == InvalidArgument || code == Internal)
  {
  }

  // After an OK the row under the answered ID and the one new message carry what
  // the caller sent; nothing else changed but the ACCEPTED stat.
  lemma SendStoresWhatWasSent(w: World, serviceId: Id, payload: Option<Payload>, env: SendEnv)
    requires Send(w, serviceId, payload, env).1 == OK
    ensures var (after, _) := Send(w, serviceId, payload, env);
      var body := if payload.Some? then payload.value else Json("{}");
      var job := Job(env.requestId, serviceId, body, ACCEPTED, 0, None);
      && env.requestId !in w.db.jobs && after.db.jobs == w.db.jobs[env.requestId := job]
      && after.queue == w.queue + multiset{job}
      && after.db.letters == w.db.letters && after.db.services == w.db.services
      && if env.count == LostCall then after.db.stats == w.db.stats
         else OneMore(w.db, after.db, serviceId, ACCEPTED)
  {
    var created := InsertJob(w.db, NewJob(serviceId, payload, env.requestId));
    CountIsOneMore(w.db, created, serviceId, ACCEPTED, env.now);
    hide OneMore;
  }

  // A refused send leaves everything as it was.
  lemma RefusedSendStoresNothing(w: World, serviceId: Id, payload: Option<Payload>, env: SendEnv)
    requires serviceId == 0 || serviceId !in w.db.services || env.requestId in w.db.jobs
          || (payload.Some? && !IsJson(payload.value)) || env.create == LostCall
    ensures Send(w, serviceId, payload, env).0 == w
  {
  }

  // ----- burying -----

  // The letter of a job that had none, column by column.
  lemma BurialStores(cfg: Config, w: World, job: Job, env: IterEnv)
    requires cfg.dlq && job.retryCount >= cfg.maxAttempts && job.serviceId in w.db.services
    requires forall k :: k in w.db.letters ==> w.db.letters[k].notificationId != job.requestId
    requires env.letterId !in w.db.letters && env.create == Clean && env.update == Clean
    ensures var after := Iterate(cfg, w, job, env);
      && after.db.letters == w.db.letters[env.letterId :=
           DeadLetter(env.letterId, job.requestId, job.serviceId, job.payload,
                      "max retries exceeded", job.retryCount, env.now)]
      && (job.requestId in w.db.jobs ==>
            after.db.jobs == w.db.jobs[job.requestId := w.db.jobs[job.requestId].(status := DEAD_LETTERED)])
      && after.queue == w.queue
      && if env.count == LostCall then after.db.stats == w.db.stats
         else OneMore(w.db, after.db, job.serviceId, FAILED)
  {
    var dl := LetterFor(job, env.letterId, env.now);
    var marked := SetStatus(InsertLetter(w.db, dl), job.requestId, DEAD_LETTERED);
    CountIsOneMore(w.db, marked, job.serviceId, FAILED, env.now);
    hide OneMore;
  }

  // Below the limit the row is published and turned PENDING, and nothing else.
  lemma RetryPublishes(cfg: Config, w: World, job: Job, env: IterEnv)
    requires job.retryCount < cfg.maxAttempts && IsJson(job.payload) && env.publish == Clean && env.update == Clean
    ensures var after := Iterate(cfg, w, job, env);
      && after.queue == w.queue + multiset{job}
      && after.db.letters == w.db.letters && after.db.stats == w.db.stats && after.db.services == w.db.services
      && after.db.jobs == if job.requestId in w.db.jobs
                          then w.db.jobs[job.requestId := w.db.jobs[job.requestId].(status := PENDING)] else w.db.jobs
  {
  }

  // ----- replaying -----

  // The reset can be written.
  predicate Resettable(db: Tables, dl: DeadLetter) {
    IsJson(dl.payload) && (dl.notificationId in db.jobs || dl.serviceId in db.services)
  }

  // The answer to a replay, whatever becomes of its calls; the stat does not
  // matter to it.
  lemma ReplayAnswers(w: World, caller: Option<Id>, letterId: Id, env: ReplayEnv)
    ensures var code := Replay(w, caller, letterId, env).1;
      var asked := letterId != 0 && caller.Some? && env.lookup == Clean;
      && (code == InvalidArgument <==> letterId == 0)
      && (code == NotFound <==> asked && letterId !in w.db.letters)
      && (code == PermissionDenied <==>
            asked && letterId in w.db.letters && w.db.letters[letterId].serviceId != caller.value)
      && (code == OK <==>
            && asked && letterId in w.db.letters && w.db.letters[letterId].serviceId == caller.value
            && Resettable(w.db, w.db.letters[letterId])
            && env.reset == Clean && env.publish == Clean && env.delete == Clean)
      && (code == InvalidArgument || code == NotFound || code == PermissionDenied || code == OK || code == Internal)
  {
  }

  // A replay that names no letter of its caller's leaves everything as it was.
  lemma RefusedReplayChangesNothing(w: World, caller: Option<Id>, letterId: Id, env: ReplayEnv)
    requires letterId == 0 || letterId !in w.db.letters || caller != Some(w.db.letters[letterId].serviceId)
          || env.lookup != Clean || !IsJson(w.db.letters[letterId].payload)
    ensures Replay(w, caller, letterId, env).0 == w
  {
  }

  // A replay that is answered OK: the job as it was sent, PENDING on a new
  // budget, out once more; its letter and no other gone; one more ACCEPTED.
  lemma ReplayRestores(w: World, caller: Id, letterId: Id, env: ReplayEnv)
    requires Replay(w, Some(caller), letterId, env).1 == OK && letterId in w.db.letters
    requires w.db.letters[letterId].notificationId in w.db.jobs && caller in w.db.services
    requires forall a, b | a in w.db.letters && b in w.db.letters ::
      w.db.letters[a].notificationId == w.db.letters[b].notificationId ==> a == b
    ensures var dl := w.db.letters[letterId];
      var id, after := dl.notificationId, Replay(w, Some(caller), letterId, env).0;
      && dl.serviceId == caller
      && after.db.jobs == w.db.jobs[id := w.db.jobs[id].(status := PENDING, retryCount := 0, nextRetryAt := None)]
      && after.queue == w.queue + multiset{Job(id, caller, dl.payload, PENDING, 0, None)}
      && after.db.letters == w.db.letters - {letterId} && after.db.services == w.db.services
      && if env.count == LostCall then after.db.stats == w.db.stats
         else OneMore(w.db, after.db, caller, ACCEPTED)
  {
    var dl := w.db.letters[letterId];
    var gone := DeleteLetters(ResetForReplay(w.db, ReplayJob(dl)), dl.notificationId);
    CountIsOneMore(w.db, gone, caller, ACCEPTED, env.now);
    assert gone.letters == w.db.letters - {letterId};
    hide OneMore, DeleteLetters;
  }

  // ----- the worker -----

  // A dispatch that gets through.
  lemma DispatchMarks(db: Tables, m: Job, env: WorkEnv)
    requires env.update == Clean && m.serviceId in db.services
    ensures var (after, spawned) := Dispatch(db, m, env);
      && spawned && after.letters == db.letters && after.services == db.services
      && after.jobs == (if m.requestId in db.jobs
                        then db.jobs[m.requestId := db.jobs[m.requestId].(status := DISPATCHED)] else db.jobs)
      && if env.count == LostCall then after.stats == db.stats else OneMore(db, after, m.serviceId, DISPATCHED)
  {
    CountIsOneMore(db, SetStatus(db, m.requestId, DISPATCHED), m.serviceId, DISPATCHED, env.now);
    hide OneMore;
  }

  // A dispatch whose write is answered with an error delivers and counts nothing.
  lemma FailedDispatchStops(db: Tables, m: Job, env: WorkEnv)
    requires env.update != Clean
    ensures var (after, spawned) := Dispatch(db, m, env);
      !spawned && after.stats == db.stats && (env.update == LostCall ==> after == db)
  {
  }

  // A delivery counts even if its write failed.
  lemma DeliveryCounts(db: Tables, m: Job, env: WorkEnv)
    requires m.serviceId in db.services
    ensures var after := Deliver(db, m, env);
      && after.letters == db.letters && after.services == db.services
      && after.jobs == (if m.requestId in db.jobs && env.update != LostCall
                        then db.jobs[m.requestId := db.jobs[m.requestId].(status := DELIVERED)] else db.jobs)
      && if env.count == LostCall then after.stats == db.stats else OneMore(db, after, m.serviceId, DELIVERED)
  {
    var marked := Call(env.update, db, SetStatus(db, m.requestId, DELIVERED));
    CountIsOneMore(db, marked, m.serviceId, DELIVERED, env.now);
    hide OneMore;
  }

  // ----- the statements -----

  // FailJob, on a row whose count may still grow.
  lemma FailureIs(db: Tables, id: Id, at: Time)
    ensures var full := id in db.jobs && db.jobs[id].retryCount >= 2147483647;
      && (FailAccepted(db, id) <==> !full)
      && FailJob(db, id, at) ==
         if id !in db.jobs || full then db
         else
           var row := db.jobs[id];
           Tables(db.services,
                  db.jobs[id := Job(row.requestId, row.serviceId, row.payload, FAILED, row.retryCount + 1, Some(at))],
                  db.letters, db.stats)
  {
  }

  // ResetForReplay, its insert included.
  lemma ResetIs(db: Tables, job: Job)
    ensures var there, id := job.requestId in db.jobs, job.requestId;
      && (ResetAccepted(db, job) <==> IsJson(job.payload) && (there || job.serviceId in db.services))
      && (!ResetAccepted(db, job) ==> ResetForReplay(db, job) == db)
      && (ResetAccepted(db, job) ==>
            var (serviceId, payload) :=
              if there then (db.jobs[id].serviceId, db.jobs[id].payload) else (job.serviceId, job.payload);
            var rid := if there then db.jobs[id].requestId else id;
            ResetForReplay(db, job)
            == Tables(db.services, db.jobs[id := Job(rid, serviceId, payload, PENDING, 0, None)], db.letters, db.stats))
  {
  }

  // INSERT INTO dead_letters ... ON CONFLICT (notification_id) DO NOTHING.
  lemma LetterIs(db: Tables, dl: DeadLetter)
    ensures var known := exists k :: k in db.letters && db.letters[k].notificationId == dl.notificationId;
      && (LetterAccepted(db, dl) <==> known || (dl.id !in db.letters && dl.serviceId in db.services))
      && InsertLetter(db, dl) ==
         if known || !LetterAccepted(db, dl) then db
         else Tables(db.services, db.jobs, db.letters[dl.id := dl], db.stats)
  {
  }

  // Registering and deleting a service.
  lemma RegisterIs(db: Tables, svc: Service)
    requires svc.deletedAt == None
    ensures var free := svc.id !in db.services
        && forall k :: k in db.services && db.services[k].deletedAt == None ==>
             db.services[k].name != svc.name && db.services[k].keyHash != svc.keyHash;
      && (ServiceAccepted(db, svc) <==> free)
      && InsertService(db, svc)
         == if free then Tables(db.services[svc.id := svc], db.jobs, db.letters, db.stats) else db
  {
  }

  lemma RetireIs(db: Tables, id: Id, at: Time)
    ensures var live := id in db.services && db.services[id].deletedAt == None;
      && (DeleteFindsService(db, id) <==> live)
      && SoftDelete(db, id, at) ==
         if live then
           var row := db.services[id];
           Tables(db.services[id := Service(row.id, row.name, row.keyHash, row.createdAt, Some(at))],
                  db.jobs, db.letters, db.stats)
         else db
  {
  }
}
