// internal/server/notify.go: the handlers that drive the protocol. A handler
// takes the service the auth interceptor resolved as caller.

module NotifyService {
  import opened Domain
  import opened Schema
  import opened Query
  import opened Stores
  import opened Pipeline

  class NotifyServer {
    const jobStore: NotificationJobStore
    const deadLetterStore: DeadLetterStore
    const nc: Broker

    constructor (jobStore: NotificationJobStore, deadLetterStore: DeadLetterStore, nc: Broker)
      requires deadLetterStore.db == jobStore.db
      ensures Wired()
      ensures this.jobStore == jobStore && this.deadLetterStore == deadLetterStore && this.nc == nc
    {
      this.jobStore, this.deadLetterStore, this.nc := jobStore, deadLetterStore, nc;
    }

    ghost predicate Wired() {
      deadLetterStore.db == jobStore.db
    }

    ghost function View(): World
      reads jobStore.db, nc
    {
      World(jobStore.db.View(), nc.queue)
    }

    method SendNotification(serviceId: Id, payload: Option<Payload>, env: SendEnv)
      returns (code: Code, notificationId: Id)
      modifies jobStore.db`jobs, jobStore.db`stats, nc
      ensures (View(), code) == Send(old(View()), serviceId, payload, env)
      ensures code.OK? ==> notificationId == env.requestId
    {
      notificationId := env.requestId;
      if serviceId == NO_ID {
        return InvalidArgument, notificationId;
      }
      var body := Json("{}");
      if payload.Some? {
        body := payload.value;
      }
      var job := Job(notificationId, serviceId, body, ACCEPTED, 0, None);
      var created := jobStore.Create(job, env.create);
      if !created {
        return Internal, notificationId;
      }
      var counted := jobStore.IncrementStats(serviceId, ACCEPTED, env.now, env.count);
      var sent := nc.Publish(job, env.publish);
      code := if sent then OK else Internal;
    }

    method ReplayDeadLetter(caller: Option<Id>, letterId: Id, env: ReplayEnv) returns (code: Code, notificationId: Id)
      requires Wired()
      modifies jobStore.db`jobs, jobStore.db`letters, jobStore.db`stats, nc
      ensures (View(), code) == Replay(old(View()), caller, letterId, env)
      ensures code.OK? ==> letterId in old(jobStore.db.letters)
                           && notificationId == old(jobStore.db.letters)[letterId].notificationId
    {
      notificationId := NO_ID;
      if letterId == NO_ID {
        return InvalidArgument, notificationId;
      }
      if caller.None? {
        return Internal, notificationId;
      }
      var found, letter := deadLetterStore.GetByID(letterId, env.lookup);
      if !found {
        return Internal, notificationId;
      }
      if letter.None? {
        return NotFound, notificationId;
      }
      var dl := letter.value;
      if dl.serviceId != caller.value {
        return PermissionDenied, notificationId;
      }
      notificationId := dl.notificationId;
      var job := Job(dl.notificationId, dl.serviceId, dl.payload, PENDING, 0, None);
      if job.payload.Malformed? {
        return Internal, notificationId;
      }
      var reset := jobStore.ResetForReplay(job, env.reset);
      if !reset {
        return Internal, notificationId;
      }
      var sent := nc.Publish(job, env.publish);
      if !sent {
        return Internal, notificationId;
      }
      var deleted := deadLetterStore.DeleteByNotificationID(dl.notificationId, env.delete);
      if !deleted {
        return Internal, notificationId;
      }
      var counted := jobStore.IncrementStats(caller.value, ACCEPTED, env.now, env.count);
      code := OK;
    }

    // The query reads an empty service ID as every service; no registered
    // service has one.
    static predicate Visible(dl: DeadLetter, serviceId: Id) {
      serviceId == NO_ID || dl.serviceId == serviceId
    }

    // Always scoped to the caller: an answer holds exactly the caller's rows,
    // newest first, all of them unless there are more than 100.
    method ListDeadLetters(caller: Option<Id>, requested: Id, outcome: Outcome)
      returns (code: Code, letters: seq<DeadLetter>)
      ensures code == if caller.None? then Internal
                      else if requested != NO_ID && requested != caller.value then PermissionDenied
                      else if !outcome.Clean? then Internal
                      else OK
      ensures code.OK? ==> forall i | 0 <= i < |letters| ::
        letters[i] in deadLetterStore.db.letters.Values && Visible(letters[i], caller.value)
      ensures code.OK? ==> forall i, j | 0 <= i < j < |letters| ::
        letters[i] != letters[j] && letters[i].failedAt >= letters[j].failedAt
      ensures code.OK? ==> |letters| <= 100
      ensures code.OK? ==> forall dl | dl in deadLetterStore.db.letters.Values && Visible(dl, caller.value) ::
        dl in letters || (|letters| == 100 && forall i | 0 <= i < 100 :: letters[i].failedAt >= dl.failedAt)
      ensures !code.OK? ==> letters == []
    {
      letters := [];
      if caller.None? {
        return Internal, letters;
      }
      if requested != NO_ID && requested != caller.value {
        return PermissionDenied, letters;
      }
      var ok, rows := deadLetterStore.List(caller.value, outcome);
      if !ok {
        return Internal, letters;
      }
      for i := 0 to |rows|
        invariant letters == rows[..i]
      {
        letters := letters + [rows[i]];
      }
      code := OK;
      assert letters == rows;
      ghost var mine, key := LettersOf(deadLetterStore.db.View(), caller.value), (dl: DeadLetter) => -dl.failedAt;
      TopIsAllOrFull(mine, key, 100, rows);
      assert forall i | 0 <= i < |rows| :: key(rows[i]) == -rows[i].failedAt;
      forall dl | dl in deadLetterStore.db.letters.Values && Visible(dl, caller.value)
        ensures dl in letters || (|letters| == 100 && forall i | 0 <= i < 100 :: letters[i].failedAt >= dl.failedAt)
      {
        assert dl in mine;
        if dl !in rows {
          assert forall i | 0 <= i < |rows| :: key(rows[i]) <= key(dl);
        }
      }
    }
  }
}
