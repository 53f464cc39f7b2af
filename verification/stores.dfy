// internal/store/postgres: the stores share one connection pool. Each method
// is one SQL statement; outcome says what becomes of the call.

module Stores {
  import opened Domain
  import opened Schema
  import opened Query
  import opened Poll

  class DB {
    var services: map<Id, Service>
    var jobs: map<Id, Job>
    var letters: map<Id, DeadLetter>
    var stats: map<StatKey, nat>

    constructor ()
      ensures View() == Tables(map[], map[], map[], map[])
    {
      services, jobs, letters, stats := map[], map[], map[], map[];
    }

    function View(): Tables
      reads this
    {
      Tables(services, jobs, letters, stats)
    }
  }

  class NotificationJobStore {
    const db: DB

    constructor (db: DB)
      ensures this.db == db
    {
      this.db := db;
    }

    method Create(job: Job, outcome: Outcome) returns (ok: bool)
      modifies db`jobs
      ensures ok == (outcome.Clean? && JobAccepted(old(db.View()), job))
      ensures db.View() == Call(outcome, old(db.View()), InsertJob(old(db.View()), job))
    {
      if outcome.LostCall? || job.requestId in db.jobs || job.serviceId !in db.services || job.payload.Malformed? {
        return false;
      }
      db.jobs := db.jobs[job.requestId := job];
      ok := outcome.Clean?;
    }

    method UpdateStatus(id: Id, status: Status, outcome: Outcome) returns (ok: bool)
      modifies db`jobs
      ensures ok == outcome.Clean?
      ensures db.View() == Call(outcome, old(db.View()), SetStatus(old(db.View()), id, status))
    {
      if !outcome.LostCall? && id in db.jobs {
        db.jobs := db.jobs[id := db.jobs[id].(status := status)];
      }
      ok := outcome.Clean?;
    }

    method FailJob(id: Id, nextRetryAt: Time, outcome: Outcome) returns (ok: bool)
      modifies db`jobs
      ensures ok == (outcome.Clean? && FailAccepted(old(db.View()), id))
      ensures db.View() == Call(outcome, old(db.View()), Schema.FailJob(old(db.View()), id, nextRetryAt))
    {
      if outcome.LostCall? {
        return false;
      }
      if id in db.jobs {
        var job := db.jobs[id];
        if job.retryCount >= MAX_INT32 {
          return false;
        }
        db.jobs := db.jobs[id :=
          job.(status := FAILED, retryCount := job.retryCount + 1, nextRetryAt := Some(nextRetryAt))];
      }
      ok := outcome.Clean?;
    }

    method ResetForReplay(job: Job, outcome: Outcome) returns (ok: bool)
      modifies db`jobs
      ensures ok == (outcome.Clean? && ResetAccepted(old(db.View()), job))
      ensures db.View() == Call(outcome, old(db.View()), Schema.ResetForReplay(old(db.View()), job))
    {
      if outcome.LostCall? || job.payload.Malformed? {
        return false;
      }
      if job.requestId in db.jobs {
        var row := db.jobs[job.requestId];
        db.jobs := db.jobs[job.requestId := row.(status := PENDING, retryCount := 0, nextRetryAt := None)];
      } else if job.serviceId in db.services {
        db.jobs := db.jobs[job.requestId := job.(status := PENDING, retryCount := 0, nextRetryAt := None)];
      } else {
        return false;
      }
      ok := outcome.Clean?;
    }

    method GetRetryableJobs(now: Time, limit: nat, outcome: Outcome) returns (ok: bool, jobs: seq<Job>)
      ensures ok == outcome.Clean?
      ensures ok ==> IsTop(DueJobs(db.View(), now), RetryTime, limit, jobs)
      ensures ok ==> EarliestDue(db.View(), now, limit, jobs)
      ensures !ok ==> jobs == []
    {
      if !outcome.Clean? {
        return false, [];
      }
      jobs := Select(DueJobs(db.View(), now), RetryTime, limit);
      TopIsEarliestDue(db.View(), now, limit, jobs);
      ok := true;
    }

    method IncrementStats(serviceId: Id, status: Status, t: Time, outcome: Outcome) returns (ok: bool)
      modifies db`stats
      ensures ok == (outcome.Clean? && StatAccepted(old(db.View()), serviceId))
      ensures db.View() == Call(outcome, old(db.View()), CountStat(old(db.View()), serviceId, status, t))
    {
      if outcome.LostCall? || serviceId !in db.services {
        return false;
      }
      var key := StatKey(serviceId, status, HourBucket(t));
      if key in db.stats {
        db.stats := db.stats[key := db.stats[key] + 1];
      } else {
        db.stats := db.stats[key := 1];
      }
      ok := outcome.Clean?;
    }
  }

  class DeadLetterStore {
    const db: DB

    constructor (db: DB)
      ensures this.db == db
    {
      this.db := db;
    }

    method Create(dl: DeadLetter, outcome: Outcome) returns (ok: bool)
      modifies db`letters
      ensures ok == (outcome.Clean? && LetterAccepted(old(db.View()), dl))
      ensures db.View() == Call(outcome, old(db.View()), InsertLetter(old(db.View()), dl))
    {
      if outcome.LostCall? {
        return false;
      }
      if !HasLetter(db.View(), dl.notificationId) {
        if dl.id in db.letters || dl.serviceId !in db.services {
          return false;
        }
        db.letters := db.letters[dl.id := dl];
      }
      ok := outcome.Clean?;
    }

    // Newest first, at most 100 rows.
    method List(serviceId: Id, outcome: Outcome) returns (ok: bool, letters: seq<DeadLetter>)
      ensures ok == outcome.Clean?
      ensures ok ==> IsTop(LettersOf(db.View(), serviceId), (dl: DeadLetter) => -dl.failedAt, 100, letters)
    {
      if !outcome.Clean? {
        return false, [];
      }
      letters := Select(LettersOf(db.View(), serviceId), (dl: DeadLetter) => -dl.failedAt, 100);
      ok := true;
    }

    method GetByID(id: Id, outcome: Outcome) returns (ok: bool, letter: Option<DeadLetter>)
      ensures ok == outcome.Clean?
      ensures ok ==> letter == if id in db.letters then Some(db.letters[id]) else None
      ensures !ok ==> letter.None?
    {
      ok := outcome.Clean?;
      letter := if ok && id in db.letters then Some(db.letters[id]) else None;
    }

    method DeleteByNotificationID(nid: Id, outcome: Outcome) returns (ok: bool)
      modifies db`letters
      ensures ok == outcome.Clean?
      ensures db.View() == Call(outcome, old(db.View()), DeleteLetters(old(db.View()), nid))
    {
      if !outcome.LostCall? {
        db.letters := map k | k in db.letters && db.letters[k].notificationId != nid :: db.letters[k];
      }
      ok := outcome.Clean?;
    }
  }

  // store.ErrAlreadyExists, store.ErrNotFound and any other failure.
  datatype Reply = Done | AlreadyExists | Missing | Broken

  class ServiceStore {
    const db: DB

    constructor (db: DB)
      ensures this.db == db
    {
      this.db := db;
    }

    method Create(svc: Service, outcome: Outcome) returns (r: Reply)
      requires svc.deletedAt.None?
      modifies db`services
      ensures r == if !outcome.Clean? then Broken
                   else if ServiceAccepted(old(db.View()), svc) then Done else AlreadyExists
      ensures db.View() == Call(outcome, old(db.View()), InsertService(old(db.View()), svc))
    {
      if outcome.LostCall? {
        return Broken;
      }
      if svc.id in db.services || LiveWith(db.View(), svc.name, svc.keyHash) {
        return if outcome.Clean? then AlreadyExists else Broken;
      }
      db.services := db.services[svc.id := svc];
      r := if outcome.Clean? then Done else Broken;
    }

    method Delete(id: Id, at: Time, outcome: Outcome) returns (r: Reply)
      modifies db`services
      ensures r == if !outcome.Clean? then Broken
                   else if DeleteFindsService(old(db.View()), id) then Done else Missing
      ensures db.View() == Call(outcome, old(db.View()), SoftDelete(old(db.View()), id, at))
    {
      if outcome.LostCall? {
        return Broken;
      }
      var affected := 0;
      if id in db.services && Live(db.services[id]) {
        db.services := db.services[id := db.services[id].(deletedAt := Some(at))];
        affected := 1;
      }
      r := if !outcome.Clean? then Broken else if affected == 0 then Missing else Done;
    }

    // The first row the query yields; Missing is the no-rows error.
    method GetByAPIKeyHash(hash: Id, outcome: Outcome) returns (r: Reply, svc: Option<Service>)
      ensures r.Done? <==> svc.Some?
      ensures r.Broken? <==> !outcome.Clean?
      ensures r.Missing? <==> outcome.Clean?
                              && forall k :: k in db.services && Live(db.services[k]) ==> db.services[k].keyHash != hash
      ensures svc.Some? ==> exists k :: k in db.services && Live(db.services[k]) && svc.value == db.services[k]
                                        && svc.value.keyHash == hash
    {
      if !outcome.Clean? {
        return Broken, None;
      }
      var rows := set k | k in db.services && Live(db.services[k]) && db.services[k].keyHash == hash;
      if rows == {} {
        assert forall k :: k in db.services && Live(db.services[k]) && db.services[k].keyHash == hash ==> k in rows;
        return Missing, None;
      }
      var k :| k in rows;
      return Done, Some(db.services[k]);
    }
  }

  // The notifications.jobs subject: a message published is delivered once.
  class Broker {
    var queue: multiset<Job>

    constructor ()
      ensures queue == multiset{}
    {
      queue := multiset{};
    }

    method Publish(message: Job, outcome: Outcome) returns (ok: bool)
      modifies this
      ensures ok == outcome.Clean?
      ensures queue == Call(outcome, old(queue), old(queue) + multiset{message})
    {
      if !outcome.LostCall? {
        queue := queue + multiset{message};
      }
      ok := outcome.Clean?;
    }
  }
}
