// internal/retry/scheduler.go

module RetryScheduler {
  import opened Domain
  import opened Schema
  import opened Query
  import opened Poll
  import opened Stores
  import opened Pipeline

  class Scheduler {
    const maxAttempts: int
    const jobStore: NotificationJobStore
    const deadLetterStore: DeadLetterStore?
    const nc: Broker

    constructor (maxAttempts: int, jobStore: NotificationJobStore, deadLetterStore: DeadLetterStore?, nc: Broker)
      requires deadLetterStore != null ==> deadLetterStore.db == jobStore.db
      ensures Wired() && this.maxAttempts == maxAttempts
      ensures this.jobStore == jobStore && this.deadLetterStore == deadLetterStore && this.nc == nc
    {
      this.maxAttempts, this.jobStore := maxAttempts, jobStore;
      this.deadLetterStore, this.nc := deadLetterStore, nc;
    }

    // All stores share one pool.
    ghost predicate Wired() {
      deadLetterStore != null ==> deadLetterStore.db == jobStore.db
    }

    function Cfg(): Config {
      Config(maxAttempts, deadLetterStore != null)
    }

    ghost function View(): World
      reads jobStore.db, nc
    {
      World(jobStore.db.View(), nc.queue)
    }

    // One poll: fetch at most 50 due jobs, then handle each in turn; a fault on
    // one job moves on to the next.
    method ProcessRetries(now: Time, fetch: Outcome, envs: Id -> IterEnv) returns (ghost batch: seq<Job>)
      requires Wired()
      modifies jobStore.db`jobs, jobStore.db`letters, jobStore.db`stats, nc
      ensures fetch.Clean? ==> IsTop(DueJobs(old(View()).db, now), RetryTime, 50, batch)
      ensures fetch.Clean? ==> EarliestDue(old(View()).db, now, 50, batch)
      ensures !fetch.Clean? ==> batch == []
      ensures View() == RunBatch(Cfg(), old(View()), batch, envs)
    {
      var ok, jobs := jobStore.GetRetryableJobs(now, 50, fetch);
      batch := jobs;
      if !ok {
        return;
      }
      var i := 0;
      while i < |jobs|
        invariant 0 <= i <= |jobs|
        invariant RunBatch(Cfg(), View(), jobs[i..], envs) == RunBatch(Cfg(), old(View()), jobs, envs)
      {
        var job := jobs[i];
        var env := envs(job.requestId);
        ghost var before := View();
        if !ShouldRetry(Cfg(), job.retryCount) {
          DeadLetterJob(job, env);
        } else if job.payload.Json? {
          var sent := nc.Publish(job, env.publish);
          if sent {
            var updated := jobStore.UpdateStatus(job.requestId, PENDING, env.update);
          }
        }
        assert View() == Iterate(Cfg(), before, job, env);
        assert jobs[i..][1..] == jobs[i + 1..];
        i := i + 1;
      }
      assert jobs[i..] == [];
    }

    // The letter first, so that a crash before the status write leaves the job
    // FAILED for the next poll.
    method DeadLetterJob(job: Job, env: IterEnv)
      requires Wired()
      modifies jobStore.db`jobs, jobStore.db`letters, jobStore.db`stats
      ensures View() == Pipeline.DeadLetterJob(Cfg(), old(View()), job, env)
    {
      if deadLetterStore != null {
        var dl := LetterFor(job, env.letterId, env.now);
        var stored := deadLetterStore.Create(dl, env.create);
        if !stored {
          return;
        }
      }
      var marked := jobStore.UpdateStatus(job.requestId, DEAD_LETTERED, env.update);
      if !marked {
        return;
      }
      var counted := jobStore.IncrementStats(job.serviceId, FAILED, env.now, env.count);
    }
  }
}
