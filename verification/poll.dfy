// The scheduler's poll, column by column: which rows it returns, and in which
// order.

module Poll {
  import opened Domain
  import opened Schema
  import opened Query

  predicate Waits(job: Job, now: Time) {
    job.status == FAILED && job.nextRetryAt.Some? && job.nextRetryAt.value <= now
  }

  // batch holds FAILED rows whose time has come, none twice, the earliest first;
  // a row left out whose time has come is left for want of room and no earlier.
  ghost predicate EarliestDue(db: Tables, now: Time, limit: nat, batch: seq<Job>) {
    && |batch| <= limit
    && (forall i | 0 <= i < |batch| :: batch[i] in db.jobs.Values && Waits(batch[i], now))
    && (forall i, j | 0 <= i < j < |batch| ::
          batch[i] != batch[j] && batch[i].nextRetryAt.value <= batch[j].nextRetryAt.value)
    && (forall id | id in db.jobs && Waits(db.jobs[id], now) && db.jobs[id] !in batch ::
          |batch| == limit
          && forall i | 0 <= i < |batch| :: batch[i].nextRetryAt.value <= db.jobs[id].nextRetryAt.value)
  }

  lemma DueIsWaiting(db: Tables, now: Time)
    ensures forall j :: j in DueJobs(db, now) <==> j in db.jobs.Values && Waits(j, now)
    ensures forall j :: j in DueJobs(db, now) ==> RetryTime(j) == j.nextRetryAt.value
  {
  }

  // The rows the statement may return are exactly these.
  lemma TopIsEarliestDue(db: Tables, now: Time, limit: nat, batch: seq<Job>)
    ensures IsTop(DueJobs(db, now), RetryTime, limit, batch) <==> EarliestDue(db, now, limit, batch)
  {
    var due := DueJobs(db, now);
    DueIsWaiting(db, now);
    hide DueJobs, Due, RetryTime;
    if IsTop(due, RetryTime, limit, batch) {
      TopIsAllOrFull(due, RetryTime, limit, batch);
      forall id | id in db.jobs && Waits(db.jobs[id], now) && db.jobs[id] !in batch
        ensures |batch| == limit
        ensures forall i | 0 <= i < |batch| :: batch[i].nextRetryAt.value <= db.jobs[id].nextRetryAt.value
      {
        assert db.jobs[id] in due;
        forall i | 0 <= i < |batch| ensures batch[i].nextRetryAt.value <= db.jobs[id].nextRetryAt.value {
          assert RetryTime(batch[i]) <= RetryTime(db.jobs[id]);
        }
      }
      forall i, j | 0 <= i < j < |batch|
        ensures batch[i].nextRetryAt.value <= batch[j].nextRetryAt.value
      {
        assert RetryTime(batch[i]) <= RetryTime(batch[j]);
      }
    }
    if EarliestDue(db, now, limit, batch) {
      forall r, i | r in due && r !in batch && 0 <= i < |batch| ensures RetryTime(batch[i]) <= RetryTime(r) {
        var id :| id in db.jobs && db.jobs[id] == r;
      }
      SizeIsRight(due, limit, batch);
    }
  }

  lemma SizeIsRight(rows: set<Job>, limit: nat, batch: seq<Job>)
    requires |batch| <= limit && (forall i | 0 <= i < |batch| :: batch[i] in rows)
    requires forall i, j | 0 <= i < j < |batch| :: batch[i] != batch[j]
    requires (exists r :: r in rows && r !in batch) ==> |batch| == limit
    ensures |batch| == if |rows| < limit then |rows| else limit
  {
    var taken := set r | r in batch;
    TopSize(batch);
    assert taken <= rows;
    assert |rows| == |taken| + |rows - taken|;
    if |batch| < limit {
      assert rows == taken;
    }
  }
}
