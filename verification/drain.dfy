// Fault-free passes drain a backlog, fifty jobs at a time, each job once.

module Drain {
  import opened Domain
  import opened Schema
  import opened Query
  import opened Poll
  import opened Pipeline
  import opened Coarse
  import opened Batch

  const LIMIT: nat := 50

  datatype Pass = Pass(now: Time, batch: seq<Job>, envs: Id -> IterEnv)

  // The batch is an answer to the poll, no call is cut and the letter IDs drawn
  // are new and distinct, as UUIDs are.
  ghost predicate Smooth(w: World, p: Pass) {
    && IsTop(DueJobs(w.db, p.now), RetryTime, LIMIT, p.batch)
    && (forall j :: j in p.batch ==> Uncut(p.envs(j.requestId)) && p.envs(j.requestId).letterId !in w.db.letters)
    && DistinctLetterIds(p.batch, p.envs)
  }

  lemma PollReturnsRows(db: Tables, now: Time, batch: seq<Job>)
    requires JobsKeyed(db.services, db.jobs) && IsTop(DueJobs(db, now), RetryTime, LIMIT, batch)
    ensures DistinctIds(batch)
    ensures forall j :: j in batch ==> j.requestId in db.jobs && db.jobs[j.requestId] == j && Due(j, now)
  {
    forall j | j in batch ensures j.requestId in db.jobs && db.jobs[j.requestId] == j && Due(j, now) {
      assert j in DueJobs(db, now);
    }
    assert forall i | 0 <= i < |batch| :: batch[i] in batch;
  }

  // One uncut iteration on a fresh snapshot: re-enqueued below the limit,
  // dead-lettered at it.
  lemma IterateHandles(cfg: Config, w: World, job: Job, env: IterEnv)
    requires Integrity(w.db) && cfg.dlq && Uncut(env) && env.letterId !in w.db.letters
    requires job.requestId in w.db.jobs && w.db.jobs[job.requestId] == job
    ensures var after := Iterate(cfg, w, job, env);
      if job.retryCount < cfg.maxAttempts then
        && after.db.jobs[job.requestId] == job.(status := PENDING)
        && after.queue == w.queue + multiset{job}
      else
        && after.db.jobs[job.requestId] == job.(status := DEAD_LETTERED)
        && HasLetter(after.db, job.requestId) && after.queue == w.queue
  {
    var dl := LetterFor(job, env.letterId, env.now);
    InsertionKeepsLetters(w.db, dl);
    assert LetterAccepted(w.db, dl);
    SameLetters(InsertLetter(w.db, dl), SetStatus(InsertLetter(w.db, dl), job.requestId, DEAD_LETTERED));
  }

  // Each job of a smooth pass is handled as above, in a pass of any length.
  lemma PassHandles(cfg: Config, w: World, p: Pass, k: nat)
    requires Integrity(w.db) && cfg.dlq && Smooth(w, p) && k < |p.batch|
    ensures var job := p.batch[k];
      var after := RunBatch(cfg, w, p.batch, p.envs);
      job.requestId in after.db.jobs
      && if job.retryCount < cfg.maxAttempts
         then after.db.jobs[job.requestId] == job.(status := PENDING) && after.queue[job] == w.queue[job] + 1
         else after.db.jobs[job.requestId] == job.(status := DEAD_LETTERED) && HasLetter(after.db, job.requestId)
              && after.queue[job] == w.queue[job]
  {
    var job := p.batch[k];
    PollReturnsRows(w.db, p.now, p.batch);
    assert job in p.batch;
    IterateHandles(cfg, w, job, p.envs(job.requestId));
    FaultsStayWithTheirJob(cfg, w, p.batch, p.envs, k);
    var alone, after := Iterate(cfg, w, job, p.envs(job.requestId)), RunBatch(cfg, w, p.batch, p.envs);
    hide Iterate, RunBatch;
    if HasLetter(alone.db, job.requestId) {
      var id :| id in alone.db.letters && alone.db.letters[id].notificationId == job.requestId;
      assert id in after.db.letters;
    }
  }

  // A pass takes exactly its batch out of the due set of any later moment.
  lemma PassShrinksDue(cfg: Config, w: World, p: Pass, t: Time)
    requires Integrity(w.db) && cfg.dlq && Smooth(w, p)
    ensures DueJobs(RunBatch(cfg, w, p.batch, p.envs).db, t) == DueJobs(w.db, t) - set j | j in p.batch
  {
    var after := RunBatch(cfg, w, p.batch, p.envs);
    PollReturnsRows(w.db, p.now, p.batch);
    RowsKept(cfg, w, p.batch, p.envs);
    hide RunBatch;
    forall id | id in w.db.jobs
      ensures if w.db.jobs[id] in p.batch then !after.db.jobs[id].status.FAILED? else after.db.jobs[id] == w.db.jobs[id]
    {
      if w.db.jobs[id] in p.batch {
        var k :| 0 <= k < |p.batch| && p.batch[k] == w.db.jobs[id];
        PassHandles(cfg, w, p, k);
      } else {
        OutsideBatchUntouched(cfg, w, p.batch, p.envs, id);
      }
    }
  }

  lemma {:induction false} RowsKept(cfg: Config, w: World, batch: seq<Job>, envs: Id -> IterEnv)
    ensures RunBatch(cfg, w, batch, envs).db.jobs.Keys == w.db.jobs.Keys
    decreases |batch|
  {
    if batch != [] {
      IterateFrame(cfg, w, batch[0], envs(batch[0].requestId));
      RowsKept(cfg, Iterate(cfg, w, batch[0], envs(batch[0].requestId)), batch[1..], envs);
    }
  }

  lemma {:induction false} PassKeepsIntegrity(cfg: Config, w: World, batch: seq<Job>, envs: Id -> IterEnv)
    requires Integrity(w.db)
    ensures Integrity(RunBatch(cfg, w, batch, envs).db)
    decreases |batch|
  {
    if batch != [] {
      IterateKeepsIntegrity(cfg, w, batch[0], envs(batch[0].requestId));
      PassKeepsIntegrity(cfg, Iterate(cfg, w, batch[0], envs(batch[0].requestId)), batch[1..], envs);
    }
  }

  lemma IterateKeepsIntegrity(cfg: Config, w: World, job: Job, env: IterEnv)
    requires Integrity(w.db)
    ensures Integrity(Iterate(cfg, w, job, env).db)
  {
    hide Integrity;
    var dl := LetterFor(job, env.letterId, env.now);
    IntegrityKept(w.db, Update(job.requestId, PENDING));
    IntegrityKept(w.db, Letter(dl));
    BuryKeepsIntegrity(w, job, env);
    BuryKeepsIntegrity(w.(db := InsertLetter(w.db, dl)), job, env);
  }

  lemma BuryKeepsIntegrity(w: World, job: Job, env: IterEnv)
    requires Integrity(w.db)
    ensures Integrity(Bury(w, job, env).db)
  {
    hide Integrity;
    var marked := SetStatus(w.db, job.requestId, DEAD_LETTERED);
    IntegrityKept(w.db, Update(job.requestId, DEAD_LETTERED));
    IntegrityKept(marked, Count(job.serviceId, FAILED, env.now));
  }

  function RunPasses(cfg: Config, w: World, passes: seq<Pass>): World
    decreases |passes|
  {
    if passes == [] then w
    else RunPasses(cfg, RunBatch(cfg, w, passes[0].batch, passes[0].envs), passes[1..])
  }

  ghost predicate AllSmooth(cfg: Config, w: World, passes: seq<Pass>)
    decreases |passes|
  {
    passes != [] ==>
      Smooth(w, passes[0]) && AllSmooth(cfg, RunBatch(cfg, w, passes[0].batch, passes[0].envs), passes[1..])
  }

  function Taken(passes: seq<Pass>): seq<Job> {
    if passes == [] then [] else passes[0].batch + Taken(passes[1..])
  }

  lemma BatchLeavesRest(due: set<Job>, key: Job -> int, batch: seq<Job>)
    requires IsTop(due, key, LIMIT, batch)
    ensures multiset(batch) + multiset(due - set j | j in batch) == multiset(due)
    ensures |due - set j | j in batch| == if |due| <= LIMIT then 0 else |due| - LIMIT
  {
    TopSize(batch);
    var taken := set j | j in batch;
    assert taken <= due;
    DistinctAsMultiset(batch);
    assert multiset(due) == multiset(taken) + multiset(due - taken);
    assert |due - taken| == |due| - |taken|;
  }

  lemma {:induction false} DistinctAsMultiset(batch: seq<Job>)
    requires forall i, j | 0 <= i < j < |batch| :: batch[i] != batch[j]
    ensures multiset(batch) == multiset(set j | j in batch)
  {
    if batch != [] {
      var last := |batch| - 1;
      var init := batch[..last];
      DistinctAsMultiset(init);
      assert batch == init + [batch[last]];
      assert (set j | j in batch) == (set j | j in init) + {batch[last]};
    } else {
      assert (set j | j in batch) == {};
    }
  }

  // No pass takes a job whose time comes later than that of one it leaves.
  lemma PassTakesEarliest(cfg: Config, w: World, p: Pass, k: nat, id: Id)
    requires Integrity(w.db) && cfg.dlq && Smooth(w, p) && k < |p.batch|
    requires var after := RunBatch(cfg, w, p.batch, p.envs).db.jobs;
      id in after && after[id].status == FAILED && after[id].nextRetryAt.Some? && after[id].nextRetryAt.value <= p.now
    ensures p.batch[k].nextRetryAt.Some?
    ensures p.batch[k].nextRetryAt.value <= RunBatch(cfg, w, p.batch, p.envs).db.jobs[id].nextRetryAt.value
  {
    var after := RunBatch(cfg, w, p.batch, p.envs).db;
    TopIsEarliestDue(w.db, p.now, LIMIT, p.batch);
    PassShrinksDue(cfg, w, p, p.now);
    DueIsWaiting(w.db, p.now);
    DueIsWaiting(after, p.now);
    hide RunBatch, Smooth, Integrity, IsTop, DueJobs;
    assert after.jobs[id] in DueJobs(after, p.now);
    assert after.jobs[id] in DueJobs(w.db, p.now) && after.jobs[id] !in p.batch;
    var x :| x in w.db.jobs && w.db.jobs[x] == after.jobs[id];
    assert Waits(w.db.jobs[x], p.now);
  }

  // The jobs are in the order of their times.
  ghost predicate InOrder(jobs: seq<Job>) {
    && (forall j :: j in jobs ==> j.nextRetryAt.Some?)
    && forall i, j | 0 <= i < j < |jobs| :: jobs[i].nextRetryAt.value <= jobs[j].nextRetryAt.value
  }

  ghost predicate AllBefore(a: seq<Job>, b: seq<Job>) {
    forall x, y :: x in a && y in b ==>
      x.nextRetryAt.Some? && y.nextRetryAt.Some? && x.nextRetryAt.value <= y.nextRetryAt.value
  }

  lemma InOrderConcat(a: seq<Job>, b: seq<Job>)
    requires InOrder(a) && InOrder(b) && AllBefore(a, b)
    ensures InOrder(a + b)
  {
    forall i, j | 0 <= i < j < |a + b| ensures (a + b)[i].nextRetryAt.value <= (a + b)[j].nextRetryAt.value {
      if i < |a| <= j {
        assert a[i] in a && b[j - |a|] in b;
      }
    }
  }

  // With none newly due, the passes together take the backlog in that order.
  lemma {:induction false} BacklogInOrder(cfg: Config, w: World, passes: seq<Pass>, now: Time)
    requires Integrity(w.db) && cfg.dlq && AllSmooth(cfg, w, passes)
    requires forall p :: p in passes ==> DueJobs(w.db, p.now) == DueJobs(w.db, now)
    ensures InOrder(Taken(passes))
    decreases |passes|
  {
    if passes != [] {
      var p, rest := passes[0], passes[1..];
      assert p in passes;
      var w1 := RunBatch(cfg, w, p.batch, p.envs);
      FirstPass(cfg, w, passes, now);
      hide RunBatch, Integrity, DueJobs, IsTop, InOrder, AllBefore, AllSmooth, Smooth, RetryTime;
      BacklogInOrder(cfg, w1, rest, now);
      BacklogDrains(cfg, w1, rest, now);
      FewerJobs(multiset(Taken(rest)), multiset(DueJobs(RunPasses(cfg, w1, rest).db, now)),
                multiset(DueJobs(w1.db, now)));
      FirstBatchIsFirst(w.db, p, now, Taken(rest), DueJobs(w1.db, now));
      InOrderConcat(p.batch, Taken(rest));
    }
  }

  lemma FewerJobs(a: multiset<Job>, b: multiset<Job>, all: multiset<Job>)
    requires a + b == all
    ensures a <= all
  {
  }

  // What the first of several passes leaves to the others.
  lemma FirstPass(cfg: Config, w: World, passes: seq<Pass>, now: Time)
    requires Integrity(w.db) && cfg.dlq && passes != [] && AllSmooth(cfg, w, passes)
    requires forall p :: p in passes ==> DueJobs(w.db, p.now) == DueJobs(w.db, now)
    ensures var p, rest := passes[0], passes[1..];
      var w1 := RunBatch(cfg, w, p.batch, p.envs);
      && IsTop(DueJobs(w.db, p.now), RetryTime, LIMIT, p.batch)
      && Integrity(w1.db) && AllSmooth(cfg, w1, rest)
      && DueJobs(w1.db, now) == DueJobs(w.db, now) - (set j | j in p.batch)
      && forall q :: q in rest ==> DueJobs(w1.db, q.now) == DueJobs(w1.db, now)
  {
    hide RunBatch, Integrity, DueJobs, IsTop;
    var p, rest := passes[0], passes[1..];
    assert p in passes;
    PassKeepsIntegrity(cfg, w, p.batch, p.envs);
    PassShrinksDue(cfg, w, p, now);
    forall q | q in rest ensures DueJobs(RunBatch(cfg, w, p.batch, p.envs).db, q.now)
      == DueJobs(RunBatch(cfg, w, p.batch, p.envs).db, now)
    {
      assert q in passes;
      PassShrinksDue(cfg, w, p, q.now);
    }
  }

  lemma FirstBatchIsFirst(db: Tables, p: Pass, now: Time, later: seq<Job>, left: set<Job>)
    requires IsTop(DueJobs(db, p.now), RetryTime, LIMIT, p.batch) && DueJobs(db, p.now) == DueJobs(db, now)
    requires left == DueJobs(db, now) - set j | j in p.batch
    requires multiset(later) <= multiset(left)
    ensures InOrder(p.batch) && AllBefore(p.batch, later)
  {
    TopIsEarliestDue(db, p.now, LIMIT, p.batch);
    DueIsWaiting(db, p.now);
    hide IsTop, DueJobs;
    forall x, y | x in p.batch && y in later
      ensures x.nextRetryAt.Some? && y.nextRetryAt.Some? && x.nextRetryAt.value <= y.nextRetryAt.value
    {
      assert y in multiset(later) && y in left;
      var id :| id in db.jobs && db.jobs[id] == y;
      var i :| 0 <= i < |p.batch| && p.batch[i] == x;
    }
  }

  // With n jobs due and none newly due, k passes leave max(0, n - 50k) due; what
  // they took and what is left make up the backlog, each job once.
  lemma {:induction false} BacklogDrains(cfg: Config, w: World, passes: seq<Pass>, now: Time)
    requires Integrity(w.db) && cfg.dlq && AllSmooth(cfg, w, passes)
    requires forall p :: p in passes ==> DueJobs(w.db, p.now) == DueJobs(w.db, now)
    ensures var left := DueJobs(RunPasses(cfg, w, passes).db, now);
      var n := |DueJobs(w.db, now)|;
      && |left| == (if n <= LIMIT * |passes| then 0 else n - LIMIT * |passes|)
      && multiset(Taken(passes)) + multiset(left) == multiset(DueJobs(w.db, now))
    decreases |passes|
  {
    if passes != [] {
      var p, rest := passes[0], passes[1..];
      assert p in passes;
      var w1 := RunBatch(cfg, w, p.batch, p.envs);
      FirstPass(cfg, w, passes, now);
      BatchLeavesRest(DueJobs(w.db, p.now), RetryTime, p.batch);
      BacklogDrains(cfg, w1, rest, now);
    }
  }
}
