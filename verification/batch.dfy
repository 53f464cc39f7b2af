// One pass of the scheduler over its batch: its order does not matter, and a
// fault stays with its job.

module Batch {
  import opened Domain
  import opened Schema
  import opened Pipeline

  ghost predicate DistinctIds(batch: seq<Job>) {
    forall i, j | 0 <= i < j < |batch| :: batch[i].requestId != batch[j].requestId
  }

  // A statement-by-statement reading of one iteration's effect, so that two of
  // them can be compared: which calls take effect depends on the tables only
  // through the letter insertion.
  datatype Change = Change(sent: bool, inserted: bool, status: Option<Status>, counted: bool)

  function ChangeOf(cfg: Config, w: World, job: Job, env: IterEnv): Change {
    if ShouldRetry(cfg, job.retryCount) then
      if job.payload.Malformed? || env.publish.LostCall? then Change(false, false, None, false)
      else Change(true, false, if env.publish.Clean? && !env.update.LostCall? then Some(PENDING) else None, false)
    else
      var reached := !cfg.dlq || (env.create.Clean? && LetterAccepted(w.db, LetterFor(job, env.letterId, env.now)));
      Change(false,
             cfg.dlq && !env.create.LostCall? && !HasLetter(w.db, job.requestId)
               && LetterAccepted(w.db, LetterFor(job, env.letterId, env.now)),
             if reached && !env.update.LostCall? then Some(DEAD_LETTERED) else None,
             reached && env.update.Clean? && !env.count.LostCall? && StatAccepted(w.db, job.serviceId))
  }

  function Marked(jobs: map<Id, Job>, id: Id, status: Option<Status>): map<Id, Job> {
    if status.Some? && id in jobs then jobs[id := jobs[id].(status := status.value)] else jobs
  }

  function Bumped(stats: map<StatKey, nat>, key: StatKey, counted: bool): map<StatKey, nat> {
    if counted then stats[key := StatAt(stats, key) + 1] else stats
  }

  function Stored(letters: map<Id, DeadLetter>, dl: DeadLetter, inserted: bool): map<Id, DeadLetter> {
    if inserted then letters[dl.id := dl] else letters
  }

  function Applied(w: World, job: Job, env: IterEnv, e: Change): World {
    World(
      w.db.(
        jobs := Marked(w.db.jobs, job.requestId, e.status),
        letters := Stored(w.db.letters, LetterFor(job, env.letterId, env.now), e.inserted),
        stats := Bumped(w.db.stats, StatKey(job.serviceId, FAILED, HourBucket(env.now)), e.counted)),
      if e.sent then w.queue + multiset{job} else w.queue)
  }

  lemma IterateIsItsChange(cfg: Config, w: World, job: Job, env: IterEnv)
    ensures Iterate(cfg, w, job, env) == Applied(w, job, env, ChangeOf(cfg, w, job, env))
  {
  }

  // ----- what one job's iteration leaves alone -----

  lemma IterateFrame(cfg: Config, w: World, job: Job, env: IterEnv)
    ensures var after := Iterate(cfg, w, job, env);
      && after.db.services == w.db.services
      && after.db.jobs.Keys == w.db.jobs.Keys
      && (forall x :: x in w.db.jobs && x != job.requestId ==> after.db.jobs[x] == w.db.jobs[x])
      && (job.requestId in w.db.jobs ==>
            after.db.jobs[job.requestId] == w.db.jobs[job.requestId].(status := after.db.jobs[job.requestId].status))
      && (after.db.letters == w.db.letters
          || (!HasLetter(w.db, job.requestId) && env.letterId !in w.db.letters && cfg.dlq
              && after.db.letters == w.db.letters[env.letterId := LetterFor(job, env.letterId, env.now)]))
      && (after.queue == w.queue || after.queue == w.queue + multiset{job})
  {
    IterateIsItsChange(cfg, w, job, env);
    hide Iterate, HasLetter;
  }

  // ----- order -----

  lemma ChangeUnmoved(cfg: Config, w: World, a: Job, ea: IterEnv, b: Job, eb: IterEnv)
    requires a.requestId != b.requestId && ea.letterId != eb.letterId
    ensures ChangeOf(cfg, Iterate(cfg, w, a, ea), b, eb) == ChangeOf(cfg, w, b, eb)
  {
    var after := Iterate(cfg, w, a, ea);
    IterateFrame(cfg, w, a, ea);
    assert HasLetter(after.db, b.requestId) <==> HasLetter(w.db, b.requestId) by {
      if HasLetter(w.db, b.requestId) {
        var k :| k in w.db.letters && w.db.letters[k].notificationId == b.requestId;
        assert k in after.db.letters && after.db.letters[k].notificationId == b.requestId;
      }
    }
  }

  // Iterations of two different jobs commute, whatever their faults.
  lemma IterationsCommute(cfg: Config, w: World, a: Job, ea: IterEnv, b: Job, eb: IterEnv)
    requires a.requestId != b.requestId && ea.letterId != eb.letterId
    ensures Iterate(cfg, Iterate(cfg, w, a, ea), b, eb) == Iterate(cfg, Iterate(cfg, w, b, eb), a, ea)
  {
    var wa, wb := Iterate(cfg, w, a, ea), Iterate(cfg, w, b, eb);
    ChangeUnmoved(cfg, w, a, ea, b, eb);
    ChangeUnmoved(cfg, w, b, eb, a, ea);
    IterateIsItsChange(cfg, w, a, ea);
    IterateIsItsChange(cfg, w, b, eb);
    IterateIsItsChange(cfg, wa, b, eb);
    IterateIsItsChange(cfg, wb, a, ea);
    hide Iterate, ChangeOf, HourBucket;
    var xa, xb := ChangeOf(cfg, w, a, ea), ChangeOf(cfg, w, b, eb);
    AppliedCommute(w, a, ea, xa, b, eb, xb);
  }

  lemma AppliedCommute(w: World, a: Job, ea: IterEnv, xa: Change, b: Job, eb: IterEnv, xb: Change)
    requires a.requestId != b.requestId && ea.letterId != eb.letterId
    ensures Applied(Applied(w, a, ea, xa), b, eb, xb) == Applied(Applied(w, b, eb, xb), a, ea, xa)
  {
    MarksCommute(w.db.jobs, a.requestId, xa.status, b.requestId, xb.status);
    StoresCommute(w.db.letters, LetterFor(a, ea.letterId, ea.now), xa.inserted,
                  LetterFor(b, eb.letterId, eb.now), xb.inserted);
    BumpsCommute(w.db.stats, StatKey(a.serviceId, FAILED, HourBucket(ea.now)), xa.counted,
                 StatKey(b.serviceId, FAILED, HourBucket(eb.now)), xb.counted);
    hide HourBucket, Marked, Stored, Bumped;
    var ab, ba := Applied(Applied(w, a, ea, xa), b, eb, xb), Applied(Applied(w, b, eb, xb), a, ea, xa);
    assert ab.queue == ba.queue;
  }

  lemma MarksCommute(jobs: map<Id, Job>, a: Id, sa: Option<Status>, b: Id, sb: Option<Status>)
    requires a != b
    ensures Marked(Marked(jobs, a, sa), b, sb) == Marked(Marked(jobs, b, sb), a, sa)
  {
  }

  lemma StoresCommute(letters: map<Id, DeadLetter>, a: DeadLetter, ia: bool, b: DeadLetter, ib: bool)
    requires a.id != b.id
    ensures Stored(Stored(letters, a, ia), b, ib) == Stored(Stored(letters, b, ib), a, ia)
  {
  }

  lemma BumpsCommute(stats: map<StatKey, nat>, a: StatKey, ca: bool, b: StatKey, cb: bool)
    ensures Bumped(Bumped(stats, a, ca), b, cb) == Bumped(Bumped(stats, b, cb), a, ca)
  {
  }

  ghost predicate DistinctLetterIds(batch: seq<Job>, envs: Id -> IterEnv) {
    forall i, j | 0 <= i < j < |batch| :: envs(batch[i].requestId).letterId != envs(batch[j].requestId).letterId
  }

  lemma {:induction false} RunBatchConcat(cfg: Config, w: World, a: seq<Job>, b: seq<Job>, envs: Id -> IterEnv)
    ensures RunBatch(cfg, w, a + b, envs) == RunBatch(cfg, RunBatch(cfg, w, a, envs), b, envs)
    decreases |a|
  {
    if a == [] {
      assert a + b == b;
    } else {
      assert (a + b)[1..] == a[1..] + b;
      RunBatchConcat(cfg, Iterate(cfg, w, a[0], envs(a[0].requestId)), a[1..], b, envs);
    }
  }

  // Any job of the batch may be taken first.
  lemma {:induction false} PullToFront(cfg: Config, w: World, pre: seq<Job>, x: Job, envs: Id -> IterEnv)
    requires DistinctIds(pre + [x]) && DistinctLetterIds(pre + [x], envs)
    ensures RunBatch(cfg, w, pre + [x], envs) == RunBatch(cfg, Iterate(cfg, w, x, envs(x.requestId)), pre, envs)
    decreases |pre|
  {
    var batch := pre + [x];
    if pre == [] {
      assert batch == [x];
      assert batch[1..] == [];
    } else {
      var first := pre[0];
      assert batch[0] == first && batch[1..] == pre[1..] + [x] && batch[|pre|] == x;
      assert forall i | 0 <= i < |batch[1..]| :: batch[1..][i] == batch[i + 1];
      var w1 := Iterate(cfg, w, first, envs(first.requestId));
      PullToFront(cfg, w1, pre[1..], x, envs);
      IterationsCommute(cfg, w, first, envs(first.requestId), x, envs(x.requestId));
    }
  }

  lemma WithoutOne(q: seq<Job>, k: nat)
    requires k < |q|
    ensures multiset(q[..k] + q[k + 1..]) == multiset(q) - multiset{q[k]}
  {
    assert q == q[..k] + [q[k]] + q[k + 1..];
  }

  // Every permutation of a duplicate-free batch ends in the same tables and the
  // same queue, under any assignment of faults to jobs.
  lemma {:induction false} OrderIrrelevant(cfg: Config, w: World, p: seq<Job>, q: seq<Job>, envs: Id -> IterEnv)
    requires multiset(p) == multiset(q) && DistinctIds(q) && DistinctLetterIds(q, envs)
    ensures RunBatch(cfg, w, p, envs) == RunBatch(cfg, w, q, envs)
    decreases |p|
  {
    hide Iterate, DistinctIds, DistinctLetterIds;
    if p == [] {
      assert |multiset(p)| == |p| && |multiset(q)| == |q|;
    } else {
      var x := p[0];
      assert x in multiset(q);
      var k :| 0 <= k < |q| && q[k] == x;
      var rest := q[..k] + q[k + 1..];
      WithoutOne(p, 0);
      WithoutOne(q, k);
      assert p[..0] + p[1..] == p[1..];
      StillDistinct(q, k, envs);
      TakeOut(cfg, w, q, k, envs);
      OrderIrrelevant(cfg, Iterate(cfg, w, x, envs(x.requestId)), p[1..], rest, envs);
    }
  }

  lemma StillDistinct(q: seq<Job>, k: nat, envs: Id -> IterEnv)
    requires k < |q| && DistinctIds(q) && DistinctLetterIds(q, envs)
    ensures DistinctIds(q[..k] + q[k + 1..]) && DistinctLetterIds(q[..k] + q[k + 1..], envs)
  {
    var rest := q[..k] + q[k + 1..];
    assert forall i | 0 <= i < |rest| :: rest[i] == if i < k then q[i] else q[i + 1];
  }

  // Job k of the batch handled first, then the rest in order.
  lemma TakeOut(cfg: Config, w: World, q: seq<Job>, k: nat, envs: Id -> IterEnv)
    requires k < |q| && DistinctIds(q) && DistinctLetterIds(q, envs)
    ensures RunBatch(cfg, w, q, envs)
         == RunBatch(cfg, Iterate(cfg, w, q[k], envs(q[k].requestId)), q[..k] + q[k + 1..], envs)
  {
    var x, pre, post := q[k], q[..k], q[k + 1..];
    assert q == pre + [x] + post && pre + [x] == q[..k + 1];
    hide RunBatch, Iterate;
    RunBatchConcat(cfg, w, pre + [x], post, envs);
    PullToFront(cfg, w, pre, x, envs);
    RunBatchConcat(cfg, Iterate(cfg, w, x, envs(x.requestId)), pre, post, envs);
  }

  // ----- fault isolation -----

  // Everything the two worlds hold about one job.
  ghost predicate SameFor(v: World, w: World, id: Id) {
    && (id in v.db.jobs <==> id in w.db.jobs)
    && (id in v.db.jobs ==> v.db.jobs[id] == w.db.jobs[id])
    && (forall k :: k in v.db.letters && v.db.letters[k].notificationId == id
          ==> k in w.db.letters && w.db.letters[k] == v.db.letters[k])
    && (forall k :: k in w.db.letters && w.db.letters[k].notificationId == id
          ==> k in v.db.letters && w.db.letters[k] == v.db.letters[k])
    && (forall m: Job :: m.requestId == id ==> v.queue[m] == w.queue[m])
  }

  lemma OtherIterationsLeaveJob(cfg: Config, w: World, job: Job, env: IterEnv, id: Id)
    requires id != job.requestId
    ensures SameFor(w, Iterate(cfg, w, job, env), id)
  {
    IterateFrame(cfg, w, job, env);
    hide Iterate;
  }

  lemma SameForTrans(u: World, v: World, w: World, id: Id)
    requires SameFor(u, v, id) && SameFor(v, w, id)
    ensures SameFor(u, w, id)
  {
  }

  // Rows outside the batch are untouched.
  lemma {:induction false} OutsideBatchUntouched(cfg: Config, w: World, batch: seq<Job>, envs: Id -> IterEnv, id: Id)
    requires forall j :: j in batch ==> j.requestId != id
    ensures SameFor(w, RunBatch(cfg, w, batch, envs), id)
    decreases |batch|
  {
    if batch != [] {
      var first := batch[0];
      assert first in batch;
      var w1 := Iterate(cfg, w, first, envs(first.requestId));
      OtherIterationsLeaveJob(cfg, w, first, envs(first.requestId), id);
      OutsideBatchUntouched(cfg, w1, batch[1..], envs, id);
      SameForTrans(w, w1, RunBatch(cfg, w, batch, envs), id);
    }
  }

  // What a pass does to a job of its batch is what that job alone would have
  // suffered: no fault of another job can be seen in it.
  lemma {:induction false} FaultsStayWithTheirJob(cfg: Config, w: World, batch: seq<Job>, envs: Id -> IterEnv, k: nat)
    requires k < |batch| && DistinctIds(batch) && DistinctLetterIds(batch, envs)
    ensures SameFor(Iterate(cfg, w, batch[k], envs(batch[k].requestId)), RunBatch(cfg, w, batch, envs),
                    batch[k].requestId)
  {
    var pre, post := batch[..k], batch[k + 1..];
    TakeOut(cfg, w, batch, k, envs);
    assert forall j :: j in pre + post ==> exists i :: 0 <= i < |batch| && i != k && batch[i] == j;
    OutsideBatchUntouched(cfg, Iterate(cfg, w, batch[k], envs(batch[k].requestId)), pre + post, envs,
                          batch[k].requestId);
  }

  // Two fault assignments that agree on a job give it the same outcome.
  lemma OnlyOwnFaultsMatter(cfg: Config, w: World, batch: seq<Job>, e1: Id -> IterEnv, e2: Id -> IterEnv, k: nat)
    requires k < |batch| && DistinctIds(batch) && DistinctLetterIds(batch, e1) && DistinctLetterIds(batch, e2)
    requires e1(batch[k].requestId) == e2(batch[k].requestId)
    ensures SameFor(RunBatch(cfg, w, batch, e1), RunBatch(cfg, w, batch, e2), batch[k].requestId)
  {
    FaultsStayWithTheirJob(cfg, w, batch, e1, k);
    FaultsStayWithTheirJob(cfg, w, batch, e2, k);
    hide RunBatch, Iterate;
  }
}
