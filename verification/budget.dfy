// The retry budget: with one scheduler whose passes are atomic, a job that is
// not replayed is re-enqueued fewer than MaxAttempts times, apart from the
// passes cut between the publish and the PENDING write.

module Budget {
  import opened Domain
  import opened Schema
  import opened Query
  import opened Pipeline
  import opened Coarse
  import opened Batch
  import opened Drain

  // Nothing ran between the poll and this iteration on its job.
  ghost predicate FreshSnapshot(s: System, step: Step) {
    step.IterateStep? && step.snapshot in s.snapshots ==>
      && step.snapshot.requestId in s.w.db.jobs
      && s.w.db.jobs[step.snapshot.requestId] == step.snapshot
      && step.snapshot.status.FAILED?
  }

  // A replay of the job that its owner asks for; any other is refused.
  ghost predicate Replays(s: System, step: Step, id: Id) {
    && step.ReplayStep? && step.letterId in s.w.db.letters && s.w.db.letters[step.letterId].notificationId == id
    && step.caller == Some(s.w.db.letters[step.letterId].serviceId)
  }

  ghost predicate OneScheduler(cfg: Config, s: System, steps: seq<Step>)
    decreases |steps|
  {
    steps != [] ==> FreshSnapshot(s, steps[0]) && OneScheduler(cfg, Apply(cfg, s, steps[0]), steps[1..])
  }

  ghost predicate NeverReplayed(cfg: Config, s: System, steps: seq<Step>, id: Id)
    decreases |steps|
  {
    steps != [] ==> !Replays(s, steps[0], id) && NeverReplayed(cfg, Apply(cfg, s, steps[0]), steps[1..], id)
  }

  ghost predicate Requeues(cfg: Config, s: System, step: Step, id: Id) {
    Republishes(cfg, s, step) && step.snapshot.requestId == id
  }

  // It does so but is cut before the status is written.
  predicate CutShort(step: Step) {
    step.IterateStep? && (!step.iter.publish.Clean? || step.iter.update.LostCall?)
  }

  ghost function Requeued(cfg: Config, s: System, steps: seq<Step>, id: Id): nat
    decreases |steps|
  {
    if steps == [] then 0
    else (if Requeues(cfg, s, steps[0], id) then 1 else 0) + Requeued(cfg, Apply(cfg, s, steps[0]), steps[1..], id)
  }

  ghost function Cuts(cfg: Config, s: System, steps: seq<Step>, id: Id): nat
    decreases |steps|
  {
    if steps == [] then 0
    else
      var cut := if Requeues(cfg, s, steps[0], id) && CutShort(steps[0]) then 1 else 0;
      cut + Cuts(cfg, Apply(cfg, s, steps[0]), steps[1..], id)
  }

  // The uncut re-enqueues a job may still see: failing again spends one.
  function Left(cfg: Config, jobs: map<Id, Job>, id: Id): nat {
    var left := if id !in jobs then cfg.maxAttempts - 1
                else if jobs[id].status.FAILED? then cfg.maxAttempts - jobs[id].retryCount
                else cfg.maxAttempts - 1 - jobs[id].retryCount;
    if left < 0 then 0 else left
  }

  lemma IterateSpends(cfg: Config, s: System, step: Step, id: Id)
    requires FreshSnapshot(s, step) && step.IterateStep?
    ensures var after := Apply(cfg, s, step).w.db.jobs;
      Left(cfg, after, id) + (if Requeues(cfg, s, step, id) && !CutShort(step) then 1 else 0)
      <= Left(cfg, s.w.db.jobs, id)
  {
    if step.snapshot in s.snapshots {
      IterateFrame(cfg, s.w, step.snapshot, step.iter);
      IterateIsItsChange(cfg, s.w, step.snapshot, step.iter);
      hide Iterate;
    }
  }

  lemma StepSpends(cfg: Config, s: System, step: Step, id: Id)
    requires FreshSnapshot(s, step) && !Replays(s, step, id)
    ensures var after := Apply(cfg, s, step).w.db.jobs;
      Left(cfg, after, id) + (if Requeues(cfg, s, step, id) && !CutShort(step) then 1 else 0)
      <= Left(cfg, s.w.db.jobs, id)
  {
    if step.IterateStep? {
      IterateSpends(cfg, s, step, id);
    } else if step.ReplayStep? {
      ReplaySpends(cfg, s, step, id);
    } else {
      OtherStepSpends(cfg, s, step, id);
    }
  }

  lemma ReplaySpends(cfg: Config, s: System, step: Step, id: Id)
    requires step.ReplayStep? && !Replays(s, step, id)
    ensures Left(cfg, Apply(cfg, s, step).w.db.jobs, id) <= Left(cfg, s.w.db.jobs, id)
  {
    hide Redeliver, Replay, Left;
    ReplayCases(s.w, step.caller, step.letterId, step.replay);
    if Replay(s.w, step.caller, step.letterId, step.replay).0 != s.w {
      RedeliverRows(s.w, s.w.db.letters[step.letterId], step.replay);
      ResetSpends(cfg, s.w.db, ReplayJob(s.w.db.letters[step.letterId]), id);
    }
  }

  lemma ResetSpends(cfg: Config, db: Tables, job: Job, id: Id)
    requires job.requestId != id
    ensures Left(cfg, ResetForReplay(db, job).jobs, id) == Left(cfg, db.jobs, id)
  {
  }

  lemma RedeliverRows(w: World, dl: DeadLetter, env: ReplayEnv)
    ensures var after := Redeliver(w, dl, env).0.db.jobs;
      after == w.db.jobs || after == ResetForReplay(w.db, ReplayJob(dl)).jobs
  {
    var gone := DeleteLetters(ResetForReplay(w.db, ReplayJob(dl)), dl.notificationId);
    assert gone.jobs == ResetForReplay(w.db, ReplayJob(dl)).jobs;
    assert CountStat(gone, dl.serviceId, ACCEPTED, env.now).jobs == gone.jobs;
    hide DeleteLetters, CountStat, ResetForReplay, ResetAccepted;
  }

  lemma OtherStepSpends(cfg: Config, s: System, step: Step, id: Id)
    requires !step.IterateStep? && !step.ReplayStep?
    ensures Left(cfg, Apply(cfg, s, step).w.db.jobs, id) <= Left(cfg, s.w.db.jobs, id)
  {
    hide Left, Send, Dispatch, Deliver, SetStatus, FailJob, IsTop, DueJobs;
    match step
    case SendStep(serviceId, payload, send) =>
      SendRows(s.w, serviceId, payload, send);
      NewRowSpends(cfg, s.w.db.jobs, NewJob(serviceId, payload, send.requestId), id);
    case DispatchStep(message, work) =>
      DispatchRows(s.w.db, message, work);
      StatusSpends(cfg, s.w.db, message.requestId, DISPATCHED, id);
    case DeliverStep(message, work) =>
      DeliverRows(s.w.db, message, work);
      StatusSpends(cfg, s.w.db, message.requestId, DELIVERED, id);
    case FailStep(failed, at, _) => FailSpends(cfg, s.w.db, failed, at, id);
    case _ =>
  }

  lemma NewRowSpends(cfg: Config, jobs: map<Id, Job>, job: Job, id: Id)
    requires job.status.ACCEPTED? && job.retryCount == 0
    ensures job.requestId !in jobs ==> Left(cfg, jobs[job.requestId := job], id) <= Left(cfg, jobs, id)
  {
  }

  lemma StatusSpends(cfg: Config, db: Tables, updated: Id, status: Status, id: Id)
    requires !status.FAILED?
    ensures Left(cfg, SetStatus(db, updated, status).jobs, id) <= Left(cfg, db.jobs, id)
  {
  }

  lemma FailSpends(cfg: Config, db: Tables, failed: Id, at: Time, id: Id)
    ensures Left(cfg, FailJob(db, failed, at).jobs, id) <= Left(cfg, db.jobs, id)
  {
  }

  lemma SendRows(w: World, serviceId: Id, payload: Option<Payload>, env: SendEnv)
    ensures var after := Send(w, serviceId, payload, env).0.db.jobs;
      var job := NewJob(serviceId, payload, env.requestId);
      after == w.db.jobs || (job.requestId !in w.db.jobs && after == w.db.jobs[job.requestId := job])
  {
    var created := InsertJob(w.db, NewJob(serviceId, payload, env.requestId));
    assert CountStat(created, serviceId, ACCEPTED, env.now).jobs == created.jobs;
    hide CountStat, NewJob;
  }

  lemma DispatchRows(db: Tables, m: Job, env: WorkEnv)
    ensures var after := Dispatch(db, m, env).0.jobs;
      after == db.jobs || after == SetStatus(db, m.requestId, DISPATCHED).jobs
  {
  }

  lemma DeliverRows(db: Tables, m: Job, env: WorkEnv)
    ensures var after := Deliver(db, m, env).jobs;
      after == db.jobs || after == SetStatus(db, m.requestId, DELIVERED).jobs
  {
  }

  lemma {:induction false} SpendingIsBounded(cfg: Config, s: System, steps: seq<Step>, id: Id)
    requires cfg.dlq && Inv(cfg, s) && OneScheduler(cfg, s, steps) && NeverReplayed(cfg, s, steps, id)
    ensures Requeued(cfg, s, steps, id) <= Left(cfg, s.w.db.jobs, id) + Cuts(cfg, s, steps, id)
    decreases |steps|
  {
    if steps != [] {
      StepKeeps(cfg, s, steps[0]);
      StepSpends(cfg, s, steps[0], id);
      hide Inv, Left, Requeues, CutShort, Apply;
      SpendingIsBounded(cfg, Apply(cfg, s, steps[0]), steps[1..], id);
    }
  }

  // From the send of a job, or from any moment it is not FAILED, such as right
  // after a replay, up to the next replay.
  lemma RetryBudget(cfg: Config, s: System, steps: seq<Step>, id: Id)
    requires cfg.dlq && Inv(cfg, s) && OneScheduler(cfg, s, steps) && NeverReplayed(cfg, s, steps, id)
    requires id in s.w.db.jobs ==> !s.w.db.jobs[id].status.FAILED?
    ensures Requeued(cfg, s, steps, id)
         <= (if cfg.maxAttempts < 1 then 0 else cfg.maxAttempts - 1) + Cuts(cfg, s, steps, id)
  {
    SpendingIsBounded(cfg, s, steps, id);
  }

  // ----- an atomic pass is such a run -----

  function PassSteps(batch: seq<Job>, envs: Id -> IterEnv): seq<Step> {
    if batch == [] then [] else [IterateStep(batch[0], envs(batch[0].requestId))] + PassSteps(batch[1..], envs)
  }

  // ProcessRetries, run without interference, is a poll and then one coarse
  // step a job, every one of them on a fresh snapshot.
  lemma {:induction false} PassIsCoarseRun(cfg: Config, s: System, batch: seq<Job>, envs: Id -> IterEnv)
    requires DistinctIds(batch)
    requires forall j :: j in batch ==> j in s.snapshots && j.status.FAILED?
    requires forall j :: j in batch ==> j.requestId in s.w.db.jobs && s.w.db.jobs[j.requestId] == j
    ensures OneScheduler(cfg, s, PassSteps(batch, envs))
    ensures Run(cfg, s, PassSteps(batch, envs)) == s.(w := RunBatch(cfg, s.w, batch, envs))
    decreases |batch|
  {
    if batch != [] {
      var first := batch[0];
      assert first in batch;
      var step := IterateStep(first, envs(first.requestId));
      var s1 := s.(w := Iterate(cfg, s.w, first, envs(first.requestId)));
      assert Apply(cfg, s, step) == s1;
      IterateFrame(cfg, s.w, first, envs(first.requestId));
      assert PassSteps(batch, envs)[1..] == PassSteps(batch[1..], envs);
      forall j | j in batch[1..]
        ensures j.requestId in s1.w.db.jobs && s1.w.db.jobs[j.requestId] == j && j in batch
      {
        var i :| 0 <= i < |batch[1..]| && batch[1..][i] == j;
        assert j == batch[i + 1];
      }
      PassIsCoarseRun(cfg, s1, batch[1..], envs);
    }
  }

  // A poll and the pass over what it returned, with no step between them: what
  // ProcessRetries does is a coarse run of one scheduler.
  lemma PollThenPassIsCoarseRun(cfg: Config, s: System, batch: seq<Job>, now: Time, envs: Id -> IterEnv)
    requires Inv(cfg, s) && IsTop(DueJobs(s.w.db, now), RetryTime, LIMIT, batch)
    ensures var steps := [PollStep(batch, now)] + PassSteps(batch, envs);
      && OneScheduler(cfg, s, steps)
      && Run(cfg, s, steps)
         == s.(w := RunBatch(cfg, s.w, batch, envs), snapshots := s.snapshots + set j | j in batch)
  {
    var polled := Apply(cfg, s, PollStep(batch, now));
    var steps := [PollStep(batch, now)] + PassSteps(batch, envs);
    PollReturnsRows(s.w.db, now, batch);
    assert steps[1..] == PassSteps(batch, envs);
    hide Inv, IsTop, DueJobs, RunBatch;
    PassIsCoarseRun(cfg, polled, batch, envs);
  }
}
