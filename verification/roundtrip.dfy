// Dead-lettering and replay as a round trip inside any coarse run: anything may
// happen before, between and to other jobs.

module RoundTrip {
  import opened Domain
  import opened Schema
  import opened Query
  import opened Pipeline
  import opened Coarse
  import opened Batch
  import opened Budget
  import opened Recovery

  lemma StableTrans(a: map<Id, Job>, b: map<Id, Job>, c: map<Id, Job>)
    requires Stable(a, b) && Stable(b, c) && JobsKeyedOnly(a) && JobsKeyedOnly(b)
    ensures Stable(a, c)
  {
    forall id | id in a ensures Known(c, a[id]) {
      assert Known(b, a[id]);
      assert Known(c, b[id]);
    }
  }

  lemma ExecStable(db: Tables, st: Statement)
    requires JobsKeyedOnly(db.jobs)
    ensures Stable(db.jobs, Exec(db, st).jobs) && Stable(db.jobs, db.jobs)
  {
  }

  lemma IterateStable(cfg: Config, w: World, job: Job, env: IterEnv)
    requires JobsKeyedOnly(w.db.jobs)
    ensures Stable(w.db.jobs, Iterate(cfg, w, job, env).db.jobs)
  {
    hide Iterate;
    IterateFrame(cfg, w, job, env);
  }

  lemma StepStable(cfg: Config, s: System, step: Step)
    requires JobsKeyedOnly(s.w.db.jobs)
    ensures Stable(s.w.db.jobs, Apply(cfg, s, step).w.db.jobs)
  {
    hide Send, Iterate, Replay, Dispatch, Deliver, Redeliver, Exec, Stable, JobsKeyedOnly, IsTop, DueJobs;
    var db := s.w.db;
    ExecStable(db, Unregister(0, 0));
    match step
    case SendStep(serviceId, payload, send) =>
      SendRows(s.w, serviceId, payload, send);
      NewRowStable(db.jobs, NewJob(serviceId, payload, send.requestId));
    case IterateStep(snapshot, iter) => IterateStable(cfg, s.w, snapshot, iter);
    case ReplayStep(caller, letterId, replay) =>
      ReplayCases(s.w, caller, letterId, replay);
      if letterId in db.letters {
        RedeliverRows(s.w, db.letters[letterId], replay);
        WriteStable(db, Reset(ReplayJob(db.letters[letterId])));
      }
    case DispatchStep(m, work) =>
      DispatchRows(db, m, work);
      WriteStable(db, Update(m.requestId, DISPATCHED));
    case DeliverStep(m, work) =>
      DeliverRows(db, m, work);
      WriteStable(db, Update(m.requestId, DELIVERED));
    case FailStep(id, at, _) => WriteStable(db, Fail(id, at));
    case _ =>
  }

  lemma NewRowStable(jobs: map<Id, Job>, job: Job)
    requires JobsKeyedOnly(jobs)
    ensures job.requestId !in jobs ==> Stable(jobs, jobs[job.requestId := job])
  {
  }

  lemma WriteStable(db: Tables, st: Statement)
    requires JobsKeyedOnly(db.jobs)
    ensures st.Reset? ==> Stable(db.jobs, ResetForReplay(db, st.job).jobs)
    ensures st.Update? ==> Stable(db.jobs, SetStatus(db, st.id, st.status).jobs)
    ensures st.Fail? ==> Stable(db.jobs, FailJob(db, st.id, st.at).jobs)
  {
    ExecStable(db, st);
  }

  // Over any run rows stay, with their service and payload.
  lemma {:induction false} RunStable(cfg: Config, s: System, steps: seq<Step>)
    requires cfg.dlq && Inv(cfg, s)
    ensures Stable(s.w.db.jobs, Run(cfg, s, steps).w.db.jobs)
    decreases |steps|
  {
    KeyedRows(cfg, s);
    if steps != [] {
      var s1 := Apply(cfg, s, steps[0]);
      KeyedAfter(cfg, s, steps[0]);
      StepKeeps(cfg, s, steps[0]);
      StepStable(cfg, s, steps[0]);
      RunStable(cfg, s1, steps[1..]);
      hide Inv, Apply, Stable;
      StableTrans(s.w.db.jobs, s1.w.db.jobs, Run(cfg, s1, steps[1..]).w.db.jobs);
    } else {
      hide Inv;
    }
  }

  lemma KeyedAfter(cfg: Config, s: System, step: Step)
    requires cfg.dlq && Inv(cfg, s)
    ensures JobsKeyedOnly(Apply(cfg, s, step).w.db.jobs)
  {
    StepKeeps(cfg, s, step);
    hide Apply;
    KeyedRows(cfg, Apply(cfg, s, step));
  }

  lemma KeyedRows(cfg: Config, s: System)
    requires Inv(cfg, s)
    ensures JobsKeyedOnly(s.w.db.jobs)
  {
  }

  // A pass that takes an exhausted snapshot of a job without a letter to its
  // end, in any state of any run, stores exactly the fresh letter.
  lemma BurialAnywhere(cfg: Config, s: System, job: Job, env: IterEnv)
    requires cfg.dlq && Inv(cfg, s) && job in s.snapshots && !ShouldRetry(cfg, job.retryCount)
    requires !HasLetter(s.w.db, job.requestId) && Uncut(env) && env.letterId !in s.w.db.letters
    ensures var after := Apply(cfg, s, IterateStep(job, env));
      && job.requestId in s.w.db.jobs
      && after.w.db.letters == s.w.db.letters[env.letterId := LetterFor(job, env.letterId, env.now)]
      && after.w.db.jobs
         == s.w.db.jobs[job.requestId := s.w.db.jobs[job.requestId].(status := DEAD_LETTERED)]
      && after.w.queue == s.w.queue
  {
    assert job in multiset(s.snapshots) && Known(s.w.db.jobs, job);
    assert job.serviceId in s.w.db.services;
    BurialOutcome(cfg, s.w, job, env);
  }

  // An owner's replay of a letter, in any state of any run.
  lemma ReplayAnywhere(cfg: Config, s: System, k: Id, env: ReplayEnv)
    requires Inv(cfg, s) && k in s.w.db.letters && k != NO_ID && UncutReplay(env)
    ensures var dl := s.w.db.letters[k];
      var id := dl.notificationId;
      var (after, code) := Replay(s.w, Some(dl.serviceId), k, env);
      && code.OK? && id in s.w.db.jobs
      && after.db.jobs == s.w.db.jobs[id := Revived(s.w.db.jobs[id])]
      && after.db.letters == s.w.db.letters - {k} && !HasLetter(after.db, id)
      && after.queue == s.w.queue + multiset{Revived(s.w.db.jobs[id])}
  {
    hide Inv, Replay;
    var dl := s.w.db.letters[k];
    LetterNamesItsJob(cfg, s, k);
    var row := s.w.db.jobs[dl.notificationId];
    DeadIsReplayable(s.w.db, dl.serviceId, k);
    UncutReplayOutcome(s.w, dl.serviceId, k, env);
    assert ReplayJob(dl) == Revived(row);
    assert DeleteLetters(s.w.db, dl.notificationId).letters == s.w.db.letters - {k};
    hide Replayable;
  }

  // The round trip. A job is buried at any point of any run; any steps follow,
  // among them failures, dispatches, passes and cut replays; whenever its
  // letter is still there, the owner's replay gives back the job with the
  // service and the payload it was sent with, PENDING on a new budget, takes
  // exactly that letter away and publishes the job once.
  lemma RoundTripOverRuns(cfg: Config, before: seq<Step>, job: Job, burial: IterEnv, between: seq<Step>, env: ReplayEnv)
    requires cfg.dlq && job in Run(cfg, INIT, before).snapshots && !ShouldRetry(cfg, job.retryCount)
    requires !HasLetter(Run(cfg, INIT, before).w.db, job.requestId)
    requires Uncut(burial) && burial.letterId != NO_ID && burial.letterId !in Run(cfg, INIT, before).w.db.letters
    requires UncutReplay(env)
    requires var s := Run(cfg, Apply(cfg, Run(cfg, INIT, before), IterateStep(job, burial)), between);
      burial.letterId in s.w.db.letters && s.w.db.letters[burial.letterId].notificationId == job.requestId
    ensures var start := Run(cfg, INIT, before);
      var buried := Apply(cfg, start, IterateStep(job, burial));
      var s := Run(cfg, buried, between);
      var id := job.requestId;
      var (after, code) := Replay(s.w, Some(job.serviceId), burial.letterId, env);
      && buried.w.db.letters == start.w.db.letters[burial.letterId := LetterFor(job, burial.letterId, burial.now)]
      && code.OK? && id in start.w.db.jobs && id in s.w.db.jobs
      && after.db.jobs == s.w.db.jobs[id := Job(id, job.serviceId, job.payload, PENDING, 0, None)]
      && job.serviceId == start.w.db.jobs[id].serviceId && job.payload == start.w.db.jobs[id].payload
      && after.db.letters == s.w.db.letters - {burial.letterId} && !HasLetter(after.db, id)
      && after.queue == s.w.queue + multiset{Job(id, job.serviceId, job.payload, PENDING, 0, None)}
  {
    var start := Run(cfg, INIT, before);
    var step := IterateStep(job, burial);
    var buried := Apply(cfg, start, step);
    var s := Run(cfg, buried, between);
    InvOverRuns(cfg, INIT, before);
    StepKeeps(cfg, start, step);
    InvOverRuns(cfg, buried, between);
    BurialAnywhere(cfg, start, job, burial);
    SnapshotIsKnown(cfg, start, job);
    RunStable(cfg, buried, between);
    assert Known(s.w.db.jobs, buried.w.db.jobs[job.requestId]);
    LetterNamesItsJob(cfg, s, burial.letterId);
    KeyedRows(cfg, start);
    KeyedRows(cfg, s);
    hide Inv, Run, Apply, Replay, HasLetter;
    ReplayAnywhere(cfg, s, burial.letterId, env);
  }

  lemma SnapshotIsKnown(cfg: Config, s: System, job: Job)
    requires Inv(cfg, s) && job in s.snapshots
    ensures Known(s.w.db.jobs, job)
  {
    assert job in multiset(s.snapshots);
  }
}
