// Exactly when a job is stranded, over any coarse run with any faults.

module Strands {
  import opened Domain
  import opened Schema
  import opened Query
  import opened Pipeline
  import opened Coarse
  import opened Batch
  import opened Recovery

  predicate Settled(job: Job) {
    job.status.DELIVERED? || job.status.FAILED?
  }

  // An unsettled job that no message, no sleeping delivery and no letter leads
  // to.
  ghost predicate Stranded(s: System, id: Id) {
    && id in s.w.db.jobs && !Settled(s.w.db.jobs[id])
    && !Awaits(s.w.queue, id) && !Awaits(s.held, id) && !HasLetter(s.w.db, id)
  }

  // ----- the steps that strand, and the steps that rescue -----

  // A send that stops short of its publish, a dispatch whose write fails and a
  // delivery whose write is lost, when nothing else leads to the job.
  ghost predicate Strands(s: System, step: Step, id: Id) {
    match step
    case SendStep(serviceId, payload, send) =>
      && send.requestId == id && serviceId != NO_ID && JobAccepted(s.w.db, NewJob(serviceId, payload, id))
      && !send.create.LostCall? && (!send.create.Clean? || send.publish.LostCall?)
    case DispatchStep(m, work) =>
      && m in s.w.queue && m.requestId == id && id in s.w.db.jobs
      && (work.update.LostReply? || (work.update.LostCall? && !Settled(s.w.db.jobs[id])))
      && !Awaits(s.w.queue - multiset{m}, id) && !Awaits(s.held, id) && !HasLetter(s.w.db, id)
    case DeliverStep(m, work) =>
      && m in s.held && m.requestId == id && id in s.w.db.jobs
      && work.update.LostCall? && !Settled(s.w.db.jobs[id])
      && !Awaits(s.w.queue, id) && !Awaits(s.held - multiset{m}, id) && !HasLetter(s.w.db, id)
    case _ => false
  }

  // A further failure, or a pass that still has an old snapshot and publishes
  // it or stores a letter for it.
  ghost predicate Rescues(cfg: Config, s: System, step: Step, id: Id) {
    match step
    case FailStep(failed, _, outcome) => failed == id && !outcome.LostCall? && FailAccepted(s.w.db, id)
    case IterateStep(snapshot, iter) =>
      && snapshot in s.snapshots && snapshot.requestId == id
      && (Republishes(cfg, s, step)
          || (!ShouldRetry(cfg, snapshot.retryCount) && !iter.create.LostCall?
              && LetterAccepted(s.w.db, LetterFor(snapshot, iter.letterId, iter.now))))
    case _ => false
  }

  // ----- sends, dispatches and deliveries -----

  lemma SendStrandsExactly(cfg: Config, s: System, step: Step, id: Id)
    requires step.SendStep? && Inv(cfg, s)
    ensures Stranded(Apply(cfg, s, step), id) <==> Stranded(s, id) || Strands(s, step, id)
  {
    hide Inv, Send;
    var job := NewJob(step.serviceId, step.payload, step.send.requestId);
    var after := Apply(cfg, s, step);
    if step.serviceId != NO_ID && JobAccepted(s.w.db, job) && !step.send.create.LostCall? {
      SentRow(s.w, step.serviceId, step.payload, step.send);
      NewIdLeadsNowhere(cfg, s, job.requestId);
      hide JobAccepted, NewJob;
      AwaitsMore(s.w.queue, job, id);
      SameLetters(s.w.db, after.w.db);
      hide Awaits, HasLetter;
    } else {
      RefusedSend(s.w, step.serviceId, step.payload, step.send);
      hide JobAccepted, NewJob, Awaits, HasLetter;
    }
  }

  lemma NewIdLeadsNowhere(cfg: Config, s: System, id: Id)
    requires Inv(cfg, s) && id !in s.w.db.jobs
    ensures !Awaits(s.w.queue, id) && !Awaits(s.held, id) && !HasLetter(s.w.db, id)
  {
    assert forall m :: m in s.w.queue ==> Known(s.w.db.jobs, m);
    assert forall m :: m in s.held ==> Known(s.w.db.jobs, m);
    assert forall k :: k in s.w.db.letters ==> Known(s.w.db.jobs, ReplayJob(s.w.db.letters[k]));
  }

  lemma AwaitsMore(messages: multiset<Job>, m: Job, id: Id)
    ensures Awaits(messages + multiset{m}, id) <==> Awaits(messages, id) || m.requestId == id
  {
    assert forall x :: x in messages + multiset{m} <==> x in messages || x == m;
  }

  lemma AwaitsFewer(messages: multiset<Job>, m: Job, id: Id)
    requires m in messages
    ensures Awaits(messages, id) <==> Awaits(messages - multiset{m}, id) || m.requestId == id
  {
    assert messages - multiset{m} + multiset{m} == messages;
    AwaitsMore(messages - multiset{m}, m, id);
  }

  lemma SentRow(w: World, serviceId: Id, payload: Option<Payload>, env: SendEnv)
    requires serviceId != NO_ID && !env.create.LostCall?
    requires JobAccepted(w.db, NewJob(serviceId, payload, env.requestId))
    ensures var after, job := Send(w, serviceId, payload, env).0, NewJob(serviceId, payload, env.requestId);
      && env.requestId !in w.db.jobs && after.db.jobs == w.db.jobs[env.requestId := job]
      && after.db.letters == w.db.letters && job.status.ACCEPTED? && job.requestId == env.requestId
      && after.queue == if env.create.Clean? && !env.publish.LostCall? then w.queue + multiset{job} else w.queue
  {
    var job := NewJob(serviceId, payload, env.requestId);
    var created := InsertJob(w.db, job);
    assert created.jobs == w.db.jobs[env.requestId := job];
    assert CountStat(created, serviceId, ACCEPTED, env.now).jobs == created.jobs;
    assert CountStat(created, serviceId, ACCEPTED, env.now).letters == created.letters;
    hide CountStat, InsertJob;
  }

  lemma RefusedSend(w: World, serviceId: Id, payload: Option<Payload>, env: SendEnv)
    requires serviceId == NO_ID || env.create.LostCall? || !JobAccepted(w.db, NewJob(serviceId, payload, env.requestId))
    ensures Send(w, serviceId, payload, env).0 == w
  {
    hide CountStat, NewJob;
  }

  lemma DispatchStrandsExactly(cfg: Config, s: System, step: Step, id: Id)
    requires step.DispatchStep? && Inv(cfg, s)
    ensures Stranded(Apply(cfg, s, step), id) <==> Stranded(s, id) || Strands(s, step, id)
  {
    hide Inv, Awaits, HasLetter, Dispatch;
    var m, after := step.message, Apply(cfg, s, step);
    if m in s.w.queue {
      MessageIsKnown(cfg, s, m);
      DispatchedRow(s.w.db, m, step.work, id);
      SameLetters(s.w.db, after.w.db);
      AwaitsFewer(s.w.queue, m, id);
      AwaitsMore(s.held, m, id);
    }
  }

  lemma MessageIsKnown(cfg: Config, s: System, m: Job)
    requires Inv(cfg, s) && (m in s.w.queue || m in s.held)
    ensures m.requestId in s.w.db.jobs
  {
    assert Known(s.w.db.jobs, m);
  }

  lemma DispatchedRow(db: Tables, m: Job, env: WorkEnv, id: Id)
    requires m.requestId in db.jobs
    ensures var (after, spawned) := Dispatch(db, m, env);
      && after.jobs.Keys == db.jobs.Keys && after.letters == db.letters && spawned == env.update.Clean?
      && (id in db.jobs ==> after.jobs[id] == if id == m.requestId && !env.update.LostCall?
                                               then db.jobs[id].(status := DISPATCHED) else db.jobs[id])
  {
  }

  lemma DeliveryStrandsExactly(cfg: Config, s: System, step: Step, id: Id)
    requires step.DeliverStep? && Inv(cfg, s)
    ensures Stranded(Apply(cfg, s, step), id) <==> Stranded(s, id) || Strands(s, step, id)
  {
    hide Inv, Awaits, HasLetter, Deliver;
    var m, after := step.message, Apply(cfg, s, step);
    if m in s.held {
      MessageIsKnown(cfg, s, m);
      DeliveredRow(s.w.db, m, step.work, id);
      SameLetters(s.w.db, after.w.db);
      AwaitsFewer(s.held, m, id);
    }
  }

  lemma DeliveredRow(db: Tables, m: Job, env: WorkEnv, id: Id)
    requires m.requestId in db.jobs
    ensures var after := Deliver(db, m, env);
      && after.jobs.Keys == db.jobs.Keys && after.letters == db.letters
      && (id in db.jobs ==> after.jobs[id] == if id == m.requestId && !env.update.LostCall?
                                               then db.jobs[id].(status := DELIVERED) else db.jobs[id])
  {
  }

  // ----- passes, replays and the rest -----

  // Whatever cuts a pass, it strands nothing, and it rescues exactly when its
  // first call takes effect.
  lemma IterateStrandsNothing(cfg: Config, s: System, step: Step, id: Id)
    requires step.IterateStep? && Inv(cfg, s) && cfg.dlq
    ensures Stranded(Apply(cfg, s, step), id) <==> Stranded(s, id) && !Rescues(cfg, s, step, id)
  {
    var j, after := step.snapshot, Apply(cfg, s, step);
    if j !in s.snapshots {
    } else if j.requestId != id {
      hide Inv;
      OtherIterationsLeaveJob(cfg, s.w, j, step.iter, id);
      SameForSameStranded(s.w, after.w, id);
      hide SameFor, HasLetter, Awaits, Iterate;
    } else {
      assert j in multiset(s.snapshots) && Known(s.w.db.jobs, j);
      hide Inv;
      if ShouldRetry(cfg, j.retryCount) {
        RequeueStrandsNothing(s.w, j, step.iter);
        hide Requeue, HasLetter, Awaits;
      } else {
        BurialStrandsNothing(cfg, s.w, j, step.iter);
        hide DeadLetterJob, HasLetter, Awaits, LetterAccepted;
      }
    }
  }

  lemma SameForSameStranded(v: World, w: World, id: Id)
    requires SameFor(v, w, id)
    ensures HasLetter(v.db, id) <==> HasLetter(w.db, id)
    ensures Awaits(v.queue, id) <==> Awaits(w.queue, id)
  {
    if HasLetter(v.db, id) {
      var k :| k in v.db.letters && v.db.letters[k].notificationId == id;
      assert k in w.db.letters;
    }
    if HasLetter(w.db, id) {
      var k :| k in w.db.letters && w.db.letters[k].notificationId == id;
      assert k in v.db.letters;
    }
    assert forall m: Job :: m.requestId == id ==> (m in v.queue <==> m in w.queue);
  }

  lemma RequeueStrandsNothing(w: World, j: Job, env: IterEnv)
    requires j.requestId in w.db.jobs
    ensures var after := Requeue(w, j, env);
      && j.requestId in after.db.jobs && (HasLetter(after.db, j.requestId) <==> HasLetter(w.db, j.requestId))
      && if j.payload.Json? && !env.publish.LostCall? then Awaits(after.queue, j.requestId) else after == w
  {
    SameLetters(w.db, Requeue(w, j, env).db);
    AwaitsMore(w.queue, j, j.requestId);
    hide Awaits, HasLetter;
  }

  lemma BurialStrandsNothing(cfg: Config, w: World, j: Job, env: IterEnv)
    requires cfg.dlq && j.requestId in w.db.jobs
    ensures var after := DeadLetterJob(cfg, w, j, env);
      && j.requestId in after.db.jobs && after.queue == w.queue
      && (HasLetter(after.db, j.requestId) <==>
            HasLetter(w.db, j.requestId)
            || (!env.create.LostCall? && LetterAccepted(w.db, LetterFor(j, env.letterId, env.now))))
      && (!HasLetter(after.db, j.requestId) ==> after == w)
  {
    var dl := LetterFor(j, env.letterId, env.now);
    CutBurial(cfg, w, j, env);
    InsertionKeepsLetters(w.db, dl);
    assert HasLetter(InsertLetter(w.db, dl), j.requestId) ==> LetterAccepted(w.db, dl);
    var stored := Call(env.create, w.db, InsertLetter(w.db, dl));
    SameLetters(stored, DeadLetterJob(cfg, w, j, env).db);
    hide HasLetter, InsertLetter, LetterAccepted;
  }

  // A replay takes a letter away only after it has put the message on the queue.
  lemma ReplayStrandsNothing(cfg: Config, s: System, step: Step, id: Id)
    requires step.ReplayStep? && Inv(cfg, s)
    ensures Stranded(Apply(cfg, s, step), id) <==> Stranded(s, id)
  {
    hide Redeliver, Replay, Awaits, HasLetter;
    ReplayCases(s.w, step.caller, step.letterId, step.replay);
    if Replay(s.w, step.caller, step.letterId, step.replay).0 != s.w {
      var dl := s.w.db.letters[step.letterId];
      LetterNamesItsJob(cfg, s, step.letterId);
      hide Inv;
      if dl.notificationId == id {
        OwnRedelivery(s.w, step.letterId, step.replay);
      } else {
        OtherRedelivery(s.w, dl, step.replay, id);
      }
    }
  }

  lemma OwnRedelivery(w: World, letterId: Id, env: ReplayEnv)
    requires letterId in w.db.letters
    ensures var id := w.db.letters[letterId].notificationId;
      var after := Redeliver(w, w.db.letters[letterId], env).0;
      HasLetter(w.db, id) && (HasLetter(after.db, id) || Awaits(after.queue, id))
  {
    var dl := w.db.letters[letterId];
    hide Redeliver;
    CutRedelivery(w, letterId, env);
    AwaitsMore(w.queue, ReplayJob(dl), dl.notificationId);
    hide Awaits, ResetForReplay, DeleteLetters;
  }

  lemma OtherRedelivery(w: World, dl: DeadLetter, env: ReplayEnv, id: Id)
    requires dl.notificationId != id && dl.notificationId in w.db.jobs
    ensures var after := Redeliver(w, dl, env).0;
      && (id in after.db.jobs <==> id in w.db.jobs) && (id in w.db.jobs ==> after.db.jobs[id] == w.db.jobs[id])
      && (HasLetter(after.db, id) <==> HasLetter(w.db, id)) && (Awaits(after.queue, id) <==> Awaits(w.queue, id))
  {
    var reset := ResetForReplay(w.db, ReplayJob(dl));
    var gone := DeleteLetters(reset, dl.notificationId);
    var counted := CountStat(gone, dl.serviceId, ACCEPTED, env.now);
    RedeliverStages(w, dl, env);
    AwaitsMore(w.queue, ReplayJob(dl), id);
    SameLetters(w.db, reset);
    DeletionSparesOthers(reset, dl.notificationId, id);
    SameLetters(gone, counted);
    assert gone.jobs == reset.jobs && counted.jobs == gone.jobs;
    assert id in reset.jobs <==> id in w.db.jobs;
    assert id in w.db.jobs ==> reset.jobs[id] == w.db.jobs[id];
    hide Redeliver, Awaits, HasLetter, ResetForReplay, DeleteLetters, CountStat;
  }

  lemma DeletionSparesOthers(db: Tables, nid: Id, id: Id)
    requires nid != id
    ensures HasLetter(DeleteLetters(db, nid), id) <==> HasLetter(db, id)
  {
    if HasLetter(db, id) {
      var k :| k in db.letters && db.letters[k].notificationId == id;
      assert k in DeleteLetters(db, nid).letters;
    }
  }

  lemma TableStepsStrandNothing(cfg: Config, s: System, step: Step, id: Id)
    requires step.PollStep? || step.FailStep? || step.RegisterStep? || step.UnregisterStep?
    ensures Stranded(Apply(cfg, s, step), id) <==> Stranded(s, id) && !Rescues(cfg, s, step, id)
  {
    var after := Apply(cfg, s, step);
    assert after.w.db.letters == s.w.db.letters && after.w.queue == s.w.queue && after.held == s.held;
    SameLetters(s.w.db, after.w.db);
    hide HasLetter, Awaits, IsTop, DueJobs;
  }

  // Every step, under any faults: a stranded job stays so unless it is rescued,
  // and no other job becomes stranded but by one of the three.
  lemma StepStrandsExactly(cfg: Config, s: System, step: Step, id: Id)
    requires cfg.dlq && Inv(cfg, s)
    ensures Stranded(Apply(cfg, s, step), id)
       <==> (Stranded(s, id) && !Rescues(cfg, s, step, id)) || Strands(s, step, id)
  {
    hide Inv, Apply, Stranded;
    match step
    case SendStep(_, _, _) => SendStrandsExactly(cfg, s, step, id);
    case DispatchStep(_, _) => DispatchStrandsExactly(cfg, s, step, id);
    case DeliverStep(_, _) => DeliveryStrandsExactly(cfg, s, step, id);
    case IterateStep(_, _) => IterateStrandsNothing(cfg, s, step, id);
    case ReplayStep(_, _, _) => ReplayStrandsNothing(cfg, s, step, id);
    case _ => TableStepsStrandNothing(cfg, s, step, id);
  }

  // ----- any run -----

  // Some step of the run strands the job and none after it rescues it.
  ghost predicate LeftStranded(cfg: Config, s: System, steps: seq<Step>, id: Id) {
    exists k | 0 <= k < |steps| ::
      && Strands(Run(cfg, s, steps[..k]), steps[k], id)
      && forall l | k < l < |steps| :: !Rescues(cfg, Run(cfg, s, steps[..l]), steps[l], id)
  }

  // A job ends stranded if and only if that happened to it.
  lemma {:induction false} StrandedExactlyWhen(cfg: Config, steps: seq<Step>, id: Id)
    requires cfg.dlq
    ensures Stranded(Run(cfg, INIT, steps), id) <==> LeftStranded(cfg, INIT, steps, id)
    decreases |steps|
  {
    hide Stranded, Strands, Rescues;
    if steps == [] {
      NothingAtFirst(id);
    } else {
      var n := |steps| - 1;
      var init := steps[..n];
      StrandedExactlyWhen(cfg, init, id);
      InvOverRuns(cfg, INIT, init);
      hide Inv, Apply;
      StepStrandsExactly(cfg, Run(cfg, INIT, init), steps[n], id);
      LastStep(cfg, INIT, steps);
      LeftStrandedStep(cfg, steps, id);
    }
  }

  lemma NothingAtFirst(id: Id)
    ensures !Stranded(INIT, id)
  {
  }

  lemma {:induction false} LastStep(cfg: Config, s: System, steps: seq<Step>)
    requires steps != []
    ensures Run(cfg, s, steps) == Apply(cfg, Run(cfg, s, steps[..|steps| - 1]), steps[|steps| - 1])
    decreases |steps|
  {
    hide Apply;
    if |steps| > 1 {
      LastStep(cfg, Apply(cfg, s, steps[0]), steps[1..]);
      assert steps[..|steps| - 1][1..] == steps[1..][..|steps| - 2];
    } else {
      assert steps[1..] == [];
    }
  }

  lemma LeftStrandedStep(cfg: Config, steps: seq<Step>, id: Id)
    requires steps != []
    ensures var n := |steps| - 1;
      var s := Run(cfg, INIT, steps[..n]);
      LeftStranded(cfg, INIT, steps, id)
      <==> (LeftStranded(cfg, INIT, steps[..n], id) && !Rescues(cfg, s, steps[n], id)) || Strands(s, steps[n], id)
  {
    hide Run, Strands, Rescues;
    var n := |steps| - 1;
    var init := steps[..n];
    assert forall l | 0 <= l < n :: init[..l] == steps[..l] && init[l] == steps[l];
    if LeftStranded(cfg, INIT, init, id) && !Rescues(cfg, Run(cfg, INIT, init), steps[n], id) {
      var k :| 0 <= k < |init| && Strands(Run(cfg, INIT, init[..k]), init[k], id)
        && forall l | k < l < |init| :: !Rescues(cfg, Run(cfg, INIT, init[..l]), init[l], id);
      assert Strands(Run(cfg, INIT, steps[..k]), steps[k], id);
    }
    if LeftStranded(cfg, INIT, steps, id) {
      var k :| 0 <= k < |steps| && Strands(Run(cfg, INIT, steps[..k]), steps[k], id)
        && forall l | k < l < |steps| :: !Rescues(cfg, Run(cfg, INIT, steps[..l]), steps[l], id);
      if k < n {
        assert Strands(Run(cfg, INIT, init[..k]), init[k], id);
        assert !Rescues(cfg, Run(cfg, INIT, steps[..n]), steps[n], id);
      }
    }
  }
}
