// Cut runs may be repeated; dead-lettering and replay undo each other; replays
// of one service do not touch another's rows.

module Recovery {
  import opened Domain
  import opened Schema
  import opened Pipeline
  import opened Coarse

  // ----- dead-lettering after any number of cut runs -----

  function Reburied(cfg: Config, w: World, job: Job, envs: seq<IterEnv>): World
    decreases |envs|
  {
    if envs == [] then w else Reburied(cfg, DeadLetterJob(cfg, w, job, envs[0]), job, envs[1..])
  }

  // The first run after which the table holds a letter for the job.
  function FirstStored(cfg: Config, w: World, job: Job, envs: seq<IterEnv>): IterEnv
    requires envs != []
    decreases |envs|
  {
    if |envs| == 1 || HasLetter(DeadLetterJob(cfg, w, job, envs[0]).db, job.requestId) then envs[0]
    else FirstStored(cfg, w, job, envs[1..])
  }

  function WithoutCuts(env: IterEnv): IterEnv {
    env.(publish := Clean, create := Clean, update := Clean, count := Clean)
  }

  // One uncut run: the letter, then the status.
  lemma BurialOutcome(cfg: Config, w: World, job: Job, env: IterEnv)
    requires cfg.dlq && Uncut(env) && LetterAccepted(w.db, LetterFor(job, env.letterId, env.now))
    ensures var after := DeadLetterJob(cfg, w, job, env);
      && after.db.letters == InsertLetter(w.db, LetterFor(job, env.letterId, env.now)).letters
      && after.db.jobs == SetStatus(w.db, job.requestId, DEAD_LETTERED).jobs
      && after.queue == w.queue && after.db.services == w.db.services
  {
  }

  // A cut run leaves the letter stored or not, and the status written only
  // when a letter is there.
  lemma CutBurial(cfg: Config, w: World, job: Job, env: IterEnv)
    requires cfg.dlq
    ensures var after := DeadLetterJob(cfg, w, job, env);
      && after.queue == w.queue && after.db.services == w.db.services
      && if HasLetter(after.db, job.requestId) then
           && after.db.letters == (if HasLetter(w.db, job.requestId) then w.db.letters
                                   else w.db.letters[env.letterId := LetterFor(job, env.letterId, env.now)])
           && (!HasLetter(w.db, job.requestId) ==> LetterAccepted(w.db, LetterFor(job, env.letterId, env.now)))
           && (after.db.jobs == w.db.jobs || after.db.jobs == SetStatus(w.db, job.requestId, DEAD_LETTERED).jobs)
         else after == w
  {
    var dl := LetterFor(job, env.letterId, env.now);
    InsertionKeepsLetters(w.db, dl);
    var stored := Call(env.create, w.db, InsertLetter(w.db, dl));
    SameLetters(stored, SetStatus(stored, job.requestId, DEAD_LETTERED));
    SameLetters(stored, DeadLetterJob(cfg, w, job, env).db);
  }

  // After any number of runs cut anywhere, one that runs to its end leaves the
  // jobs and the letters one uninterrupted run would have left.
  lemma {:induction false} BurialRecovers(cfg: Config, w: World, job: Job, envs: seq<IterEnv>)
    requires cfg.dlq && envs != [] && Uncut(envs[|envs| - 1])
    requires job.serviceId in w.db.services && envs[|envs| - 1].letterId !in w.db.letters
    ensures var whole := DeadLetterJob(cfg, w, job, WithoutCuts(FirstStored(cfg, w, job, envs)));
      && Reburied(cfg, w, job, envs).db.jobs == whole.db.jobs
      && Reburied(cfg, w, job, envs).db.letters == whole.db.letters
      && Reburied(cfg, w, job, envs).queue == w.queue
    decreases |envs|
  {
    var e := envs[0];
    var w1 := DeadLetterJob(cfg, w, job, e);
    CutBurial(cfg, w, job, e);
    if |envs| == 1 {
      BurialOutcome(cfg, w, job, e);
      assert WithoutCuts(e) == e && envs[1..] == [];
    } else if HasLetter(w1.db, job.requestId) {
      SettledBurial(cfg, w1, job, envs[1..]);
      BurialOutcome(cfg, w, job, WithoutCuts(e));
    } else {
      BurialRecovers(cfg, w, job, envs[1..]);
    }
  }

  // Once a letter is there, reruns only finish the status write.
  lemma {:induction false} SettledBurial(cfg: Config, w: World, job: Job, envs: seq<IterEnv>)
    requires cfg.dlq && HasLetter(w.db, job.requestId) && envs != [] && Uncut(envs[|envs| - 1])
    ensures Reburied(cfg, w, job, envs).db.letters == w.db.letters
    ensures Reburied(cfg, w, job, envs).db.jobs == SetStatus(w.db, job.requestId, DEAD_LETTERED).jobs
    ensures Reburied(cfg, w, job, envs).queue == w.queue
    decreases |envs|
  {
    var w1 := DeadLetterJob(cfg, w, job, envs[0]);
    CutBurial(cfg, w, job, envs[0]);
    SettledStays(cfg, w, job, envs[0]);
    if |envs| == 1 {
      BurialOutcome(cfg, w, job, envs[0]);
      assert envs[1..] == [];
    } else {
      SettledBurial(cfg, w1, job, envs[1..]);
    }
  }

  lemma SettledStays(cfg: Config, w: World, job: Job, env: IterEnv)
    requires cfg.dlq && HasLetter(w.db, job.requestId)
    ensures HasLetter(DeadLetterJob(cfg, w, job, env).db, job.requestId)
  {
    var after := DeadLetterJob(cfg, w, job, env);
    assert after.db.letters == w.db.letters;
    SameLetters(w.db, after.db);
  }

  // ----- replay after any number of cut runs -----

  function Replayed(w: World, owner: Id, letterId: Id, envs: seq<ReplayEnv>): World
    decreases |envs|
  {
    if envs == [] then w else Replayed(Replay(w, Some(owner), letterId, envs[0]).0, owner, letterId, envs[1..])
  }

  predicate Replayable(db: Tables, owner: Id, letterId: Id) {
    && letterId != NO_ID && letterId in db.letters
    && db.letters[letterId].serviceId == owner && db.letters[letterId].payload.Json?
    && ResetAccepted(db, ReplayJob(db.letters[letterId]))
  }

  // How far a replay got shows in the tables and the queue: the letter goes
  // only after the reset took effect and the message is on the queue.
  lemma CutReplay(w: World, owner: Id, letterId: Id, env: ReplayEnv)
    requires Replayable(w.db, owner, letterId)
    ensures var dl := w.db.letters[letterId];
      var after := Replay(w, Some(owner), letterId, env).0;
      && after.db.services == w.db.services
      && (after.queue == w.queue || after.queue == w.queue + multiset{ReplayJob(dl)})
      && (after.db.jobs == w.db.jobs || after.db.jobs == ResetForReplay(w.db, ReplayJob(dl)).jobs)
      && if letterId in after.db.letters then after.db.letters == w.db.letters
         else && after.db.letters == DeleteLetters(w.db, dl.notificationId).letters
              && after.db.jobs == ResetForReplay(w.db, ReplayJob(dl)).jobs
              && after.queue == w.queue + multiset{ReplayJob(dl)}
  {
    hide Redeliver, ResetForReplay, DeleteLetters;
    CutRedelivery(w, letterId, env);
  }

  lemma CutRedelivery(w: World, letterId: Id, env: ReplayEnv)
    requires letterId in w.db.letters
    ensures var dl := w.db.letters[letterId];
      var after := Redeliver(w, dl, env).0;
      && after.db.services == w.db.services
      && (after.queue == w.queue || after.queue == w.queue + multiset{ReplayJob(dl)})
      && (after.db.jobs == w.db.jobs || after.db.jobs == ResetForReplay(w.db, ReplayJob(dl)).jobs)
      && if letterId in after.db.letters then after.db.letters == w.db.letters
         else && after.db.letters == DeleteLetters(w.db, dl.notificationId).letters
              && after.db.jobs == ResetForReplay(w.db, ReplayJob(dl)).jobs
              && after.queue == w.queue + multiset{ReplayJob(dl)}
  {
    hide Redeliver, ResetForReplay, DeleteLetters, CountStat;
    ReplayParts(w.db, letterId, env.now);
    RedeliverStages(w, w.db.letters[letterId], env);
  }

  // A redelivery stops before its reset, before its publish, before its delete,
  // before its stat, or after it.
  lemma RedeliverStages(w: World, dl: DeadLetter, env: ReplayEnv)
    ensures var reset := ResetForReplay(w.db, ReplayJob(dl));
      var gone := DeleteLetters(reset, dl.notificationId);
      var counted := CountStat(gone, dl.serviceId, ACCEPTED, env.now);
      var sent := w.queue + multiset{ReplayJob(dl)};
      var after := Redeliver(w, dl, env).0;
      after == w || after == World(reset, w.queue) || after == World(reset, sent)
      || after == World(gone, sent) || after == World(counted, sent)
  {
    hide ResetForReplay, DeleteLetters, CountStat, ResetAccepted, ReplayJob;
  }

  // Which tables the statements of a replay leave alone.
  lemma ReplayParts(db: Tables, letterId: Id, now: Time)
    requires letterId in db.letters
    ensures var dl := db.letters[letterId];
      var reset := ResetForReplay(db, ReplayJob(dl));
      var gone := DeleteLetters(reset, dl.notificationId);
      var counted := CountStat(gone, dl.serviceId, ACCEPTED, now);
      && reset.letters == db.letters && reset.services == db.services
      && gone.jobs == reset.jobs && gone.services == db.services
      && gone.letters == DeleteLetters(db, dl.notificationId).letters && letterId !in gone.letters
      && counted.jobs == reset.jobs && counted.letters == gone.letters && counted.services == db.services
  {
  }

  lemma UncutReplayOutcome(w: World, owner: Id, letterId: Id, env: ReplayEnv)
    requires Replayable(w.db, owner, letterId) && UncutReplay(env)
    ensures var dl := w.db.letters[letterId];
      var (after, code) := Replay(w, Some(owner), letterId, env);
      && code.OK?
      && after.db.letters == DeleteLetters(w.db, dl.notificationId).letters
      && after.db.jobs == ResetForReplay(w.db, ReplayJob(dl)).jobs
      && after.queue == w.queue + multiset{ReplayJob(dl)}
  {
  }

  lemma {:induction false} MissingLetterEndsReplays(w: World, owner: Id, letterId: Id, envs: seq<ReplayEnv>)
    requires letterId !in w.db.letters
    ensures Replayed(w, owner, letterId, envs) == w
    decreases |envs|
  {
    if envs != [] {
      MissingLetterEndsReplays(w, owner, letterId, envs[1..]);
    }
  }

  lemma ResetTwice(db: Tables, job: Job)
    requires ResetAccepted(db, job)
    ensures ResetForReplay(ResetForReplay(db, job), job) == ResetForReplay(db, job)
    ensures ResetAccepted(ResetForReplay(db, job), job)
  {
  }

  lemma {:induction false} ReplayRecovers(w: World, owner: Id, letterId: Id, envs: seq<ReplayEnv>)
    requires Replayable(w.db, owner, letterId)
    requires envs != [] && UncutReplay(envs[|envs| - 1])
    ensures var whole := Replay(w, Some(owner), letterId, envs[|envs| - 1]).0;
      && Replayed(w, owner, letterId, envs).db.jobs == whole.db.jobs
      && Replayed(w, owner, letterId, envs).db.letters == whole.db.letters
    decreases |envs|
  {
    var w1 := Replay(w, Some(owner), letterId, envs[0]).0;
    var last := envs[|envs| - 1];
    CutReplay(w, owner, letterId, envs[0]);
    UncutReplayOutcome(w, owner, letterId, last);
    if |envs| == 1 {
      assert envs[1..] == [];
    } else if letterId in w1.db.letters {
      ResetTwice(w.db, ReplayJob(w.db.letters[letterId]));
      UncutReplayOutcome(w1, owner, letterId, last);
      ReplayRecovers(w1, owner, letterId, envs[1..]);
    } else {
      MissingLetterEndsReplays(w1, owner, letterId, envs[1..]);
    }
  }

  // However the replays are cut, the letter survives until its job's message
  // has been put on the queue.
  lemma {:induction false} LetterSurvivesUntilPublished(w: World, owner: Id, letterId: Id, envs: seq<ReplayEnv>)
    requires Replayable(w.db, owner, letterId)
    ensures var after := Replayed(w, owner, letterId, envs);
      && (letterId in after.db.letters ==> after.db.letters == w.db.letters)
      && (letterId !in after.db.letters ==>
            after.queue[ReplayJob(w.db.letters[letterId])] > w.queue[ReplayJob(w.db.letters[letterId])])
    decreases |envs|
  {
    if envs != [] {
      var w1 := Replay(w, Some(owner), letterId, envs[0]).0;
      CutReplay(w, owner, letterId, envs[0]);
      ResetTwice(w.db, ReplayJob(w.db.letters[letterId]));
      if letterId in w1.db.letters {
        LetterSurvivesUntilPublished(w1, owner, letterId, envs[1..]);
      } else {
        MissingLetterEndsReplays(w1, owner, letterId, envs[1..]);
      }
    }
  }

  // ----- dead-letter and replay as a round trip -----

  datatype Cycle = Cycle(fails: seq<Time>, burial: IterEnv, replay: ReplayEnv)

  function Exhaust(db: Tables, id: Id, fails: seq<Time>): Tables
    decreases |fails|
  {
    if fails == [] then db else Exhaust(FailJob(db, id, fails[0]), id, fails[1..])
  }

  lemma {:induction false} ExhaustedRow(db: Tables, id: Id, fails: seq<Time>)
    requires id in db.jobs && fails != [] && db.jobs[id].retryCount + |fails| <= MAX_INT32
    ensures Exhaust(db, id, fails) == db.(jobs := db.jobs[id :=
      db.jobs[id].(status := FAILED, retryCount := db.jobs[id].retryCount + |fails|,
                   nextRetryAt := Some(fails[|fails| - 1]))])
    decreases |fails|
  {
    if |fails| > 1 {
      ExhaustedRow(FailJob(db, id, fails[0]), id, fails[1..]);
    } else {
      assert fails[1..] == [];
    }
  }

  // The dead-lettered half of a cycle: the job fails until its budget is spent
  // and the scheduler takes it.
  function Dead(cfg: Config, w: World, id: Id, c: Cycle): World {
    var failed := w.(db := Exhaust(w.db, id, c.fails));
    if id in failed.db.jobs then Iterate(cfg, failed, failed.db.jobs[id], c.burial) else failed
  }

  function RunCycles(cfg: Config, w: World, owner: Id, id: Id, cycles: seq<Cycle>): World
    decreases |cycles|
  {
    if cycles == [] then w
    else
      var revived := Replay(Dead(cfg, w, id, cycles[0]), Some(owner), cycles[0].burial.letterId, cycles[0].replay).0;
      RunCycles(cfg, revived, owner, id, cycles[1..])
  }

  // Enough failures to spend the budget of a job that has failed retried times,
  // no cut, and a letter ID that no row has.
  ghost predicate FullCycle(cfg: Config, letters: map<Id, DeadLetter>, retried: nat, c: Cycle) {
    && c.fails != [] && cfg.maxAttempts <= |c.fails| && retried + |c.fails| <= MAX_INT32
    && Uncut(c.burial) && UncutReplay(c.replay)
    && c.burial.letterId != NO_ID && c.burial.letterId !in letters
  }

  function Revived(row: Job): Job {
    row.(status := PENDING, retryCount := 0, nextRetryAt := None)
  }

  lemma ExhaustionStoresFreshLetter(cfg: Config, w: World, id: Id, c: Cycle)
    requires cfg.dlq && JobsKeyed(w.db.services, w.db.jobs) && id in w.db.jobs && !HasLetter(w.db, id)
    requires FullCycle(cfg, w.db.letters, w.db.jobs[id].retryCount, c)
    ensures var row := w.db.jobs[id];
      var count := row.retryCount + |c.fails|;
      var dead := Dead(cfg, w, id, c);
      && dead.db.services == w.db.services && dead.queue == w.queue
      && dead.db.letters
         == w.db.letters[c.burial.letterId := LetterFor(row.(retryCount := count), c.burial.letterId, c.burial.now)]
      && dead.db.jobs == w.db.jobs[id := row.(status := DEAD_LETTERED, retryCount := count,
                                               nextRetryAt := Some(c.fails[|c.fails| - 1]))]
  {
    ExhaustedRow(w.db, id, c.fails);
    var failed := w.(db := Exhaust(w.db, id, c.fails));
    SameLetters(w.db, failed.db);
    var job := failed.db.jobs[id];
    assert LetterAccepted(failed.db, LetterFor(job, c.burial.letterId, c.burial.now));
    BurialOutcome(cfg, failed, job, c.burial);
  }

  // One cycle gives back the job, its service and its payload, PENDING with a
  // new budget, and the letters as they were; it publishes the job once.
  lemma CycleRestores(cfg: Config, w: World, owner: Id, id: Id, c: Cycle)
    requires cfg.dlq && JobsKeyed(w.db.services, w.db.jobs) && id in w.db.jobs && !HasLetter(w.db, id)
    requires w.db.jobs[id].serviceId == owner && FullCycle(cfg, w.db.letters, w.db.jobs[id].retryCount, c)
    ensures var row := w.db.jobs[id];
      var (after, code) := Replay(Dead(cfg, w, id, c), Some(owner), c.burial.letterId, c.replay);
      && code.OK?
      && after.db.services == w.db.services
      && after.db.letters == w.db.letters
      && after.db.jobs == w.db.jobs[id := Revived(row)]
      && after.queue == w.queue + multiset{Revived(row)}
  {
    hide Dead, Replay, ResetAccepted, FullCycle;
    ExhaustionStoresFreshLetter(cfg, w, id, c);
    var dead, row := Dead(cfg, w, id, c), w.db.jobs[id];
    CycleIsFull(cfg, w.db.letters, row.retryCount, c);
    DeadIsReplayable(dead.db, owner, c.burial.letterId);
    UncutReplayOutcome(dead, owner, c.burial.letterId, c.replay);
    ReplayKeepsServices(dead, Some(owner), c.burial.letterId, c.replay);
    NoOtherLetter(w.db, dead.db, id, c.burial.letterId);
    assert ReplayJob(dead.db.letters[c.burial.letterId]) == Revived(row);
  }

  lemma CycleIsFull(cfg: Config, letters: map<Id, DeadLetter>, retried: nat, c: Cycle)
    requires FullCycle(cfg, letters, retried, c)
    ensures UncutReplay(c.replay) && c.burial.letterId != NO_ID && c.burial.letterId !in letters
  {
  }

  lemma DeadIsReplayable(db: Tables, owner: Id, letterId: Id)
    requires letterId != NO_ID && letterId in db.letters && db.letters[letterId].serviceId == owner
    requires db.letters[letterId].payload.Json? && db.letters[letterId].notificationId in db.jobs
    ensures Replayable(db, owner, letterId)
  {
  }

  lemma NoOtherLetter(before: Tables, dead: Tables, id: Id, letterId: Id)
    requires !HasLetter(before, id) && letterId !in before.letters && letterId in dead.letters
    requires dead.letters == before.letters[letterId := dead.letters[letterId]]
    requires dead.letters[letterId].notificationId == id
    ensures DeleteLetters(dead, id).letters == before.letters
  {
    assert forall k :: k in before.letters ==> before.letters[k].notificationId != id;
  }

  lemma ReplayKeepsServices(w: World, caller: Option<Id>, letterId: Id, env: ReplayEnv)
    ensures Replay(w, caller, letterId, env).0.db.services == w.db.services
  {
    hide Replay, Redeliver;
    ReplayCases(w, caller, letterId, env);
    if letterId in w.db.letters {
      RedeliverKeepsServices(w, w.db.letters[letterId], env);
    }
  }

  lemma {:induction false} CyclesRestore(cfg: Config, w: World, owner: Id, id: Id, cycles: seq<Cycle>)
    requires cfg.dlq && JobsKeyed(w.db.services, w.db.jobs) && id in w.db.jobs && !HasLetter(w.db, id)
    requires w.db.jobs[id].serviceId == owner && cycles != []
    requires FullCycle(cfg, w.db.letters, w.db.jobs[id].retryCount, cycles[0])
    requires forall c :: c in cycles ==> FullCycle(cfg, w.db.letters, 0, c)
    ensures var row := w.db.jobs[id];
      var after := RunCycles(cfg, w, owner, id, cycles);
      && after.db.letters == w.db.letters
      && after.db.jobs == w.db.jobs[id := Revived(row)]
      && after.queue == w.queue[Revived(row) := w.queue[Revived(row)] + |cycles|]
    decreases |cycles|
  {
    var c, rest := cycles[0], cycles[1..];
    CycleRestores(cfg, w, owner, id, c);
    var w1 := Replay(Dead(cfg, w, id, c), Some(owner), c.burial.letterId, c.replay).0;
    SameLetters(w.db, w1.db);
    hide Replay, Dead;
    if rest != [] {
      assert forall d :: d in rest ==> d in cycles;
      assert rest[0] in cycles;
      CyclesRestore(cfg, w1, owner, id, rest);
    }
  }

  // ----- noninterference -----

  datatype Request = Request(letterId: Id, env: ReplayEnv)

  function ReplayAll(w: World, caller: Id, requests: seq<Request>): World
    decreases |requests|
  {
    if requests == [] then w
    else ReplayAll(Replay(w, Some(caller), requests[0].letterId, requests[0].env).0, caller, requests[1..])
  }

  // Every row and message the two worlds hold of services other than a.
  ghost predicate SameOutside(v: World, w: World, a: Id) {
    && (forall id :: id in v.db.jobs && v.db.jobs[id].serviceId != a
          ==> id in w.db.jobs && w.db.jobs[id] == v.db.jobs[id])
    && (forall id :: id in w.db.jobs && w.db.jobs[id].serviceId != a
          ==> id in v.db.jobs && w.db.jobs[id] == v.db.jobs[id])
    && (forall k :: k in v.db.letters && v.db.letters[k].serviceId != a
          ==> k in w.db.letters && w.db.letters[k] == v.db.letters[k])
    && (forall k :: k in w.db.letters && w.db.letters[k].serviceId != a
          ==> k in v.db.letters && w.db.letters[k] == v.db.letters[k])
    && (forall key: StatKey :: key.serviceId != a ==> (key in v.db.stats <==> key in w.db.stats))
    && (forall key :: key in v.db.stats && key.serviceId != a ==> v.db.stats[key] == w.db.stats[key])
    && (forall m: Job :: m.serviceId != a ==> v.queue[m] == w.queue[m])
  }

  ghost predicate Provenance(db: Tables) {
    JobsKeyed(db.services, db.jobs) && LettersKnown(db.jobs, db.letters)
  }

  lemma ReplayTouchesOwn(w: World, a: Id, letterId: Id, env: ReplayEnv)
    requires Provenance(w.db)
    ensures var after := Replay(w, Some(a), letterId, env).0;
      Provenance(after.db) && SameOutside(w, after, a)
  {
    hide Replay, Redeliver, SameOutside;
    ReplayCases(w, Some(a), letterId, env);
    if Replay(w, Some(a), letterId, env).0 == w {
      NothingTouched(w, a);
    } else {
      RedeliverTouchesOwn(w, w.db.letters[letterId], env);
    }
  }

  lemma NothingTouched(w: World, a: Id)
    ensures SameOutside(w, w, a)
  {
  }

  lemma RedeliverTouchesOwn(w: World, dl: DeadLetter, env: ReplayEnv)
    requires Provenance(w.db) && Known(w.db.jobs, ReplayJob(dl))
    ensures var after := Redeliver(w, dl, env).0;
      Provenance(after.db) && SameOutside(w, after, dl.serviceId)
  {
    hide SameOutside, Provenance, ResetForReplay, DeleteLetters, CountStat;
    var job := ReplayJob(dl);
    var reset := w.(db := ResetForReplay(w.db, job));
    var sent := Publish(reset, job);
    var gone := sent.(db := DeleteLetters(sent.db, dl.notificationId));
    var counted := gone.(db := CountStat(gone.db, dl.serviceId, ACCEPTED, env.now));
    ResetIsOwn(w, dl);
    PublishIsOwn(reset, dl);
    DeleteIsOwn(sent, dl);
    CountIsOwn(gone, dl, env.now);
    OutsideTrans(w, reset, sent, dl.serviceId);
    OutsideTrans(w, sent, gone, dl.serviceId);
    OutsideTrans(w, gone, counted, dl.serviceId);
    OutsideRefl(w, dl.serviceId);
  }

  lemma OutsideRefl(w: World, a: Id)
    ensures SameOutside(w, w, a)
  {
  }

  lemma OutsideTrans(u: World, v: World, w: World, a: Id)
    requires SameOutside(u, v, a) && SameOutside(v, w, a)
    ensures SameOutside(u, w, a)
  {
  }

  lemma ResetIsOwn(w: World, dl: DeadLetter)
    requires Provenance(w.db) && Known(w.db.jobs, ReplayJob(dl))
    ensures var after := w.(db := ResetForReplay(w.db, ReplayJob(dl)));
      Provenance(after.db) && SameOutside(w, after, dl.serviceId) && Known(after.db.jobs, ReplayJob(dl))
  {
  }

  lemma PublishIsOwn(w: World, dl: DeadLetter)
    ensures SameOutside(w, Publish(w, ReplayJob(dl)), dl.serviceId)
  {
  }

  lemma DeleteIsOwn(w: World, dl: DeadLetter)
    requires Provenance(w.db) && Known(w.db.jobs, ReplayJob(dl))
    ensures var after := w.(db := DeleteLetters(w.db, dl.notificationId));
      Provenance(after.db) && SameOutside(w, after, dl.serviceId)
  {
  }

  lemma CountIsOwn(w: World, dl: DeadLetter, now: Time)
    requires Provenance(w.db)
    ensures var after := w.(db := CountStat(w.db, dl.serviceId, ACCEPTED, now));
      Provenance(after.db) && SameOutside(w, after, dl.serviceId)
  {
  }

  // No sequence of replays by service a, cut or not and whatever letters they
  // name, changes anything that belongs to another service.
  lemma {:induction false} ReplaysDoNotInterfere(w: World, a: Id, requests: seq<Request>)
    requires Provenance(w.db)
    ensures SameOutside(w, ReplayAll(w, a, requests), a)
    decreases |requests|
  {
    if requests != [] {
      var w1 := Replay(w, Some(a), requests[0].letterId, requests[0].env).0;
      ReplayTouchesOwn(w, a, requests[0].letterId, requests[0].env);
      ReplaysDoNotInterfere(w1, a, requests[1..]);
      OutsideTrans(w, w1, ReplayAll(w, a, requests), a);
      hide SameOutside;
    } else {
      OutsideRefl(w, a);
    }
  }
}
