// Conservation: over any run the stats of a service account for every message,
// those still on the queue and those whose delivery is asleep.

module Ledger {
  import opened Domain
  import opened Schema
  import opened Query
  import opened Pipeline
  import opened Coarse
  import opened Stats

  // How many of the messages are the service's.
  ghost function OfService(messages: multiset<Job>, svc: Id): nat
    decreases |messages|
  {
    if messages == multiset{} then 0
    else
      var m :| m in messages;
      (if m.serviceId == svc then 1 else 0) + OfService(messages - multiset{m}, svc)
  }

  lemma {:induction false} TakeOne(messages: multiset<Job>, m: Job, svc: Id)
    requires m in messages
    ensures OfService(messages, svc)
         == (if m.serviceId == svc then 1 else 0) + OfService(messages - multiset{m}, svc)
    decreases |messages|
  {
    var first :| first in messages
      && OfService(messages, svc)
         == (if first.serviceId == svc then 1 else 0) + OfService(messages - multiset{first}, svc);
    if first != m {
      TakeOne(messages - multiset{first}, m, svc);
      TakeOne(messages - multiset{m}, first, svc);
      assert messages - multiset{first} - multiset{m} == messages - multiset{m} - multiset{first};
    }
  }

  lemma PutOne(messages: multiset<Job>, m: Job, svc: Id)
    ensures OfService(messages + multiset{m}, svc)
         == OfService(messages, svc) + (if m.serviceId == svc then 1 else 0)
  {
    TakeOne(messages + multiset{m}, m, svc);
    assert messages + multiset{m} - multiset{m} == messages;
  }

  // Sends, replays, dispatches and deliveries whose calls all succeed. Passes
  // may suffer anything, and so may failures and registrations.
  predicate Unhindered(step: Step) {
    match step
    case SendStep(_, _, send) => send.create.Clean? && send.count.Clean? && send.publish.Clean?
    case ReplayStep(_, _, replay) => UncutReplay(replay) && replay.count.Clean?
    case DispatchStep(_, work) => work.update.Clean? && work.count.Clean?
    case DeliverStep(_, work) => work.count.Clean?
    case _ => true
  }

  ghost predicate PutsBack(cfg: Config, s: System, step: Step, svc: Id) {
    Republishes(cfg, s, step) && step.snapshot.serviceId == svc
  }

  ghost function PutBack(cfg: Config, s: System, steps: seq<Step>, svc: Id): nat
    decreases |steps|
  {
    if steps == [] then 0
    else (if PutsBack(cfg, s, steps[0], svc) then 1 else 0) + PutBack(cfg, Apply(cfg, s, steps[0]), steps[1..], svc)
  }

  // What left the queue or waits on it, against what was accepted.
  ghost function Incoming(s: System, svc: Id): int {
    Total(s.w.db.stats, svc, DISPATCHED) + OfService(s.w.queue, svc) - Total(s.w.db.stats, svc, ACCEPTED)
  }

  // What was delivered or sleeps, against what was dispatched.
  ghost function Outgoing(s: System, svc: Id): int {
    Total(s.w.db.stats, svc, DELIVERED) + OfService(s.held, svc) - Total(s.w.db.stats, svc, DISPATCHED)
  }

  // ----- one step -----

  // The effect of a step on the two balances.
  ghost predicate Balanced(s: System, after: System, svc: Id, more: nat) {
    Incoming(after, svc) == Incoming(s, svc) + more && Outgoing(after, svc) == Outgoing(s, svc)
  }

  lemma Unchanged(s: System, after: System, svc: Id)
    requires after.w.db.stats == s.w.db.stats && after.w.queue == s.w.queue && after.held == s.held
    ensures Balanced(s, after, svc, 0)
  {
  }

  // A message that is accepted is published and counted.
  lemma AcceptBalances(s: System, after: System, db: Tables, m: Job, t: Time, svc: Id)
    requires db.stats == s.w.db.stats && m.serviceId in db.services
    requires after.w.db.stats == CountStat(db, m.serviceId, ACCEPTED, t).stats
    requires after.w.queue == s.w.queue + multiset{m} && after.held == s.held
    ensures Balanced(s, after, svc, 0)
  {
    hide Total, CountStat, OfService;
    CountAddsOne(db, m.serviceId, ACCEPTED, t, svc, ACCEPTED);
    CountAddsOne(db, m.serviceId, ACCEPTED, t, svc, DISPATCHED);
    CountAddsOne(db, m.serviceId, ACCEPTED, t, svc, DELIVERED);
    PutOne(s.w.queue, m, svc);
  }

  lemma SendBalances(cfg: Config, s: System, step: Step, svc: Id)
    requires step.SendStep? && Unhindered(step)
    ensures Balanced(s, Apply(cfg, s, step), svc, 0)
  {
    hide Balanced, CountStat;
    var job := NewJob(step.serviceId, step.payload, step.send.requestId);
    var created := InsertJob(s.w.db, job);
    var after := Apply(cfg, s, step);
    if step.serviceId == NO_ID || !JobAccepted(s.w.db, job) {
      Unchanged(s, after, svc);
    } else {
      AcceptBalances(s, after, created, job, step.send.now, svc);
    }
  }

  lemma ReplayBalances(cfg: Config, s: System, step: Step, svc: Id)
    requires step.ReplayStep? && Unhindered(step) && Inv(cfg, s)
    ensures Balanced(s, Apply(cfg, s, step), svc, 0)
  {
    hide Balanced, Inv, Redeliver, Replay;
    ReplayCases(s.w, step.caller, step.letterId, step.replay);
    var after := Apply(cfg, s, step);
    if after.w == s.w {
      Unchanged(s, after, svc);
    } else {
      var dl := s.w.db.letters[step.letterId];
      LettersHaveServices(cfg, s, step.letterId);
      RedeliverCounts(s.w, dl, step.replay);
      if after.w.queue == s.w.queue {
        Unchanged(s, after, svc);
      } else {
        AcceptBalances(s, after, DeleteLetters(ResetForReplay(s.w.db, ReplayJob(dl)), dl.notificationId),
                       ReplayJob(dl), step.replay.now, svc);
      }
    }
  }

  lemma LettersHaveServices(cfg: Config, s: System, k: Id)
    requires Inv(cfg, s) && k in s.w.db.letters
    ensures s.w.db.letters[k].serviceId in s.w.db.services
  {
  }

  lemma RedeliverCounts(w: World, dl: DeadLetter, env: ReplayEnv)
    requires UncutReplay(env) && env.count.Clean?
    ensures var after := Redeliver(w, dl, env).0;
      var gone := DeleteLetters(ResetForReplay(w.db, ReplayJob(dl)), dl.notificationId);
      && gone.stats == w.db.stats && gone.services == w.db.services
      && ((after.queue == w.queue && after.db.stats == w.db.stats)
          || (after.queue == w.queue + multiset{ReplayJob(dl)}
              && after.db.stats == CountStat(gone, dl.serviceId, ACCEPTED, env.now).stats))
  {
    var gone := DeleteLetters(ResetForReplay(w.db, ReplayJob(dl)), dl.notificationId);
    assert gone.stats == w.db.stats && gone.services == w.db.services;
    assert ResetForReplay(w.db, ReplayJob(dl)).stats == w.db.stats;
    hide CountStat, DeleteLetters, ResetForReplay, ResetAccepted;
  }

  // A pass counts nothing but failures.
  lemma IterateBalances(cfg: Config, s: System, step: Step, svc: Id)
    requires step.IterateStep?
    ensures Balanced(s, Apply(cfg, s, step), svc, if PutsBack(cfg, s, step, svc) then 1 else 0)
  {
    var after, job, env := Apply(cfg, s, step), step.snapshot, step.iter;
    if job !in s.snapshots {
      Unchanged(s, after, svc);
    } else if ShouldRetry(cfg, job.retryCount) {
      RequeueKeepsStats(s.w, job, env);
      PutOne(s.w.queue, job, svc);
    } else {
      DeadLetterCounts(cfg, s.w, job, env, svc);
    }
  }

  lemma RequeueKeepsStats(w: World, job: Job, env: IterEnv)
    ensures var after := Requeue(w, job, env);
      && after.db.stats == w.db.stats
      && after.queue == if job.payload.Malformed? || env.publish.LostCall? then w.queue else w.queue + multiset{job}
  {
  }

  lemma DeadLetterCounts(cfg: Config, w: World, job: Job, env: IterEnv, svc: Id)
    ensures var after := DeadLetterJob(cfg, w, job, env);
      && after.queue == w.queue
      && forall st | st in {ACCEPTED, DISPATCHED, DELIVERED} ::
           Total(after.db.stats, svc, st) == Total(w.db.stats, svc, st)
  {
    hide Total;
    var after := DeadLetterJob(cfg, w, job, env);
    var stored := InsertLetter(w.db, LetterFor(job, env.letterId, env.now));
    BuryCounts(w, job, env, svc);
    BuryCounts(w.(db := stored), job, env, svc);
    hide Bury, LetterAccepted, HasLetter;
    assert stored.stats == w.db.stats;
  }

  lemma BuryCounts(w: World, job: Job, env: IterEnv, svc: Id)
    ensures var after := Bury(w, job, env);
      && after.queue == w.queue
      && forall st | st in {ACCEPTED, DISPATCHED, DELIVERED} ::
           Total(after.db.stats, svc, st) == Total(w.db.stats, svc, st)
  {
    hide Total, CountStat;
    var marked := SetStatus(w.db, job.requestId, DEAD_LETTERED);
    assert marked.stats == w.db.stats;
    CountOthers(marked, job.serviceId, FAILED, env.now, svc, ACCEPTED);
    CountOthers(marked, job.serviceId, FAILED, env.now, svc, DISPATCHED);
    CountOthers(marked, job.serviceId, FAILED, env.now, svc, DELIVERED);
  }

  lemma CountOthers(db: Tables, serviceId: Id, status: Status, t: Time, svc: Id, st: Status)
    requires st != status
    ensures Total(CountStat(db, serviceId, status, t).stats, svc, st) == Total(db.stats, svc, st)
  {
    if StatAccepted(db, serviceId) {
      CountAddsOne(db, serviceId, status, t, svc, st);
    }
  }

  lemma MessageHasService(cfg: Config, s: System, m: Job)
    requires Inv(cfg, s) && (m in s.w.queue || m in s.held)
    ensures m.serviceId in s.w.db.services
  {
    assert Known(s.w.db.jobs, m);
  }

  lemma DispatchBalances(cfg: Config, s: System, step: Step, svc: Id)
    requires step.DispatchStep? && Unhindered(step) && Inv(cfg, s) && step.message in s.w.queue
    ensures Balanced(s, Apply(cfg, s, step), svc, 0)
  {
    hide Inv, CountStat, Balanced;
    MessageHasService(cfg, s, step.message);
    var marked := SetStatus(s.w.db, step.message.requestId, DISPATCHED);
    HeldBalances(s, Apply(cfg, s, step), marked, step.message, step.work.now, svc);
  }

  lemma HeldBalances(s: System, after: System, db: Tables, m: Job, t: Time, svc: Id)
    requires db.stats == s.w.db.stats && m.serviceId in db.services && m in s.w.queue
    requires after.w.db.stats == CountStat(db, m.serviceId, DISPATCHED, t).stats
    requires after.w.queue == s.w.queue - multiset{m} && after.held == s.held + multiset{m}
    ensures Balanced(s, after, svc, 0)
  {
    hide Total, CountStat, OfService;
    CountAddsOne(db, m.serviceId, DISPATCHED, t, svc, ACCEPTED);
    CountAddsOne(db, m.serviceId, DISPATCHED, t, svc, DISPATCHED);
    CountAddsOne(db, m.serviceId, DISPATCHED, t, svc, DELIVERED);
    TakeOne(s.w.queue, m, svc);
    PutOne(s.held, m, svc);
  }

  lemma DeliverBalances(cfg: Config, s: System, step: Step, svc: Id)
    requires step.DeliverStep? && Unhindered(step) && Inv(cfg, s) && step.message in s.held
    ensures Balanced(s, Apply(cfg, s, step), svc, 0)
  {
    hide Inv, CountStat, Balanced;
    MessageHasService(cfg, s, step.message);
    var marked := Call(step.work.update, s.w.db, SetStatus(s.w.db, step.message.requestId, DELIVERED));
    FreedBalances(s, Apply(cfg, s, step), marked, step.message, step.work.now, svc);
  }

  lemma FreedBalances(s: System, after: System, db: Tables, m: Job, t: Time, svc: Id)
    requires db.stats == s.w.db.stats && m.serviceId in db.services && m in s.held
    requires after.w.db.stats == CountStat(db, m.serviceId, DELIVERED, t).stats
    requires after.w.queue == s.w.queue && after.held == s.held - multiset{m}
    ensures Balanced(s, after, svc, 0)
  {
    hide Total, CountStat, OfService;
    CountAddsOne(db, m.serviceId, DELIVERED, t, svc, ACCEPTED);
    CountAddsOne(db, m.serviceId, DELIVERED, t, svc, DISPATCHED);
    CountAddsOne(db, m.serviceId, DELIVERED, t, svc, DELIVERED);
    TakeOne(s.held, m, svc);
  }

  lemma StepBalances(cfg: Config, s: System, step: Step, svc: Id)
    requires Unhindered(step) && Inv(cfg, s)
    ensures Balanced(s, Apply(cfg, s, step), svc, if PutsBack(cfg, s, step, svc) then 1 else 0)
  {
    hide Inv, Balanced, Send, Replay, Iterate, Dispatch, Deliver, DueJobs, IsTop;
    var after := Apply(cfg, s, step);
    match step
    case SendStep(_, _, _) => SendBalances(cfg, s, step, svc);
    case ReplayStep(_, _, _) => ReplayBalances(cfg, s, step, svc);
    case IterateStep(_, _) => IterateBalances(cfg, s, step, svc);
    case DispatchStep(message, _) =>
      if message in s.w.queue {
        DispatchBalances(cfg, s, step, svc);
      } else {
        Unchanged(s, after, svc);
      }
    case DeliverStep(message, _) =>
      if message in s.held {
        DeliverBalances(cfg, s, step, svc);
      } else {
        Unchanged(s, after, svc);
      }
    case _ => Unchanged(s, after, svc);
  }

  // ----- any run -----

  lemma {:induction false} RunBalances(cfg: Config, s: System, steps: seq<Step>, svc: Id)
    requires cfg.dlq && Inv(cfg, s) && forall step :: step in steps ==> Unhindered(step)
    ensures Balanced(s, Run(cfg, s, steps), svc, PutBack(cfg, s, steps, svc))
    decreases |steps|
  {
    hide Inv, Apply, Unhindered, PutsBack, Incoming, Outgoing;
    if steps != [] {
      assert steps[0] in steps;
      StepKeeps(cfg, s, steps[0]);
      StepBalances(cfg, s, steps[0], svc);
      RunBalances(cfg, Apply(cfg, s, steps[0]), steps[1..], svc);
    }
  }

  // From empty tables: the messages ever accepted or put back by passes are
  // those counted DISPATCHED and those on the queue; those counted DISPATCHED
  // are those counted DELIVERED and those asleep.
  lemma MessagesBalance(cfg: Config, steps: seq<Step>, svc: Id)
    requires cfg.dlq && forall step :: step in steps ==> Unhindered(step)
    ensures var s := Run(cfg, INIT, steps);
      && Total(s.w.db.stats, svc, ACCEPTED) + PutBack(cfg, INIT, steps, svc)
         == Total(s.w.db.stats, svc, DISPATCHED) + OfService(s.w.queue, svc)
      && Total(s.w.db.stats, svc, DISPATCHED)
         == Total(s.w.db.stats, svc, DELIVERED) + OfService(s.held, svc)
  {
    RunBalances(cfg, INIT, steps, svc);
    assert KeysOf(map[], svc, ACCEPTED) == {} && KeysOf(map[], svc, DISPATCHED) == {};
    assert KeysOf(map[], svc, DELIVERED) == {};
    hide Run, PutBack;
  }
}
