// The two grains compared. A handler left alone takes, call by call, exactly the
// steps the coarse machine takes at once; interleaved, it may not.

module Grains {
  import opened Domain
  import opened Schema
  import opened Pipeline
  import opened Coarse
  import opened Fine

  function Acting(h: Id, outcome: Outcome, letterId: Id, now: Time): Action {
    Act(h, CallEnv(outcome, letterId, now))
  }

  // Reading on from the first action.
  lemma Onward(cfg: Config, s: State, a: Action, rest: seq<Action>)
    ensures Fine.Run(cfg, s, [a] + rest) == Fine.Run(cfg, Fine.Apply(cfg, s, a), rest)
  {
    assert ([a] + rest)[1..] == rest;
  }

  // The tables, the queue and the handlers, without the history.
  function Now(s: State): (Tables, multiset<Job>, map<Id, Handler>) {
    (s.db, s.queue, s.handlers)
  }

  // ----- one uninterrupted replay -----

  function ReplayActions(h: Id, env: ReplayEnv): seq<Action> {
    [Acting(h, env.lookup, 0, 0)] + ([Acting(h, env.reset, 0, 0)] + ([Acting(h, env.publish, 0, 0)]
      + ([Acting(h, env.delete, 0, 0)] + ([Acting(h, env.count, 0, env.now)] + []))))
  }

  lemma {:induction false} EndedReplayRests(cfg: Config, s: State, h: Id, acts: seq<Action>)
    requires h in s.handlers && s.handlers[h].Replayer? && s.handlers[h].replay.Ended?
    requires forall a :: a in acts ==> a.Act? && a.h == h
    ensures Now(Fine.Run(cfg, s, acts)) == Now(s)
    decreases |acts|
  {
    if acts != [] {
      assert acts[0] in acts;
      var s1 := Fine.Apply(cfg, s, acts[0]);
      assert Now(s1) == Now(s) by {
        assert s.handlers[h := s.handlers[h]] == s.handlers;
      }
      EndedReplayRests(cfg, s1, h, acts[1..]);
    }
  }

  lemma Overwrites(before: map<Id, Handler>, after: map<Id, Handler>, h: Id)
    requires h in before && h in after && after == before[h := after[h]] && after[h].Replayer?
    ensures after[h := after[h]] == after
    ensures after[h := after[h].(replay := Ended(OK))] == before[h := after[h].(replay := Ended(OK))]
    ensures after[h := after[h].(replay := Ended(Internal))] == before[h := after[h].(replay := Ended(Internal))]
  {
  }

  // From the count on, from the delete on, and so forth back to the lookup: the
  // calls left of a replay of dl do what is left of Redeliver.
  lemma CountTail(cfg: Config, s: State, h: Id, hd: Handler, dl: DeadLetter, env: ReplayEnv)
    requires h in s.handlers && s.handlers[h] == hd && hd.Replayer? && hd.replay == CountReplayed(dl)
    ensures Now(Fine.Run(cfg, s, [Acting(h, env.count, 0, env.now)] + []))
         == (Call(env.count, s.db, CountStat(s.db, dl.serviceId, ACCEPTED, env.now)), s.queue,
             s.handlers[h := hd.(replay := Ended(OK))])
  {
    Onward(cfg, s, Acting(h, env.count, 0, env.now), []);
  }

  lemma DeleteTail(cfg: Config, s: State, h: Id, hd: Handler, dl: DeadLetter, env: ReplayEnv)
    requires h in s.handlers && s.handlers[h] == hd && hd.Replayer? && hd.replay == Discard(dl)
    ensures var end := Fine.Run(cfg, s, [Acting(h, env.delete, 0, 0)] + ([Acting(h, env.count, 0, env.now)] + []));
      var gone := Call(env.delete, s.db, DeleteLetters(s.db, dl.notificationId));
      Now(end) == if !env.delete.Clean? then (gone, s.queue, s.handlers[h := hd.(replay := Ended(Internal))])
                  else (Call(env.count, gone, CountStat(gone, dl.serviceId, ACCEPTED, env.now)), s.queue,
                        s.handlers[h := hd.(replay := Ended(OK))])
  {
    var a, rest := Acting(h, env.delete, 0, 0), [Acting(h, env.count, 0, env.now)] + [];
    Onward(cfg, s, a, rest);
    var s1 := Fine.Apply(cfg, s, a);
    Overwrites(s.handlers, s1.handlers, h);
    hide Fine.Run, DeleteLetters, CountStat;
    if env.delete.Clean? {
      CountTail(cfg, s1, h, hd.(replay := CountReplayed(dl)), dl, env);
    } else {
      EndedReplayRests(cfg, s1, h, rest);
    }
  }

  lemma PublishTail(cfg: Config, s: State, h: Id, hd: Handler, dl: DeadLetter, env: ReplayEnv)
    requires h in s.handlers && s.handlers[h] == hd && hd.Replayer? && hd.replay == Reenqueue(dl)
    ensures var end := Fine.Run(cfg, s, [Acting(h, env.publish, 0, 0)]
              + ([Acting(h, env.delete, 0, 0)] + ([Acting(h, env.count, 0, env.now)] + [])));
      var queue := Call(env.publish, s.queue, s.queue + multiset{ReplayJob(dl)});
      var gone := Call(env.delete, s.db, DeleteLetters(s.db, dl.notificationId));
      Now(end) == if !env.publish.Clean? then (s.db, queue, s.handlers[h := hd.(replay := Ended(Internal))])
                  else if !env.delete.Clean? then (gone, queue, s.handlers[h := hd.(replay := Ended(Internal))])
                  else (Call(env.count, gone, CountStat(gone, dl.serviceId, ACCEPTED, env.now)), queue,
                        s.handlers[h := hd.(replay := Ended(OK))])
  {
    var a := Acting(h, env.publish, 0, 0);
    var rest := [Acting(h, env.delete, 0, 0)] + ([Acting(h, env.count, 0, env.now)] + []);
    Onward(cfg, s, a, rest);
    var s1 := Fine.Apply(cfg, s, a);
    Overwrites(s.handlers, s1.handlers, h);
    hide Fine.Run, DeleteLetters, CountStat;
    if env.publish.Clean? {
      DeleteTail(cfg, s1, h, hd.(replay := Discard(dl)), dl, env);
    } else {
      EndedReplayRests(cfg, s1, h, rest);
    }
  }

  lemma RedeliverTail(cfg: Config, s: State, h: Id, hd: Handler, dl: DeadLetter, env: ReplayEnv)
    requires h in s.handlers && s.handlers[h] == hd && hd.Replayer? && hd.replay == Restart(dl) && dl.payload.Json?
    ensures var end := Fine.Run(cfg, s, [Acting(h, env.reset, 0, 0)] + ([Acting(h, env.publish, 0, 0)]
              + ([Acting(h, env.delete, 0, 0)] + ([Acting(h, env.count, 0, env.now)] + []))));
      var (w, code) := Redeliver(World(s.db, s.queue), dl, env);
      Now(end) == (w.db, w.queue, s.handlers[h := hd.(replay := Ended(code))])
  {
    var a := Acting(h, env.reset, 0, 0);
    var rest := [Acting(h, env.publish, 0, 0)]
      + ([Acting(h, env.delete, 0, 0)] + ([Acting(h, env.count, 0, env.now)] + []));
    Onward(cfg, s, a, rest);
    var s1 := Fine.Apply(cfg, s, a);
    Overwrites(s.handlers, s1.handlers, h);
    hide Fine.Run, DeleteLetters, CountStat, ResetForReplay, ResetAccepted;
    if env.reset.Clean? && ResetAccepted(s.db, ReplayJob(dl)) {
      PublishTail(cfg, s1, h, hd.(replay := Reenqueue(dl)), dl, env);
    } else {
      EndedReplayRests(cfg, s1, h, rest);
    }
  }

  // A replay nothing interferes with is the coarse replay, answer included.
  lemma LoneReplayIsCoarse(cfg: Config, s: State, h: Id, caller: Id, letterId: Id, env: ReplayEnv)
    requires h in s.handlers && s.handlers[h] == Replayer(caller, letterId, Lookup) && letterId != NO_ID
    ensures var end := Fine.Run(cfg, s, ReplayActions(h, env));
      var (w, code) := Replay(World(s.db, s.queue), Some(caller), letterId, env);
      Now(end) == (w.db, w.queue, s.handlers[h := Replayer(caller, letterId, Ended(code))])
  {
    var a := Acting(h, env.lookup, 0, 0);
    var rest := [Acting(h, env.reset, 0, 0)] + ([Acting(h, env.publish, 0, 0)]
      + ([Acting(h, env.delete, 0, 0)] + ([Acting(h, env.count, 0, env.now)] + [])));
    Onward(cfg, s, a, rest);
    var s1 := Fine.Apply(cfg, s, a);
    LookupStep(cfg, s, h, caller, letterId, env);
    Overwrites(s.handlers, s1.handlers, h);
    hide Fine.Run, Fine.Apply, Redeliver;
    if s1.handlers[h].replay.Restart? {
      RedeliverTail(cfg, s1, h, s1.handlers[h], s.db.letters[letterId], env);
    } else {
      EndedReplayRests(cfg, s1, h, rest);
      MalformedIsInternal(World(s.db, s.queue), letterId, env);
    }
  }

  lemma LookupStep(cfg: Config, s: State, h: Id, caller: Id, letterId: Id, env: ReplayEnv)
    requires h in s.handlers && s.handlers[h] == Replayer(caller, letterId, Lookup) && letterId != NO_ID
    ensures var s1 := Fine.Apply(cfg, s, Acting(h, env.lookup, 0, 0));
      && s1.db == s.db && s1.queue == s.queue && h in s1.handlers && s1.handlers == s.handlers[h := s1.handlers[h]]
      && s1.handlers[h] == NextReplay(s.db, s.handlers[h], env.lookup.Clean?)
  {
  }

  lemma MalformedIsInternal(w: World, letterId: Id, env: ReplayEnv)
    ensures letterId in w.db.letters && w.db.letters[letterId].payload.Malformed? ==>
      Redeliver(w, w.db.letters[letterId], env) == (w, Internal)
  {
  }

  // ----- one uninterrupted send, dispatch and delivery -----

  lemma TwoActions(cfg: Config, s: State, a: Action, b: Action)
    ensures Fine.Run(cfg, s, [a]) == Fine.Apply(cfg, s, a)
    ensures Fine.Run(cfg, s, [a, b]) == Fine.Apply(cfg, Fine.Apply(cfg, s, a), b)
  {
    assert [a] == [a] + [] && [b] == [b] + [] && [a, b] == [a] + [b];
    Onward(cfg, s, a, []);
    Onward(cfg, s, a, [b]);
    Onward(cfg, Fine.Apply(cfg, s, a), b, []);
    hide Fine.Apply;
  }

  lemma Overwritten(handlers: map<Id, Handler>, h: Id, x: Handler, y: Handler)
    ensures handlers[h := x][h := y] == handlers[h := y]
  {
  }

  function SendActions(h: Id, db: Tables, job: Job, env: SendEnv): seq<Action> {
    [Acting(h, env.create, 0, 0)]
    + if env.create.Clean? && JobAccepted(db, job)
      then [Acting(h, env.count, 0, env.now), Acting(h, env.publish, 0, 0)] else []
  }

  lemma AcceptedTail(cfg: Config, s: State, h: Id, hd: Handler, env: SendEnv)
    requires h in s.handlers && s.handlers[h] == hd && hd.Sender? && hd.send == CountAccepted
    ensures var job := NewJob(hd.serviceId, hd.payload, hd.requestId);
      Now(Fine.Run(cfg, s, [Acting(h, env.count, 0, env.now), Acting(h, env.publish, 0, 0)]))
      == (Call(env.count, s.db, CountStat(s.db, hd.serviceId, ACCEPTED, env.now)),
          Call(env.publish, s.queue, s.queue + multiset{job}),
          s.handlers[h := hd.(send := Answered(if env.publish.Clean? then OK else Internal))])
  {
    TwoActions(cfg, s, Acting(h, env.count, 0, env.now), Acting(h, env.publish, 0, 0));
    Overwritten(s.handlers, h, hd.(send := Enqueue), hd.(send := Answered(OK)));
    Overwritten(s.handlers, h, hd.(send := Enqueue), hd.(send := Answered(Internal)));
    assert NewJob(hd.serviceId, hd.payload, hd.requestId).serviceId == hd.serviceId;
    hide Fine.Run, CountStat, NewJob;
  }

  lemma CreateStep(cfg: Config, s: State, h: Id, hd: Handler, env: SendEnv)
    requires h in s.handlers && s.handlers[h] == hd && hd.Sender? && hd.send == Create
    ensures var job := NewJob(hd.serviceId, hd.payload, hd.requestId);
      var at := if env.create.Clean? && JobAccepted(s.db, job) then CountAccepted else Answered(Internal);
      Now(Fine.Apply(cfg, s, Acting(h, env.create, 0, 0)))
      == (Call(env.create, s.db, InsertJob(s.db, job)), s.queue, s.handlers[h := hd.(send := at)])
  {
    hide InsertJob, NewJob, JobAccepted;
  }

  // A send nothing interferes with is the coarse send, answer included.
  lemma LoneSendIsCoarse(cfg: Config, s: State, h: Id, serviceId: Id, payload: Option<Payload>, env: SendEnv)
    requires h in s.handlers && s.handlers[h] == Sender(serviceId, payload, env.requestId, Create)
    requires serviceId != NO_ID
    ensures var end := Fine.Run(cfg, s, SendActions(h, s.db, NewJob(serviceId, payload, env.requestId), env));
      var (w, code) := Pipeline.Send(World(s.db, s.queue), serviceId, payload, env);
      Now(end) == (w.db, w.queue, s.handlers[h := Sender(serviceId, payload, env.requestId, Answered(code))])
  {
    hide InsertJob, CountStat, NewJob, JobAccepted, Fine.Apply;
    var hd, a := s.handlers[h], Acting(h, env.create, 0, 0);
    var rest := if env.create.Clean? && JobAccepted(s.db, NewJob(serviceId, payload, env.requestId))
      then [Acting(h, env.count, 0, env.now), Acting(h, env.publish, 0, 0)] else [];
    Onward(cfg, s, a, rest);
    CreateStep(cfg, s, h, hd, env);
    var s1 := Fine.Apply(cfg, s, a);
    if rest == [] {
      NothingLeft(cfg, s1);
    } else {
      hide Fine.Run;
      AcceptedTail(cfg, s1, h, hd.(send := CountAccepted), env);
      Overwritten(s.handlers, h, hd.(send := CountAccepted), hd.(send := Answered(OK)));
      Overwritten(s.handlers, h, hd.(send := CountAccepted), hd.(send := Answered(Internal)));
    }
  }

  // So are a dispatch and, one sleep later, a delivery.
  lemma LoneDispatchIsCoarse(cfg: Config, s: State, h: Id, m: Job, env: WorkEnv)
    requires h in s.handlers && s.handlers[h] == Worker(m, MarkDispatched)
    ensures var (mark, count) := (Acting(h, env.update, 0, 0), Acting(h, env.count, 0, env.now));
      var (db, spawned) := Dispatch(s.db, m, env);
      Now(Fine.Run(cfg, s, if env.update.Clean? then [mark, count] else [mark]))
      == (db, s.queue, s.handlers[h := Worker(m, if spawned then Asleep else Gone)])
  {
    hide SetStatus, CountStat;
    var a, b := Acting(h, env.update, 0, 0), Acting(h, env.count, 0, env.now);
    TwoActions(cfg, s, a, b);
    Overwritten(s.handlers, h, Worker(m, CountDispatched), Worker(m, Asleep));
    hide Fine.Run;
  }

  lemma LoneDeliveryIsCoarse(cfg: Config, s: State, h: Id, m: Job, env: WorkEnv)
    requires h in s.handlers && s.handlers[h] == Worker(m, Asleep)
    ensures var (mark, count) := (Acting(h, env.update, 0, 0), Acting(h, env.count, 0, env.now));
      Now(Fine.Run(cfg, s, [mark, count])) == (Deliver(s.db, m, env), s.queue, s.handlers[h := Worker(m, Gone)])
  {
    hide SetStatus, CountStat;
    var a, b := Acting(h, env.update, 0, 0), Acting(h, env.count, 0, env.now);
    TwoActions(cfg, s, a, b);
    Overwritten(s.handlers, h, Worker(m, CountDelivered), Worker(m, Gone));
    hide Fine.Run;
  }

  // ----- one uninterrupted pass -----

  function BuryActions(h: Id, env: IterEnv): seq<Action> {
    [Acting(h, env.update, 0, 0)] + if env.update.Clean? then [Acting(h, env.count, 0, env.now)] else []
  }

  // The calls one job's iteration makes under env.
  function IterActions(cfg: Config, db: Tables, h: Id, job: Job, env: IterEnv): seq<Action> {
    if ShouldRetry(cfg, job.retryCount) then
      [Acting(h, env.publish, 0, 0)]
      + if env.publish.Clean? && job.payload.Json? then [Acting(h, env.update, 0, 0)] else []
    else
      [Acting(h, if cfg.dlq then env.create else Clean, env.letterId, env.now)]
      + if !cfg.dlq || (env.create.Clean? && LetterAccepted(db, LetterFor(job, env.letterId, env.now)))
        then BuryActions(h, env) else []
  }

  lemma BuryTail(cfg: Config, s: State, h: Id, batch: seq<Job>, i: nat, env: IterEnv)
    requires h in s.handlers && s.handlers[h] == Pass(batch, i, WriteDeadLettered) && i < |batch|
    ensures var w := Bury(World(s.db, s.queue), batch[i], env);
      Now(Fine.Run(cfg, s, BuryActions(h, env))) == (w.db, w.queue, s.handlers[h := Pass(batch, i + 1, Top)])
  {
    var a, rest := Acting(h, env.update, 0, 0), if env.update.Clean? then [Acting(h, env.count, 0, env.now)] else [];
    Onward(cfg, s, a, rest);
    var s1 := Fine.Apply(cfg, s, a);
    hide SetStatus, CountStat;
    if env.update.Clean? {
      assert [Acting(h, env.count, 0, env.now)] + [] == rest;
      Onward(cfg, s1, Acting(h, env.count, 0, env.now), []);
      hide Fine.Run;
      Overwritten(s.handlers, h, Pass(batch, i, CountFailed), Pass(batch, i + 1, Top));
    }
  }

  // The iteration of one job, run without interference, is the coarse one.
  lemma LoneIterationIsCoarse(cfg: Config, s: State, h: Id, batch: seq<Job>, i: nat, env: IterEnv)
    requires h in s.handlers && s.handlers[h] == Pass(batch, i, Top) && i < |batch|
    ensures var w := Iterate(cfg, World(s.db, s.queue), batch[i], env);
      Now(Fine.Run(cfg, s, IterActions(cfg, s.db, h, batch[i], env)))
        == (w.db, w.queue, s.handlers[h := Pass(batch, i + 1, Top)])
  {
    var job := batch[i];
    if ShouldRetry(cfg, job.retryCount) {
      LoneRequeue(cfg, s, h, batch, i, env);
    } else {
      LoneDeadLetter(cfg, s, h, batch, i, env);
    }
  }

  lemma LoneRequeue(cfg: Config, s: State, h: Id, batch: seq<Job>, i: nat, env: IterEnv)
    requires h in s.handlers && s.handlers[h] == Pass(batch, i, Top) && i < |batch|
    requires ShouldRetry(cfg, batch[i].retryCount)
    ensures var w := Requeue(World(s.db, s.queue), batch[i], env);
      Now(Fine.Run(cfg, s, IterActions(cfg, s.db, h, batch[i], env)))
        == (w.db, w.queue, s.handlers[h := Pass(batch, i + 1, Top)])
  {
    hide SetStatus, Fine.Run, Fine.Apply, ShouldRetry;
    var a := Acting(h, env.publish, 0, 0);
    var rest := if env.publish.Clean? && batch[i].payload.Json? then [Acting(h, env.update, 0, 0)] else [];
    Onward(cfg, s, a, rest);
    PublishStep(cfg, s, h, batch, i, env);
    var s1 := Fine.Apply(cfg, s, a);
    if rest != [] {
      PendingTail(cfg, s1, h, batch, i, env);
      assert s1.handlers[h := Pass(batch, i + 1, Top)] == s.handlers[h := Pass(batch, i + 1, Top)];
    } else {
      NothingLeft(cfg, s1);
    }
  }

  lemma NothingLeft(cfg: Config, s: State)
    ensures Fine.Run(cfg, s, []) == s
  {
  }

  lemma PublishStep(cfg: Config, s: State, h: Id, batch: seq<Job>, i: nat, env: IterEnv)
    requires h in s.handlers && s.handlers[h] == Pass(batch, i, Top) && i < |batch|
    requires ShouldRetry(cfg, batch[i].retryCount)
    ensures var s1 := Fine.Apply(cfg, s, Acting(h, env.publish, 0, 0));
      && s1.db == s.db
      && s1.queue == (if batch[i].payload.Malformed? then s.queue
                      else Call(env.publish, s.queue, s.queue + multiset{batch[i]}))
      && s1.handlers == s.handlers[h := if env.publish.Clean? && batch[i].payload.Json?
           then Pass(batch, i, WritePending) else Pass(batch, i + 1, Top)]
  {
  }

  lemma PendingTail(cfg: Config, s: State, h: Id, batch: seq<Job>, i: nat, env: IterEnv)
    requires h in s.handlers && s.handlers[h] == Pass(batch, i, WritePending) && i < |batch|
    ensures Now(Fine.Run(cfg, s, [Acting(h, env.update, 0, 0)]))
         == (Call(env.update, s.db, SetStatus(s.db, batch[i].requestId, PENDING)), s.queue,
             s.handlers[h := Pass(batch, i + 1, Top)])
  {
    assert [Acting(h, env.update, 0, 0)] + [] == [Acting(h, env.update, 0, 0)];
    Onward(cfg, s, Acting(h, env.update, 0, 0), []);
    hide SetStatus;
  }

  lemma LoneDeadLetter(cfg: Config, s: State, h: Id, batch: seq<Job>, i: nat, env: IterEnv)
    requires h in s.handlers && s.handlers[h] == Pass(batch, i, Top) && i < |batch|
    requires !ShouldRetry(cfg, batch[i].retryCount)
    ensures var w := DeadLetterJob(cfg, World(s.db, s.queue), batch[i], env);
      Now(Fine.Run(cfg, s, IterActions(cfg, s.db, h, batch[i], env)))
        == (w.db, w.queue, s.handlers[h := Pass(batch, i + 1, Top)])
  {
    hide Fine.Run, Fine.Apply, InsertLetter, LetterAccepted, Bury, BuryActions, ShouldRetry;
    var on := !cfg.dlq || (env.create.Clean? && LetterAccepted(s.db, LetterFor(batch[i], env.letterId, env.now)));
    var a := Acting(h, if cfg.dlq then env.create else Clean, env.letterId, env.now);
    var rest := if on then BuryActions(h, env) else [];
    Onward(cfg, s, a, rest);
    LetterStep(cfg, s, h, batch, i, env);
    var s1 := Fine.Apply(cfg, s, a);
    if on {
      BuryTail(cfg, s1, h, batch, i, env);
      assert s1.handlers[h := Pass(batch, i + 1, Top)] == s.handlers[h := Pass(batch, i + 1, Top)];
    } else {
      NothingLeft(cfg, s1);
    }
  }

  lemma LetterStep(cfg: Config, s: State, h: Id, batch: seq<Job>, i: nat, env: IterEnv)
    requires h in s.handlers && s.handlers[h] == Pass(batch, i, Top) && i < |batch|
    requires !ShouldRetry(cfg, batch[i].retryCount)
    ensures var dl := LetterFor(batch[i], env.letterId, env.now);
      var s1 := Fine.Apply(cfg, s, Acting(h, if cfg.dlq then env.create else Clean, env.letterId, env.now));
      && s1.db == (if cfg.dlq then Call(env.create, s.db, InsertLetter(s.db, dl)) else s.db)
      && s1.queue == s.queue
      && s1.handlers == s.handlers[h := if !cfg.dlq || (env.create.Clean? && LetterAccepted(s.db, dl))
           then Pass(batch, i, WriteDeadLettered) else Pass(batch, i + 1, Top)]
  {
    hide InsertLetter, LetterAccepted;
  }

  function PassActions(cfg: Config, w: World, h: Id, batch: seq<Job>, i: nat, envs: Id -> IterEnv): seq<Action>
    decreases |batch| - i
  {
    if i >= |batch| then []
    else
      var env := envs(batch[i].requestId);
      IterActions(cfg, w.db, h, batch[i], env) + PassActions(cfg, Iterate(cfg, w, batch[i], env), h, batch, i + 1, envs)
  }

  // A whole pass nothing interferes with is RunBatch, what ProcessRetries does.
  lemma {:induction false} LonePassIsCoarse(cfg: Config, s: State, h: Id, batch: seq<Job>, i: nat, envs: Id -> IterEnv)
    requires h in s.handlers && s.handlers[h] == Pass(batch, i, Top) && i <= |batch|
    ensures var w := RunBatch(cfg, World(s.db, s.queue), batch[i..], envs);
      Now(Fine.Run(cfg, s, PassActions(cfg, World(s.db, s.queue), h, batch, i, envs)))
        == (w.db, w.queue, s.handlers[h := Pass(batch, |batch|, Top)])
    decreases |batch| - i
  {
    if i < |batch| {
      var env := envs(batch[i].requestId);
      var acts := IterActions(cfg, s.db, h, batch[i], env);
      var w1 := Iterate(cfg, World(s.db, s.queue), batch[i], env);
      var rest := PassActions(cfg, w1, h, batch, i + 1, envs);
      LoneIterationIsCoarse(cfg, s, h, batch, i, env);
      var s1 := Fine.Run(cfg, s, acts);
      Fine.RunConcat(cfg, s, acts, rest);
      assert batch[i..][0] == batch[i] && batch[i..][1..] == batch[i + 1..];
      hide Fine.Run, Iterate, IterActions;
      LonePassIsCoarse(cfg, s1, h, batch, i + 1, envs);
      assert s1.handlers[h := Pass(batch, |batch|, Top)] == s.handlers[h := Pass(batch, |batch|, Top)];
    } else {
      assert batch[i..] == [];
      assert s.handlers[h := s.handlers[h]] == s.handlers;
    }
  }

  // ----- where interleaving breaks the coarse invariant -----

  // A whole replay between a pass's letter insert and its status write leaves
  // the job DEAD_LETTERED without a letter, though with the replay's message on
  // the queue: it is lost if that message was delivered before the write.
  lemma ReplayInsideBurial(cfg: Config, s: State, p: Id, r: Id, batch: seq<Job>, i: nat, dl: DeadLetter,
                           env: ReplayEnv, late: CallEnv)
    requires p in s.handlers && s.handlers[p] == Pass(batch, i, WriteDeadLettered) && i < |batch|
    requires r in s.handlers && r != p && s.handlers[r] == Replayer(dl.serviceId, dl.id, Lookup) && dl.id != NO_ID
    requires dl.id in s.db.letters && s.db.letters[dl.id] == dl && dl.payload.Json?
    requires batch[i].requestId == dl.notificationId && dl.notificationId in s.db.jobs
    requires UncutReplay(env) && late.outcome.Clean?
    ensures var end := Fine.Run(cfg, s, ReplayActions(r, env) + [Act(p, late)]);
      && dl.notificationId in end.db.jobs && end.db.jobs[dl.notificationId].status.DEAD_LETTERED?
      && !HasLetter(end.db, dl.notificationId) && end.queue == s.queue + multiset{ReplayJob(dl)}
  {
    hide Fine.Run, Fine.Apply, Replay, ReplayActions, HasLetter;
    var s1 := Fine.Run(cfg, s, ReplayActions(r, env));
    LoneReplayIsCoarse(cfg, s, r, dl.serviceId, dl.id, env);
    UncutReplayEffect(World(s.db, s.queue), dl, env);
    Fine.RunConcat(cfg, s, ReplayActions(r, env), [Act(p, late)]);
    assert [Act(p, late)] == [Act(p, late)] + [];
    Onward(cfg, s1, Act(p, late), []);
    NothingLeft(cfg, Fine.Apply(cfg, s1, Act(p, late)));
    BurialWrites(cfg, s1, p, batch, i, late);
    SameLetters(s1.db, Fine.Apply(cfg, s1, Act(p, late)).db);
  }

  lemma BurialWrites(cfg: Config, s: State, p: Id, batch: seq<Job>, i: nat, late: CallEnv)
    requires p in s.handlers && s.handlers[p] == Pass(batch, i, WriteDeadLettered) && i < |batch|
    requires batch[i].requestId in s.db.jobs && late.outcome.Clean?
    ensures var after := Fine.Apply(cfg, s, Act(p, late));
      && batch[i].requestId in after.db.jobs && after.db.jobs[batch[i].requestId].status.DEAD_LETTERED?
      && after.db.letters == s.db.letters && after.queue == s.queue
  {
  }

  lemma UncutReplayEffect(w: World, dl: DeadLetter, env: ReplayEnv)
    requires dl.id in w.db.letters && w.db.letters[dl.id] == dl && dl.payload.Json? && dl.id != NO_ID
    requires dl.notificationId in w.db.jobs && UncutReplay(env)
    ensures var after := Replay(w, Some(dl.serviceId), dl.id, env).0;
      && dl.notificationId in after.db.jobs && !HasLetter(after.db, dl.notificationId)
      && after.queue == w.queue + multiset{ReplayJob(dl)}
  {
    var db := Replay(w, Some(dl.serviceId), dl.id, env).0.db;
    var gone := DeleteLetters(ResetForReplay(w.db, ReplayJob(dl)), dl.notificationId);
    assert !HasLetter(gone, dl.notificationId);
    assert db.letters == gone.letters;
    SameLetters(gone, db);
  }

  // A delivery between a pass's publish and its PENDING write leaves a job that
  // was delivered at PENDING, with no message and no letter to move it on.
  lemma DeliveryInsideRequeue(cfg: Config, s: State, p: Id, v: Id, batch: seq<Job>, i: nat)
    requires p in s.handlers && s.handlers[p] == Pass(batch, i, WritePending) && i < |batch| && v !in s.handlers
    requires batch[i] in s.queue && batch[i].requestId in s.db.jobs
    requires !Awaits(s.queue - multiset{batch[i]}, batch[i].requestId) && !HasLetter(s.db, batch[i].requestId)
    ensures var ok := CallEnv(Clean, 0, 0);
      var end := Fine.Run(cfg, s, [Receive(v, batch[i])] + ([Act(v, ok)] + ([Act(v, ok)] + ([Act(v, ok)] + ([Act(v, ok)]
        + ([Act(p, ok)] + []))))));
      && batch[i].requestId in end.db.jobs && end.db.jobs[batch[i].requestId].status.PENDING?
      && !Awaits(end.queue, batch[i].requestId) && !HasLetter(end.db, batch[i].requestId)
      && v in end.handlers && end.handlers[v] == Worker(batch[i], Gone)
  {
    hide Fine.Run, Fine.Apply, Awaits, HasLetter;
    var ok, m := CallEnv(Clean, 0, 0), batch[i];
    var t5 := [Act(p, ok)] + [];
    var t4 := [Act(v, ok)] + t5;
    var t3 := [Act(v, ok)] + t4;
    var t2 := [Act(v, ok)] + t3;
    var t1 := [Act(v, ok)] + t2;
    Onward(cfg, s, Receive(v, m), t1);
    var s1 := Fine.Apply(cfg, s, Receive(v, m));
    ReceiptTakesMessage(cfg, s, v, m);
    Onward(cfg, s1, Act(v, ok), t2);
    var s2 := Fine.Apply(cfg, s1, Act(v, ok));
    WorkerLeavesLetters(cfg, s1, v, m);
    Onward(cfg, s2, Act(v, ok), t3);
    var s3 := Fine.Apply(cfg, s2, Act(v, ok));
    WorkerLeavesLetters(cfg, s2, v, m);
    Onward(cfg, s3, Act(v, ok), t4);
    var s4 := Fine.Apply(cfg, s3, Act(v, ok));
    WorkerLeavesLetters(cfg, s3, v, m);
    Onward(cfg, s4, Act(v, ok), t5);
    var s5 := Fine.Apply(cfg, s4, Act(v, ok));
    WorkerLeavesLetters(cfg, s4, v, m);
    Onward(cfg, s5, Act(p, ok), []);
    LateWrite(cfg, s5, p, batch, i);
    SameLetters(s.db, Fine.Apply(cfg, s5, Act(p, ok)).db);
    NothingLeft(cfg, Fine.Apply(cfg, s5, Act(p, ok)));
  }

  lemma ReceiptTakesMessage(cfg: Config, s: State, v: Id, m: Job)
    requires m in s.queue && v !in s.handlers
    ensures Fine.Apply(cfg, s, Receive(v, m))
         == s.(queue := s.queue - multiset{m}, handlers := s.handlers[v := Worker(m, MarkDispatched)])
  {
  }

  lemma LateWrite(cfg: Config, s: State, p: Id, batch: seq<Job>, i: nat)
    requires p in s.handlers && s.handlers[p] == Pass(batch, i, WritePending) && i < |batch|
    requires batch[i].requestId in s.db.jobs
    ensures var after := Fine.Apply(cfg, s, Act(p, CallEnv(Clean, 0, 0)));
      && batch[i].requestId in after.db.jobs && after.db.jobs[batch[i].requestId].status.PENDING?
      && after.queue == s.queue && after.db.letters == s.db.letters
      && after.handlers == s.handlers[p := Pass(batch, i + 1, Top)]
  {
  }

  lemma WorkerLeavesLetters(cfg: Config, s: State, v: Id, m: Job)
    requires v in s.handlers && s.handlers[v].Worker? && s.handlers[v].message == m && m.requestId in s.db.jobs
    ensures var after := Fine.Apply(cfg, s, Act(v, CallEnv(Clean, 0, 0)));
      && after.queue == s.queue && after.db.letters == s.db.letters && m.requestId in after.db.jobs
      && after.handlers == s.handlers[v := NextWorker(s.handlers[v], true)]
  {
  }
}
