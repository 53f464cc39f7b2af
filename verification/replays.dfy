// Any number of replays of one dead letter, at every grain of interleaving with
// the worker, the scheduler, other services' requests and one another.

module Replays {
  import opened Domain
  import opened Schema
  import opened Query
  import opened Pipeline
  import opened Coarse
  import opened Fine
  import opened Races

  // How far a replay of the letter got: 1 once its reset, 2 once its publish,
  // 3 once its delete took effect.
  function Stage(hd: Handler, letterId: Id): nat {
    if !hd.Replayer? || hd.letterId != letterId then 0
    else match hd.replay
      case Reenqueue(_) => 1
      case Discard(_) => 2
      case CountReplayed(_) => 3
      case Ended(OK) => 3
      case _ => 0
  }

  ghost function AtLeast(s: State, letterId: Id, n: nat): set<Id> {
    set h | h in s.handlers && Stage(s.handlers[h], letterId) >= n
  }

  predicate Marks(hd: Handler, id: Id) {
    hd.Worker? && hd.message.requestId == id && hd.worker.MarkDispatched?
  }

  predicate Delivers(hd: Handler, id: Id) {
    hd.Worker? && hd.message.requestId == id && (hd.worker.CountDispatched? || hd.worker.Asleep?)
  }

  ghost predicate SomeResends(s: State, letterId: Id) {
    exists h :: h in s.handlers && Stage(s.handlers[h], letterId) == 1
  }

  ghost predicate SomeMarks(s: State, id: Id) {
    exists h :: h in s.handlers && Marks(s.handlers[h], id)
  }

  ghost predicate SomeDelivers(s: State, id: Id) {
    exists h :: h in s.handlers && Delivers(s.handlers[h], id)
  }

  // The pass is past the job, or at the count that ends its burial of it.
  predicate Behind(hd: Handler, id: Id)
    requires hd.Pass?
  {
    forall k | hd.i <= k < |hd.batch| && hd.batch[k].requestId == id :: k == hd.i && hd.pass.CountFailed?
  }

  // What a handler may be at, given whether a reset took effect and whether the
  // letter is still there.
  predicate ReplayOk(hd: Handler, dl0: DeadLetter, started: bool, here: bool) {
    match hd
    case Pass(_, _, _) => Behind(hd, dl0.notificationId)
    case Worker(message, worker) =>
      message.requestId == dl0.notificationId ==> started || worker.Gone? || worker.CountDelivered?
    case Sender(_, _, requestId, send) => requestId == dl0.notificationId ==> send.Create? || send.Answered?
    case Replayer(caller, letterId, replay) =>
      match replay
      case Lookup => true
      case Ended(code) =>
        letterId == dl0.id ==>
          && (code.OK? ==> started && !here && caller == dl0.serviceId)
          && (code.NotFound? ==> !here)
      case _ =>
        if letterId == dl0.id
        then replay.dl == dl0 && caller == dl0.serviceId && (replay.Restart? || started)
             && (replay.CountReplayed? ==> !here)
        else replay.dl.notificationId != dl0.notificationId
  }

  // The counts of the effects on the job before the replays begin.
  datatype Base = Base(resets: nat, publishes: nat, burials: nat)

  function BaseOf(s: State, id: Id): Base {
    Base(Times(s.history, ResetOf(id)), Times(s.history, PublishOf(id)), Times(s.history, BurialOf(id)))
  }

  ghost predicate LettersOk(letters: map<Id, DeadLetter>, dl0: DeadLetter) {
    && (dl0.id in letters ==> letters[dl0.id] == dl0)
    && (forall k :: k in letters && letters[k].notificationId == dl0.notificationId ==> k == dl0.id)
  }

  ghost predicate RowOk(jobs: map<Id, Job>, dl0: DeadLetter) {
    && dl0.notificationId in jobs
    && var row := jobs[dl0.notificationId];
       && row.serviceId == dl0.serviceId && row.payload == dl0.payload && !row.status.FAILED? && !row.status.ACCEPTED?
       && (!row.status.DEAD_LETTERED? ==> row.retryCount == 0 && row.nextRetryAt.None?)
  }

  predicate Started(jobs: map<Id, Job>, id: Id)
    requires id in jobs
  {
    !jobs[id].status.DEAD_LETTERED?
  }

  // PENDING and DISPATCHED rows still have someone on the way to them.
  ghost predicate OnTheWay(s: State, dl0: DeadLetter)
    requires dl0.notificationId in s.db.jobs
  {
    var id := dl0.notificationId;
    && (s.db.jobs[id].status.PENDING? ==> SomeResends(s, dl0.id) || Awaits(s.queue, id) || SomeMarks(s, id))
    && (s.db.jobs[id].status.DISPATCHED? ==> SomeDelivers(s, id))
  }

  ghost predicate CountsOk(s: State, dl0: DeadLetter, b: Base) {
    var id := dl0.notificationId;
    && Times(s.history, ResetOf(id)) == b.resets + |AtLeast(s, dl0.id, 1)|
    && Times(s.history, PublishOf(id)) == b.publishes + |AtLeast(s, dl0.id, 2)|
    && Times(s.history, BurialOf(id)) == b.burials
  }

  ghost predicate HandlersOk(s: State, dl0: DeadLetter)
    requires dl0.notificationId in s.db.jobs
  {
    forall h :: h in s.handlers ==>
      ReplayOk(s.handlers[h], dl0, Started(s.db.jobs, dl0.notificationId), dl0.id in s.db.letters)
  }

  ghost predicate Replaying(s: State, dl0: DeadLetter, b: Base) {
    && Fine.Inv(s)
    && RowOk(s.db.jobs, dl0)
    && LettersOk(s.db.letters, dl0)
    && (!Started(s.db.jobs, dl0.notificationId) ==> dl0.id in s.db.letters && !Awaits(s.queue, dl0.notificationId))
    && (dl0.id !in s.db.letters ==> AtLeast(s, dl0.id, 3) != {})
    && OnTheWay(s, dl0)
    && CountsOk(s, dl0, b)
    && HandlersOk(s, dl0)
  }

  // ----- steps that do not concern the job -----

  // The call is about another job, or writes a stat, or nothing.
  predicate Spares(db: Tables, call: NextCall, dl0: DeadLetter) {
    var id := dl0.notificationId;
    match call
    case NoCall => true
    case Pub(m) => m.requestId != id
    case Sql(st) =>
      match st
      case Insert(_) => id in db.jobs
      case Update(x, _) => x != id
      case Fail(x, _) => x != id
      case Reset(job) => job.requestId != id
      case Letter(dl) => dl.notificationId != id && dl.id != dl0.id
      case Unletter(nid) => nid != id
      case Count(_, _, _) => true
      case Register(_) => true
      case Unregister(_, _) => true
  }

  lemma SparingCall(s: State, hd: Handler, call: NextCall, outcome: Outcome, dl0: DeadLetter)
    requires Spares(s.db, call, dl0) && dl0.notificationId in s.db.jobs && LettersOk(s.db.letters, dl0)
    ensures var db := DbAfter(s.db, call, outcome);
      var more := EffectsOf(s.db, hd, call, outcome);
      var id := dl0.notificationId;
      && id in db.jobs && db.jobs[id] == s.db.jobs[id]
      && LettersOk(db.letters, dl0) && (dl0.id in db.letters <==> dl0.id in s.db.letters)
      && (Awaits(s.queue, id) <==> Awaits(QueueAfter(s.queue, call, outcome), id))
      && |more| <= 1 && more != [ResetOf(id)] && more != [PublishOf(id)] && more != [BurialOf(id)]
  {
    SparingQueue(s, call, outcome, dl0);
    SparingLetters(s.db, call, outcome, dl0);
    hide QueueAfter, Awaits, LettersOk;
  }

  lemma SparingQueue(s: State, call: NextCall, outcome: Outcome, dl0: DeadLetter)
    requires Spares(s.db, call, dl0)
    ensures Awaits(s.queue, dl0.notificationId) <==> Awaits(QueueAfter(s.queue, call, outcome), dl0.notificationId)
  {
    if call.Pub? {
      var more := s.queue + multiset{call.message};
      assert forall m :: m in more <==> m in s.queue || m == call.message;
    }
  }

  lemma SparingLetters(db: Tables, call: NextCall, outcome: Outcome, dl0: DeadLetter)
    requires Spares(db, call, dl0) && LettersOk(db.letters, dl0)
    ensures var after := DbAfter(db, call, outcome).letters;
      LettersOk(after, dl0) && (dl0.id in after <==> dl0.id in db.letters)
  {
  }

  // The handler keeps its part in the replay.
  predicate SamePart(hd: Handler, next: Handler, dl0: DeadLetter) {
    && Stage(next, dl0.id) == Stage(hd, dl0.id)
    && (Marks(hd, dl0.notificationId) ==> Marks(next, dl0.notificationId))
    && (Delivers(hd, dl0.notificationId) ==> Delivers(next, dl0.notificationId))
  }

  lemma SamePartStays(s: State, after: State, h: Id, dl0: DeadLetter)
    requires h in s.handlers && h in after.handlers && after.handlers == s.handlers[h := after.handlers[h]]
    requires SamePart(s.handlers[h], after.handlers[h], dl0)
    ensures forall n :: AtLeast(after, dl0.id, n) == AtLeast(s, dl0.id, n)
    ensures SomeResends(s, dl0.id) ==> SomeResends(after, dl0.id)
    ensures SomeMarks(s, dl0.notificationId) ==> SomeMarks(after, dl0.notificationId)
    ensures SomeDelivers(s, dl0.notificationId) ==> SomeDelivers(after, dl0.notificationId)
  {
    hide Stage, Marks, Delivers;
    if SomeResends(s, dl0.id) {
      var g :| g in s.handlers && Stage(s.handlers[g], dl0.id) == 1;
      assert g in after.handlers && Stage(after.handlers[g], dl0.id) == 1;
    }
    if SomeMarks(s, dl0.notificationId) {
      var g :| g in s.handlers && Marks(s.handlers[g], dl0.notificationId);
      assert g in after.handlers && Marks(after.handlers[g], dl0.notificationId);
    }
    if SomeDelivers(s, dl0.notificationId) {
      var g :| g in s.handlers && Delivers(s.handlers[g], dl0.notificationId);
      assert g in after.handlers && Delivers(after.handlers[g], dl0.notificationId);
    }
  }

  lemma QuietStep(cfg: Config, s: State, h: Id, env: CallEnv, dl0: DeadLetter, b: Base)
    requires Replaying(s, dl0, b) && h in s.handlers
    requires var hd := s.handlers[h];
      var call := CallOf(cfg, hd, env);
      var next := Next(cfg, s.db, hd, Succeeds(s.db, call, env.outcome));
      && Spares(s.db, call, dl0) && SamePart(hd, next, dl0)
      && ReplayOk(next, dl0, Started(s.db.jobs, dl0.notificationId), dl0.id in s.db.letters)
    ensures Replaying(Acted(cfg, s, h, env), dl0, b)
  {
    var id := dl0.notificationId;
    var hd := s.handlers[h];
    var call := CallOf(cfg, hd, env);
    var after := Acted(cfg, s, h, env);
    var more := EffectsOf(s.db, hd, call, env.outcome);
    ActKeeps(cfg, s, h, env);
    SparingCall(s, hd, call, env.outcome, dl0);
    hide Fine.Inv, CallOf, Next, Succeeds, EffectsOf, DbAfter;
    hide QueueAfter, Spares, SamePart, ReplayOk, LettersOk, Awaits,
      SomeResends, SomeMarks, SomeDelivers, AtLeast, Times, HandlersOk;
    TimesAppend(s.history, more, ResetOf(id));
    TimesAppend(s.history, more, PublishOf(id));
    TimesAppend(s.history, more, BurialOf(id));
    SamePartStays(s, after, h, dl0);
    AllStayOk(s, after, h, dl0);
  }

  // ----- the five steps that do -----

  // One replay moves one stage up.
  lemma StageUp(s: State, after: State, h: Id, letterId: Id, n: nat)
    requires h in s.handlers && h in after.handlers && after.handlers == s.handlers[h := after.handlers[h]]
    requires n >= 1 && Stage(s.handlers[h], letterId) == n - 1 && Stage(after.handlers[h], letterId) == n
    ensures AtLeast(after, letterId, n) == AtLeast(s, letterId, n) + {h} && h !in AtLeast(s, letterId, n)
    ensures forall m: nat :: m != n ==> AtLeast(after, letterId, m) == AtLeast(s, letterId, m)
  {
    hide Stage;
  }

  lemma WorkersStay(s: State, after: State, h: Id, id: Id)
    requires h in s.handlers && after.handlers.Keys == s.handlers.Keys
    requires after.handlers == s.handlers[h := after.handlers[h]]
    requires s.handlers[h].Replayer?
    ensures SomeMarks(s, id) ==> SomeMarks(after, id)
    ensures SomeDelivers(s, id) ==> SomeDelivers(after, id)
  {
    if SomeMarks(s, id) {
      var g :| g in s.handlers && Marks(s.handlers[g], id);
      assert g in after.handlers && Marks(after.handlers[g], id);
    }
    if SomeDelivers(s, id) {
      var g :| g in s.handlers && Delivers(s.handlers[g], id);
      assert g in after.handlers && Delivers(after.handlers[g], id);
    }
  }

  lemma OthersStayOk(hd: Handler, dl0: DeadLetter, s0: bool, s1: bool, h0: bool, h1: bool)
    requires ReplayOk(hd, dl0, s0, h0) && (s0 ==> s1) && (h1 ==> h0)
    ensures ReplayOk(hd, dl0, s1, h1)
  {
  }

  lemma AllStayOk(s: State, after: State, h: Id, dl0: DeadLetter)
    requires dl0.notificationId in s.db.jobs && dl0.notificationId in after.db.jobs
    requires HandlersOk(s, dl0) && h in s.handlers && h in after.handlers
    requires after.handlers == s.handlers[h := after.handlers[h]]
    requires Started(s.db.jobs, dl0.notificationId) ==> Started(after.db.jobs, dl0.notificationId)
    requires dl0.id in after.db.letters ==> dl0.id in s.db.letters
    requires ReplayOk(after.handlers[h], dl0, Started(after.db.jobs, dl0.notificationId), dl0.id in after.db.letters)
    ensures HandlersOk(after, dl0)
  {
    hide ReplayOk;
    forall g | g in after.handlers
      ensures ReplayOk(after.handlers[g], dl0, Started(after.db.jobs, dl0.notificationId), dl0.id in after.db.letters)
    {
      if g != h {
        OthersStayOk(s.handlers[g], dl0, Started(s.db.jobs, dl0.notificationId),
                     Started(after.db.jobs, dl0.notificationId),
                     dl0.id in s.db.letters, dl0.id in after.db.letters);
      }
    }
  }

  // What the calls of a replay of the letter do, at the three points that
  // matter.
  lemma ReplayActs(cfg: Config, s: State, h: Id, env: CallEnv, dl0: DeadLetter)
    requires h in s.handlers && env.outcome.Clean? && ResetAccepted(s.db, ReplayJob(dl0))
    requires s.handlers[h].Replayer?
    ensures var hd, after := s.handlers[h], Acted(cfg, s, h, env);
      && (hd.replay == Restart(dl0) ==>
            after == State(ResetForReplay(s.db, ReplayJob(dl0)), s.queue,
                           s.handlers[h := hd.(replay := Reenqueue(dl0))], s.history + [ResetOf(dl0.notificationId)]))
      && (hd.replay == Reenqueue(dl0) ==>
            after == State(s.db, s.queue + multiset{ReplayJob(dl0)},
                           s.handlers[h := hd.(replay := Discard(dl0))], s.history + [PublishOf(dl0.notificationId)]))
      && (hd.replay == Discard(dl0) ==>
            after == State(DeleteLetters(s.db, dl0.notificationId), s.queue,
                           s.handlers[h := hd.(replay := CountReplayed(dl0))], s.history))
  {
    hide ResetForReplay, DeleteLetters, ResetAccepted;
    assert s.history + [] == s.history;
  }

  lemma ResetIsAccepted(s: State, dl0: DeadLetter)
    requires Fine.Inv(s) && RowOk(s.db.jobs, dl0)
    ensures ResetAccepted(s.db, ReplayJob(dl0))
  {
  }

  lemma RowIsThere(jobs: map<Id, Job>, dl0: DeadLetter)
    requires RowOk(jobs, dl0)
    ensures dl0.notificationId in jobs
  {
  }

  lemma WorkersHaveNoStage(s: State, after: State, h: Id, letterId: Id)
    requires h in s.handlers && h in after.handlers && after.handlers == s.handlers[h := after.handlers[h]]
    requires s.handlers[h].Worker? && after.handlers[h].Worker?
    ensures forall n: nat :: n >= 1 ==> AtLeast(after, letterId, n) == AtLeast(s, letterId, n)
  {
  }

  lemma ResetRow(db: Tables, dl0: DeadLetter)
    requires RowOk(db.jobs, dl0) && ResetAccepted(db, ReplayJob(dl0))
    ensures var after := ResetForReplay(db, ReplayJob(dl0));
      && dl0.notificationId in db.jobs && dl0.notificationId in after.jobs
      && RowOk(after.jobs, dl0) && after.jobs[dl0.notificationId].status.PENDING? && after.letters == db.letters
  {
  }

  lemma WrittenRow(db: Tables, dl0: DeadLetter, status: Status)
    requires RowOk(db.jobs, dl0) && Started(db.jobs, dl0.notificationId)
    requires status.DISPATCHED? || status.DELIVERED?
    ensures var after := SetStatus(db, dl0.notificationId, status);
      && dl0.notificationId in db.jobs && dl0.notificationId in after.jobs
      && RowOk(after.jobs, dl0) && after.jobs[dl0.notificationId].status == status && after.letters == db.letters
  {
  }

  lemma RestartStep(cfg: Config, s: State, h: Id, env: CallEnv, dl0: DeadLetter, b: Base)
    requires Replaying(s, dl0, b) && h in s.handlers && env.outcome.Clean?
    requires s.handlers[h] == Replayer(dl0.serviceId, dl0.id, Restart(dl0))
    ensures Replaying(Acted(cfg, s, h, env), dl0, b)
  {
    hide Fine.Inv, Acted, HandlersOk, AtLeast, Times, Awaits, SomeMarks, SomeDelivers, ResetForReplay, RowOk, LettersOk;
    var id := dl0.notificationId;
    var after := Acted(cfg, s, h, env);
    ActKeeps(cfg, s, h, env);
    ResetIsAccepted(s, dl0);
    ReplayActs(cfg, s, h, env, dl0);
    ResetRow(s.db, dl0);
    assert Stage(after.handlers[h], dl0.id) == 1;
    StageUp(s, after, h, dl0.id, 1);
    AllStayOk(s, after, h, dl0);
    TimesAppend(s.history, [ResetOf(id)], ResetOf(id));
    TimesAppend(s.history, [ResetOf(id)], PublishOf(id));
    TimesAppend(s.history, [ResetOf(id)], BurialOf(id));
    assert SomeResends(after, dl0.id) by {
      assert Stage(after.handlers[h], dl0.id) == 1;
    }
  }

  lemma ReenqueueStep(cfg: Config, s: State, h: Id, env: CallEnv, dl0: DeadLetter, b: Base)
    requires Replaying(s, dl0, b) && h in s.handlers && env.outcome.Clean?
    requires s.handlers[h] == Replayer(dl0.serviceId, dl0.id, Reenqueue(dl0))
    ensures Replaying(Acted(cfg, s, h, env), dl0, b)
  {
    hide Fine.Inv, Acted, AtLeast, Times, SomeMarks, SomeDelivers, SomeResends, LettersOk;
    var id := dl0.notificationId;
    var after := Acted(cfg, s, h, env);
    ActKeeps(cfg, s, h, env);
    ResetIsAccepted(s, dl0);
    ReplayActs(cfg, s, h, env, dl0);
    assert ReplayOk(s.handlers[h], dl0, Started(s.db.jobs, id), dl0.id in s.db.letters);
    assert Awaits(after.queue, id) by {
      assert ReplayJob(dl0) in after.queue;
    }
    StageUp(s, after, h, dl0.id, 2);
    WorkersStay(s, after, h, id);
    AllStayOk(s, after, h, dl0);
    TimesAppend(s.history, [PublishOf(id)], ResetOf(id));
    TimesAppend(s.history, [PublishOf(id)], PublishOf(id));
    TimesAppend(s.history, [PublishOf(id)], BurialOf(id));
  }

  lemma DiscardStep(cfg: Config, s: State, h: Id, env: CallEnv, dl0: DeadLetter, b: Base)
    requires Replaying(s, dl0, b) && h in s.handlers && env.outcome.Clean?
    requires s.handlers[h] == Replayer(dl0.serviceId, dl0.id, Discard(dl0))
    ensures Replaying(Acted(cfg, s, h, env), dl0, b)
  {
    hide Fine.Inv, Acted, AtLeast, Times, Awaits, SomeMarks, SomeDelivers;
    var id := dl0.notificationId;
    var after := Acted(cfg, s, h, env);
    ActKeeps(cfg, s, h, env);
    ResetIsAccepted(s, dl0);
    ReplayActs(cfg, s, h, env, dl0);
    assert ReplayOk(s.handlers[h], dl0, Started(s.db.jobs, id), dl0.id in s.db.letters);
    assert dl0.id !in after.db.letters && LettersOk(after.db.letters, dl0);
    assert SomeResends(s, dl0.id) ==> SomeResends(after, dl0.id) by {
      if SomeResends(s, dl0.id) {
        var g :| g in s.handlers && Stage(s.handlers[g], dl0.id) == 1;
        assert g in after.handlers && Stage(after.handlers[g], dl0.id) == 1;
      }
    }
    StageUp(s, after, h, dl0.id, 3);
    WorkersStay(s, after, h, id);
    AllStayOk(s, after, h, dl0);
  }

  lemma WorkerActs(cfg: Config, s: State, h: Id, env: CallEnv)
    requires h in s.handlers && env.outcome.Clean? && s.handlers[h].Worker?
    ensures var hd, after := s.handlers[h], Acted(cfg, s, h, env);
      && (hd.worker.MarkDispatched? ==>
            after == State(SetStatus(s.db, hd.message.requestId, DISPATCHED), s.queue,
                           s.handlers[h := hd.(worker := CountDispatched)], s.history))
      && (hd.worker.Asleep? ==>
            after == State(SetStatus(s.db, hd.message.requestId, DELIVERED), s.queue,
                           s.handlers[h := hd.(worker := CountDelivered)], s.history))
  {
    hide SetStatus;
    assert s.history + [] == s.history;
  }

  // The worker's two status writes.
  lemma WorkerWrites(cfg: Config, s: State, h: Id, env: CallEnv, dl0: DeadLetter, b: Base)
    requires Replaying(s, dl0, b) && h in s.handlers && env.outcome.Clean?
    requires s.handlers[h].Worker? && s.handlers[h].message.requestId == dl0.notificationId
    requires s.handlers[h].worker.MarkDispatched? || s.handlers[h].worker.Asleep?
    ensures Replaying(Acted(cfg, s, h, env), dl0, b)
  {
    hide Fine.Inv, Acted, AtLeast, Times, Awaits, SomeMarks, SomeResends, LettersOk, SetStatus, RowOk;
    var id := dl0.notificationId;
    var after := Acted(cfg, s, h, env);
    ActKeeps(cfg, s, h, env);
    WorkerActs(cfg, s, h, env);
    RowIsThere(s.db.jobs, dl0);
    assert ReplayOk(s.handlers[h], dl0, Started(s.db.jobs, id), dl0.id in s.db.letters);
    WorkersHaveNoStage(s, after, h, dl0.id);
    if s.handlers[h].worker.MarkDispatched? {
      assert SomeDelivers(after, id) by {
        assert Delivers(after.handlers[h], id);
      }
    }
    WrittenRow(s.db, dl0, if s.handlers[h].worker.MarkDispatched? then DISPATCHED else DELIVERED);
    AllStayOk(s, after, h, dl0);
  }

  // ----- every step -----

  // No call of a handler is cut, the job is not failed, and no new letter takes
  // the replayed letter's ID.
  predicate SmoothAction(a: Action, dl0: DeadLetter) {
    match a
    case Act(_, env) => env.outcome.Clean? && env.letterId != dl0.id
    case FailAction(id, _, _) => id != dl0.notificationId
    case _ => true
  }

  lemma PassesAreQuiet(cfg: Config, s: State, hd: Handler, env: CallEnv, dl0: DeadLetter, started: bool, here: bool)
    requires hd.Pass? && ReplayOk(hd, dl0, started, here) && env.letterId != dl0.id
    ensures var call := CallOf(cfg, hd, env);
      var next := Next(cfg, s.db, hd, Succeeds(s.db, call, env.outcome));
      Spares(s.db, call, dl0) && SamePart(hd, next, dl0) && ReplayOk(next, dl0, started, here)
  {
    if hd.i < |hd.batch| {
      assert hd.batch[hd.i] in hd.batch;
    }
  }

  lemma SendersAreQuiet(cfg: Config, s: State, hd: Handler, env: CallEnv, dl0: DeadLetter, started: bool, here: bool)
    requires hd.Sender? && ReplayOk(hd, dl0, started, here) && dl0.notificationId in s.db.jobs
    ensures var call := CallOf(cfg, hd, env);
      var next := Next(cfg, s.db, hd, Succeeds(s.db, call, env.outcome));
      Spares(s.db, call, dl0) && SamePart(hd, next, dl0) && ReplayOk(next, dl0, started, here)
  {
  }

  lemma WorkersAreQuiet(cfg: Config, s: State, hd: Handler, env: CallEnv, dl0: DeadLetter, started: bool, here: bool)
    requires hd.Worker? && ReplayOk(hd, dl0, started, here)
    requires hd.message.requestId == dl0.notificationId ==> !hd.worker.MarkDispatched? && !hd.worker.Asleep?
    ensures var call := CallOf(cfg, hd, env);
      var next := Next(cfg, s.db, hd, Succeeds(s.db, call, env.outcome));
      Spares(s.db, call, dl0) && SamePart(hd, next, dl0) && ReplayOk(next, dl0, started, here)
  {
  }

  // A replay of another letter, or of this one while it only looks up, counts
  // or has ended.
  lemma ReplayersAreQuiet(cfg: Config, s: State, hd: Handler, env: CallEnv, dl0: DeadLetter, started: bool)
    requires hd.Replayer? && ReplayOk(hd, dl0, started, dl0.id in s.db.letters) && env.outcome.Clean?
    requires LettersOk(s.db.letters, dl0) && dl0.payload.Json?
    requires hd.letterId == dl0.id ==> hd.replay.Lookup? || hd.replay.CountReplayed? || hd.replay.Ended?
    ensures var call := CallOf(cfg, hd, env);
      var next := Next(cfg, s.db, hd, Succeeds(s.db, call, env.outcome));
      Spares(s.db, call, dl0) && SamePart(hd, next, dl0) && ReplayOk(next, dl0, started, dl0.id in s.db.letters)
  {
  }

  lemma PayloadIsJson(s: State, dl0: DeadLetter)
    requires Fine.Inv(s) && RowOk(s.db.jobs, dl0)
    ensures dl0.payload.Json?
  {
  }

  lemma ActReplays(cfg: Config, s: State, h: Id, env: CallEnv, dl0: DeadLetter, b: Base)
    requires Replaying(s, dl0, b) && h in s.handlers && env.outcome.Clean? && env.letterId != dl0.id
    ensures Replaying(Acted(cfg, s, h, env), dl0, b)
  {
    hide Fine.Inv, LettersOk, AtLeast, OnTheWay, CountsOk, Acted, CallOf, Next, Succeeds, Spares, SamePart;
    var hd := s.handlers[h];
    var started, here := Started(s.db.jobs, dl0.notificationId), dl0.id in s.db.letters;
    assert ReplayOk(hd, dl0, started, here);
    PayloadIsJson(s, dl0);
    match hd
    case Pass(_, _, _) =>
      PassesAreQuiet(cfg, s, hd, env, dl0, started, here);
      QuietStep(cfg, s, h, env, dl0, b);
    case Sender(_, _, _, _) =>
      SendersAreQuiet(cfg, s, hd, env, dl0, started, here);
      QuietStep(cfg, s, h, env, dl0, b);
    case Worker(message, worker) =>
      if message.requestId == dl0.notificationId && (worker.MarkDispatched? || worker.Asleep?) {
        WorkerWrites(cfg, s, h, env, dl0, b);
      } else {
        WorkersAreQuiet(cfg, s, hd, env, dl0, started, here);
        QuietStep(cfg, s, h, env, dl0, b);
      }
    case Replayer(_, letterId, replay) =>
      if letterId == dl0.id && replay.Restart? {
        RestartStep(cfg, s, h, env, dl0, b);
      } else if letterId == dl0.id && replay.Reenqueue? {
        ReenqueueStep(cfg, s, h, env, dl0, b);
      } else if letterId == dl0.id && replay.Discard? {
        DiscardStep(cfg, s, h, env, dl0, b);
      } else {
        ReplayersAreQuiet(cfg, s, hd, env, dl0, started);
        QuietStep(cfg, s, h, env, dl0, b);
      }
  }

  // A handler that has just begun has no part yet.
  lemma BeginnerReplays(s: State, h: Id, hd: Handler, dl0: DeadLetter, b: Base)
    requires Replaying(s, dl0, b) && h !in s.handlers && Fine.Inv(s.(handlers := s.handlers[h := hd]))
    requires Stage(hd, dl0.id) == 0
    requires ReplayOk(hd, dl0, Started(s.db.jobs, dl0.notificationId), dl0.id in s.db.letters)
    ensures Replaying(s.(handlers := s.handlers[h := hd]), dl0, b)
  {
    var after := s.(handlers := s.handlers[h := hd]);
    assert forall n: nat :: n >= 1 ==> AtLeast(after, dl0.id, n) == AtLeast(s, dl0.id, n);
    OldHandlersStay(s, after, h, dl0);
    hide Fine.Inv, LettersOk, AtLeast, ReplayOk, Stage, SomeResends, SomeMarks, SomeDelivers, Awaits, RowOk;
  }

  lemma OldHandlersStay(s: State, after: State, h: Id, dl0: DeadLetter)
    requires h !in s.handlers && h in after.handlers && after.handlers == s.handlers[h := after.handlers[h]]
    ensures SomeResends(s, dl0.id) ==> SomeResends(after, dl0.id)
    ensures SomeMarks(s, dl0.notificationId) ==> SomeMarks(after, dl0.notificationId)
    ensures SomeDelivers(s, dl0.notificationId) ==> SomeDelivers(after, dl0.notificationId)
  {
    hide Stage, Marks, Delivers;
    if SomeResends(s, dl0.id) {
      var g :| g in s.handlers && Stage(s.handlers[g], dl0.id) == 1;
      assert g in after.handlers && Stage(after.handlers[g], dl0.id) == 1;
    }
    if SomeMarks(s, dl0.notificationId) {
      var g :| g in s.handlers && Marks(s.handlers[g], dl0.notificationId);
      assert g in after.handlers && Marks(after.handlers[g], dl0.notificationId);
    }
    if SomeDelivers(s, dl0.notificationId) {
      var g :| g in s.handlers && Delivers(s.handlers[g], dl0.notificationId);
      assert g in after.handlers && Delivers(after.handlers[g], dl0.notificationId);
    }
  }

  lemma PollReplays(s: State, h: Id, batch: seq<Job>, now: Time, dl0: DeadLetter, b: Base)
    requires Replaying(s, dl0, b) && h !in s.handlers && IsTop(DueJobs(s.db, now), RetryTime, 50, batch)
    ensures Replaying(s.(handlers := s.handlers[h := Pass(batch, 0, Top)]), dl0, b)
  {
    KeyedFromIntegrity(s.db);
    PolledRowsKnown(s.db, batch, now);
    forall k | 0 <= k < |batch| ensures batch[k].requestId != dl0.notificationId {
      assert batch[k] in DueJobs(s.db, now);
    }
    hide Fine.Inv, IsTop, DueJobs, LettersOk, OnTheWay, CountsOk, HandlersOk, AtLeast, Integrity;
    NewHandlerKeeps(s, h, Pass(batch, 0, Top));
    BeginnerReplays(s, h, Pass(batch, 0, Top), dl0, b);
  }

  // The message leaves the queue and its worker enters, in one step.
  lemma ReceiveReplays(s: State, h: Id, message: Job, dl0: DeadLetter, b: Base)
    requires Replaying(s, dl0, b) && h !in s.handlers && message in s.queue
    ensures Replaying(s.(queue := s.queue - multiset{message},
                         handlers := s.handlers[h := Worker(message, MarkDispatched)]),
                      dl0, b)
  {
    hide Fine.Inv, LettersOk, RowOk, SomeDelivers, SomeResends, Times;
    var id := dl0.notificationId;
    var hd := Worker(message, MarkDispatched);
    var after := s.(queue := s.queue - multiset{message}, handlers := s.handlers[h := hd]);
    QueuedIsKnown(s, message);
    NewHandlerKeeps(s.(queue := s.queue - multiset{message}), h, hd);
    RowIsThere(s.db.jobs, dl0);
    assert forall n: nat :: n >= 1 ==> AtLeast(after, dl0.id, n) == AtLeast(s, dl0.id, n);
    OldHandlersStay(s, after, h, dl0);
    OthersStillAwait(s.queue, message, id);
    if message.requestId == id {
      assert Awaits(s.queue, id);
      assert SomeMarks(after, id) by {
        assert Marks(after.handlers[h], id);
      }
    }
    assert Awaits(after.queue, id) ==> Awaits(s.queue, id) by {
      assert forall m :: m in after.queue ==> m in s.queue;
    }
    hide Awaits, AtLeast, SomeMarks;
  }

  lemma FailReplays(s: State, id: Id, at: Time, dl0: DeadLetter, b: Base)
    requires Replaying(s, dl0, b) && id != dl0.notificationId
    ensures Replaying(s.(db := FailJob(s.db, id, at)), dl0, b)
  {
    hide Fine.Inv, LettersOk, AtLeast, Awaits, SomeMarks, SomeDelivers, SomeResends, Times, ReplayOk;
    FailKeepsInv(s, id, at);
    var after := s.(db := FailJob(s.db, id, at));
    assert after.db.letters == s.db.letters;
    assert forall n: nat :: AtLeast(after, dl0.id, n) == AtLeast(s, dl0.id, n) by {
      SameHandlersSameParts(s, after, dl0);
    }
    SameHandlersSameParts(s, after, dl0);
  }

  lemma SameHandlersSameParts(s: State, after: State, dl0: DeadLetter)
    requires after.handlers == s.handlers
    ensures forall n: nat :: AtLeast(after, dl0.id, n) == AtLeast(s, dl0.id, n)
    ensures SomeResends(s, dl0.id) ==> SomeResends(after, dl0.id)
    ensures SomeMarks(s, dl0.notificationId) ==> SomeMarks(after, dl0.notificationId)
    ensures SomeDelivers(s, dl0.notificationId) ==> SomeDelivers(after, dl0.notificationId)
  {
  }

  lemma SmoothStepReplays(cfg: Config, s: State, a: Action, dl0: DeadLetter, b: Base)
    requires Replaying(s, dl0, b) && SmoothAction(a, dl0)
    ensures Replaying(Fine.Apply(cfg, s, a), dl0, b)
  {
    hide Replaying, Acted, IsTop, DueJobs, FailJob;
    match a
    case Act(h, env) =>
      if h in s.handlers {
        ActReplays(cfg, s, h, env, dl0, b);
      }
    case Poll(h, batch, now) =>
      if h !in s.handlers && IsTop(DueJobs(s.db, now), RetryTime, 50, batch) {
        PollReplays(s, h, batch, now, dl0, b);
      }
    case Receive(h, message) =>
      if h !in s.handlers && message in s.queue {
        ReceiveReplays(s, h, message, dl0, b);
      }
    case BeginReplay(h, caller, letterId) =>
      if h !in s.handlers && letterId != NO_ID {
        FreshBeginner(s, h, Replayer(caller, letterId, Lookup), dl0, b);
      }
    case BeginSend(h, serviceId, payload, requestId) =>
      if h !in s.handlers && serviceId != NO_ID {
        FreshBeginner(s, h, Sender(serviceId, payload, requestId, Create), dl0, b);
      }
    case FailAction(id, at, outcome) => FailReplays(s, id, at, dl0, b);
  }

  lemma FreshBeginner(s: State, h: Id, hd: Handler, dl0: DeadLetter, b: Base)
    requires Replaying(s, dl0, b) && h !in s.handlers
    requires (hd.Replayer? && hd.replay.Lookup?) || (hd.Sender? && hd.send.Create?)
    ensures Replaying(s.(handlers := s.handlers[h := hd]), dl0, b)
  {
    hide Fine.Inv, LettersOk, OnTheWay, CountsOk, HandlersOk, AtLeast;
    NewHandlerKeeps(s, h, hd);
    BeginnerReplays(s, h, hd, dl0, b);
  }

  lemma {:induction false} ReplaysOverRuns(cfg: Config, s: State, acts: seq<Action>, dl0: DeadLetter, b: Base)
    requires Replaying(s, dl0, b)
    requires forall a :: a in acts ==> SmoothAction(a, dl0)
    ensures Replaying(Fine.Run(cfg, s, acts), dl0, b)
    decreases |acts|
  {
    hide Replaying, Fine.Apply, SmoothAction;
    if acts != [] {
      assert acts[0] in acts;
      SmoothStepReplays(cfg, s, acts[0], dl0, b);
      ReplaysOverRuns(cfg, Fine.Apply(cfg, s, acts[0]), acts[1..], dl0, b);
    }
  }

  // ----- the theorem -----

  // The job is dead-lettered with its letter in place. Passes that held it are
  // past it, though the one that buried it may still be counting that, and
  // nobody holds a message or is in the middle of a replay of it; replays that
  // were cut short or refused may have gone before.
  ghost predicate AtRest(s: State, dl0: DeadLetter) {
    && Fine.Inv(s)
    && dl0.id in s.db.letters && s.db.letters[dl0.id] == dl0
    && s.db.jobs[dl0.notificationId].status.DEAD_LETTERED?
    && !Awaits(s.queue, dl0.notificationId)
    && (forall h :: h in s.handlers ==>
          match s.handlers[h]
          case Pass(_, _, _) => Behind(s.handlers[h], dl0.notificationId)
          case Worker(message, worker) =>
            message.requestId == dl0.notificationId ==> worker.Gone? || worker.CountDelivered?
          case Sender(_, _, requestId, send) => requestId == dl0.notificationId ==> send.Create? || send.Answered?
          case Replayer(_, letterId, replay) =>
            replay.Lookup?
            || (if letterId == dl0.id then replay.Ended? && !replay.code.OK? && !replay.code.NotFound?
                else replay.Ended? || replay.dl.notificationId != dl0.notificationId))
  }

  // Every handler with a part in the job has come to its end.
  ghost predicate Quiescent(s: State, dl0: DeadLetter) {
    && !Awaits(s.queue, dl0.notificationId)
    && (forall h :: h in s.handlers ==>
          match s.handlers[h]
          case Worker(message, worker) =>
            message.requestId == dl0.notificationId ==> worker.Gone? || worker.CountDelivered?
          case Replayer(_, letterId, replay) => letterId == dl0.id ==> replay.Ended?
          case _ => true)
  }

  predicate IsOwnReplay(hd: Handler, dl0: DeadLetter) {
    hd.Replayer? && hd.letterId == dl0.id && hd.caller == dl0.serviceId
  }

  // The replays of the letter by its owner that had not ended at the start, and
  // those that answered success.
  ghost function OwnReplays(start: State, s: State, dl0: DeadLetter): set<Id> {
    set h | h in s.handlers && IsOwnReplay(s.handlers[h], dl0)
            && !(h in start.handlers && IsOwnReplay(start.handlers[h], dl0) && start.handlers[h].replay.Ended?)
  }

  ghost function Successes(s: State, dl0: DeadLetter): set<Id> {
    set h | h in s.handlers && s.handlers[h].Replayer? && s.handlers[h].letterId == dl0.id
            && s.handlers[h].replay == Ended(OK)
  }

  lemma RestIsReplaying(s: State, dl0: DeadLetter)
    requires AtRest(s, dl0)
    ensures Replaying(s, dl0, BaseOf(s, dl0.notificationId))
  {
    assert Known(s.db.jobs, ReplayJob(dl0));
    forall n: nat | n >= 1 ensures AtLeast(s, dl0.id, n) == {} {
    }
    hide Times, Fine.Inv;
  }

  // Every replay of the letter has ended.
  ghost predicate ReplaysOver(s: State, dl0: DeadLetter) {
    forall h :: h in s.handlers && s.handlers[h].Replayer? && s.handlers[h].letterId == dl0.id ==>
      s.handlers[h].replay.Ended?
  }

  // Then the stages coincide: whoever reset has also published, deleted and
  // answered success.
  lemma StagesCoincide(s: State, dl0: DeadLetter)
    requires ReplaysOver(s, dl0)
    ensures AtLeast(s, dl0.id, 1) == AtLeast(s, dl0.id, 2) == AtLeast(s, dl0.id, 3) == Successes(s, dl0)
    ensures !SomeResends(s, dl0.id)
  {
    forall h | h in s.handlers
      ensures Stage(s.handlers[h], dl0.id) >= 1 <==> h in Successes(s, dl0)
      ensures Stage(s.handlers[h], dl0.id) == 0 || Stage(s.handlers[h], dl0.id) == 3
    {
    }
    hide Stage, Successes;
  }

  lemma QuiescentIsOver(s: State, dl0: DeadLetter)
    requires Quiescent(s, dl0)
    ensures ReplaysOver(s, dl0) && !SomeMarks(s, dl0.notificationId) && !SomeDelivers(s, dl0.notificationId)
  {
  }

  // Not yet answered, or answered success or NotFound.
  predicate WellAnswered(hd: Handler, dl0: DeadLetter) {
    IsOwnReplay(hd, dl0) && hd.replay.Ended? ==> hd.replay.code.OK? || hd.replay.code.NotFound?
  }

  lemma AnswerNext(cfg: Config, db: Tables, hd: Handler, env: CallEnv, dl0: DeadLetter, started: bool)
    requires IsOwnReplay(hd, dl0) && WellAnswered(hd, dl0) && env.outcome.Clean?
    requires ReplayOk(hd, dl0, started, dl0.id in db.letters) && LettersOk(db.letters, dl0)
    requires dl0.payload.Json? && ResetAccepted(db, ReplayJob(dl0))
    ensures WellAnswered(Next(cfg, db, hd, Succeeds(db, CallOf(cfg, hd, env), env.outcome)), dl0)
  {
    hide ResetAccepted;
  }

  lemma OthersAnswerWell(cfg: Config, db: Tables, hd: Handler, ok: bool, dl0: DeadLetter)
    requires !IsOwnReplay(hd, dl0)
    ensures WellAnswered(Next(cfg, db, hd, ok), dl0)
  {
  }

  lemma AnswerStep(cfg: Config, s: State, a: Action, dl0: DeadLetter, b: Base, h: Id)
    requires Replaying(s, dl0, b) && SmoothAction(a, dl0)
    requires h in s.handlers ==> WellAnswered(s.handlers[h], dl0)
    ensures h in Fine.Apply(cfg, s, a).handlers ==> WellAnswered(Fine.Apply(cfg, s, a).handlers[h], dl0)
  {
    hide Fine.Inv, OnTheWay, CountsOk, CallOf, Succeeds, DbAfter, QueueAfter, EffectsOf, IsTop, DueJobs, FailJob, Next;
    hide ReplayOk, LettersOk;
    if a.Act? && a.h == h && h in s.handlers {
      var hd := s.handlers[h];
      hide WellAnswered;
      if IsOwnReplay(hd, dl0) {
        ResetIsAccepted(s, dl0);
        PayloadIsJson(s, dl0);
        assert ReplayOk(hd, dl0, Started(s.db.jobs, dl0.notificationId), dl0.id in s.db.letters);
        AnswerNext(cfg, s.db, hd, a.env, dl0, Started(s.db.jobs, dl0.notificationId));
      } else {
        OthersAnswerWell(cfg, s.db, hd, Succeeds(s.db, CallOf(cfg, hd, a.env), a.env.outcome), dl0);
      }
    }
  }

  // No owner's replay is answered with anything else.
  lemma {:induction false} AnswersOverRuns(cfg: Config, s: State, acts: seq<Action>, dl0: DeadLetter, b: Base, h: Id)
    requires Replaying(s, dl0, b)
    requires forall a :: a in acts ==> SmoothAction(a, dl0)
    requires h in s.handlers ==> WellAnswered(s.handlers[h], dl0)
    ensures h in Fine.Run(cfg, s, acts).handlers ==> WellAnswered(Fine.Run(cfg, s, acts).handlers[h], dl0)
    decreases |acts|
  {
    hide Replaying, Fine.Apply, SmoothAction, WellAnswered;
    if acts != [] {
      assert acts[0] in acts;
      AnswerStep(cfg, s, acts[0], dl0, b, h);
      SmoothStepReplays(cfg, s, acts[0], dl0, b);
      AnswersOverRuns(cfg, Fine.Apply(cfg, s, acts[0]), acts[1..], dl0, b, h);
    }
  }

  // A handler keeps its kind, its caller and its letter.
  lemma {:induction false} ReplayStaysItself(cfg: Config, s: State, acts: seq<Action>, h: Id)
    requires h in s.handlers
    ensures var end := Fine.Run(cfg, s, acts);
      && h in end.handlers && (end.handlers[h].Replayer? <==> s.handlers[h].Replayer?)
      && (s.handlers[h].Replayer? ==> end.handlers[h].caller == s.handlers[h].caller
                                      && end.handlers[h].letterId == s.handlers[h].letterId)
    decreases |acts|
  {
    if acts != [] {
      hide CallOf, Succeeds, DbAfter, QueueAfter, EffectsOf, IsTop, DueJobs, FailJob;
      ReplayStaysItself(cfg, Fine.Apply(cfg, s, acts[0]), acts[1..], h);
    }
  }

  // The first owner to look the letter up finds it: once all their replays have
  // ended, whether or not the messages have been taken off the queue, each was
  // answered success or NotFound, some one success, and each success reset and
  // published the job once.
  lemma SomeReplaySucceeds(cfg: Config, s: State, acts: seq<Action>, dl0: DeadLetter)
    requires AtRest(s, dl0)
    requires forall a :: a in acts ==> SmoothAction(a, dl0)
    requires ReplaysOver(Fine.Run(cfg, s, acts), dl0) && OwnReplays(s, Fine.Run(cfg, s, acts), dl0) != {}
    ensures var id, end := dl0.notificationId, Fine.Run(cfg, s, acts);
      && |Successes(end, dl0)| >= 1 && dl0.id !in end.db.letters
      && id in end.db.jobs && Started(end.db.jobs, id)
      && (forall h :: h in OwnReplays(s, end, dl0) ==>
            end.handlers[h].replay == Ended(OK) || end.handlers[h].replay == Ended(NotFound))
      && Times(end.history, ResetOf(id)) == Times(s.history, ResetOf(id)) + |Successes(end, dl0)|
      && Times(end.history, PublishOf(id)) == Times(s.history, PublishOf(id)) + |Successes(end, dl0)|
  {
    var b, end := BaseOf(s, dl0.notificationId), Fine.Run(cfg, s, acts);
    RestIsReplaying(s, dl0);
    ReplaysOverRuns(cfg, s, acts, dl0, b);
    forall h | h in OwnReplays(s, end, dl0)
      ensures end.handlers[h].replay == Ended(OK) || end.handlers[h].replay == Ended(NotFound)
    {
      if h in s.handlers {
        ReplayStaysItself(cfg, s, acts, h);
      }
      AnswersOverRuns(cfg, s, acts, dl0, b, h);
      hide Fine.Run, Replaying, AtRest;
    }
    hide Fine.Run, AtRest, SmoothAction, Times;
    var first :| first in OwnReplays(s, end, dl0);
    AnsweredMeansGone(end, dl0, b, first);
  }

  lemma AnsweredMeansGone(s: State, dl0: DeadLetter, b: Base, h: Id)
    requires Replaying(s, dl0, b) && ReplaysOver(s, dl0) && h in s.handlers && IsOwnReplay(s.handlers[h], dl0)
    requires s.handlers[h].replay == Ended(OK) || s.handlers[h].replay == Ended(NotFound)
    ensures |Successes(s, dl0)| >= 1 && dl0.id !in s.db.letters && Started(s.db.jobs, dl0.notificationId)
    ensures Times(s.history, ResetOf(dl0.notificationId)) == b.resets + |Successes(s, dl0)|
    ensures Times(s.history, PublishOf(dl0.notificationId)) == b.publishes + |Successes(s, dl0)|
  {
    hide Fine.Inv, OnTheWay, LettersOk, Times;
    var started := Started(s.db.jobs, dl0.notificationId);
    assert ReplayOk(s.handlers[h], dl0, started, dl0.id in s.db.letters);
    StagesCoincide(s, dl0);
    assert Successes(s, dl0) != {} ==> |Successes(s, dl0)| >= 1;
  }

  // N replays by the owner, any number of others, the worker and any scheduler
  // passes, interleaved call by call: once nothing is left to do the job is
  // DELIVERED with a fresh budget and no letter, it was not dead-lettered again,
  // every owner was answered success or NotFound, and successes, resets and
  // publishes agree and are at least one.
  lemma ConcurrentReplaysConverge(cfg: Config, s: State, acts: seq<Action>, dl0: DeadLetter)
    requires AtRest(s, dl0)
    requires forall a :: a in acts ==> SmoothAction(a, dl0)
    requires Quiescent(Fine.Run(cfg, s, acts), dl0) && OwnReplays(s, Fine.Run(cfg, s, acts), dl0) != {}
    ensures var id, end := dl0.notificationId, Fine.Run(cfg, s, acts);
      && id in s.db.jobs && id in end.db.jobs
      && end.db.jobs[id] == s.db.jobs[id].(status := DELIVERED, retryCount := 0, nextRetryAt := None)
      && !HasLetter(end.db, id)
      && Times(end.history, BurialOf(id)) == Times(s.history, BurialOf(id))
      && (forall h :: h in OwnReplays(s, end, dl0) ==>
            end.handlers[h].replay == Ended(OK) || end.handlers[h].replay == Ended(NotFound))
      && |Successes(end, dl0)| >= 1
      && Times(end.history, ResetOf(id)) == Times(s.history, ResetOf(id)) + |Successes(end, dl0)|
      && Times(end.history, PublishOf(id)) == Times(s.history, PublishOf(id)) + |Successes(end, dl0)|
  {
    var id := dl0.notificationId;
    var b := BaseOf(s, id);
    var end := Fine.Run(cfg, s, acts);
    RestIsReplaying(s, dl0);
    ReplaysOverRuns(cfg, s, acts, dl0, b);
    QuiescentIsOver(end, dl0);
    SomeReplaySucceeds(cfg, s, acts, dl0);
    StagesCoincide(end, dl0);
    RowsAgree(s, end, dl0, b);
    hide Fine.Run, Fine.Inv, HandlersOk, Quiescent, AtRest, Successes, OwnReplays, AtLeast, Times;
  }

  lemma RowsAgree(s: State, end: State, dl0: DeadLetter, b: Base)
    requires AtRest(s, dl0) && Replaying(end, dl0, b)
    ensures var id := dl0.notificationId;
      && id in s.db.jobs && id in end.db.jobs
      && s.db.jobs[id].requestId == end.db.jobs[id].requestId == id
      && s.db.jobs[id].serviceId == end.db.jobs[id].serviceId && s.db.jobs[id].payload == end.db.jobs[id].payload
  {
    assert Known(s.db.jobs, ReplayJob(dl0));
    hide OnTheWay, CountsOk, HandlersOk;
  }
}
