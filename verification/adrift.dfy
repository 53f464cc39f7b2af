// Exactly when a job is lost, over any fine run with any faults and overlaps.

module Adrift {
  import opened Domain
  import opened Schema
  import opened Query
  import opened Pipeline
  import opened Coarse
  import opened Fine
  import opened Strands
  import opened Apart

  // The handler holds a message of the job, or is about to publish one.
  predicate IsSource(p: Part) {
    p.Sending? || p.Carrying? || p.Resending?
  }

  ghost predicate SourceBut(v: Scene, h: Id) {
    exists g :: g in v.parts && g != h && IsSource(v.parts[g])
  }

  predicate Unsettled(row: Option<Status>) {
    row.Some? && !SettledRow(row)
  }

  // An unsettled job that no message, no letter and nobody with a message leads
  // to. A stale pass or a replay that looked the letter up may yet save it.
  ghost predicate Loose(v: Scene) {
    Unsettled(v.row) && !v.lettered && !v.awaited && forall g :: g in v.parts ==> !IsSource(v.parts[g])
  }

  // Once no handler has a call to make for it, that is to be lost.
  lemma LostIsLooseAtRest(s: State, id: Id)
    ensures Lost(s, id) <==> Loose(SceneOf(s, id)) && forall h :: h in s.handlers ==> !Busy(s.handlers[h], id)
  {
    var v := SceneOf(s, id);
    forall g | g in v.parts && IsSource(v.parts[g]) ensures Busy(s.handlers[g], id) {
    }
    hide Busy, HasLetter, Awaits;
  }

  // ----- the calls that lose the job, and those that save it -----

  // Nothing but the handler's own message is out.
  ghost predicate Alone(v: Scene, h: Id) {
    !v.awaited && !SourceBut(v, h)
  }

  // A status write of a pass with no letter and no message left; a replay cut
  // after its reset, or cut at its publish, with no letter left; a delete of the
  // letter when the job is unsettled again; and a cut of a worker's write or of
  // a send. Each when no other message is out.
  ghost predicate Loses(s: State, a: Action, id: Id) {
    && a.Act? && a.h in s.handlers
    && var v, outcome := SceneOf(s, id), a.env.outcome;
       Alone(v, a.h)
       && match s.handlers[a.h]
          case Pass(batch, i, pass) =>
            && i < |batch| && batch[i].requestId == id && (pass.WritePending? || pass.WriteDeadLettered?)
            && !outcome.LostCall? && !v.lettered
          case Replayer(_, _, replay) =>
            && !replay.Lookup? && !replay.Ended? && replay.dl.notificationId == id
            && (match replay
                case Restart(_) => outcome.LostReply? && !v.lettered
                case Reenqueue(_) => outcome.LostCall? && !v.lettered && Unsettled(v.row)
                case Discard(_) => !outcome.LostCall? && Unsettled(v.row)
                case _ => false)
          case Worker(message, worker) =>
            && message.requestId == id && !v.lettered
            && ((worker.MarkDispatched? && (outcome.LostReply? || (outcome.LostCall? && Unsettled(v.row))))
                || (worker.Asleep? && outcome.LostCall? && Unsettled(v.row)))
          case Sender(serviceId, payload, requestId, send) =>
            && requestId == id && !v.lettered
            && ((send.Create? && outcome.LostReply? && JobAccepted(s.db, NewJob(serviceId, payload, id)))
                || (send.Enqueue? && outcome.LostCall? && Unsettled(v.row)))
  }

  // A further failure, a stale pass that publishes or stores a letter, or a
  // replay that looked the letter up and resets.
  ghost predicate Saves(cfg: Config, s: State, a: Action, id: Id) {
    match a
    case FailAction(failed, _, outcome) => failed == id && !outcome.LostCall? && FailAccepted(s.db, id)
    case Act(h, env) =>
      && h in s.handlers
      && (match s.handlers[h]
          case Pass(batch, i, pass) =>
            && i < |batch| && batch[i].requestId == id && pass.Top? && !env.outcome.LostCall?
            && (ShouldRetry(cfg, batch[i].retryCount)
                || LetterAccepted(s.db, LetterFor(batch[i], env.letterId, env.now)))
          case Replayer(_, _, replay) => replay.Restart? && replay.dl.notificationId == id && env.outcome.Clean?
          case _ => false)
    case _ => false
  }

  // The step does as the two predicates say.
  ghost predicate Exact(cfg: Config, s: State, a: Action, id: Id) {
    Loose(SceneOf(Fine.Apply(cfg, s, a), id)) <==> (Loose(SceneOf(s, id)) && !Saves(cfg, s, a, id)) || Loses(s, a, id)
  }

  // ----- one call -----

  lemma LooseBy(v: Scene, h: Id)
    requires h in v.parts
    ensures Loose(v) <==> Unsettled(v.row) && !v.lettered && !IsSource(v.parts[h]) && Alone(v, h)
  {
  }

  lemma LooseAfter(v: Scene, w: Scene, h: Id)
    requires Moved(v, w, h)
    ensures Loose(w) <==> Unsettled(w.row) && !w.lettered && !w.awaited && !IsSource(w.parts[h]) && !SourceBut(v, h)
  {
    assert SourceBut(w, h) <==> SourceBut(v, h) by {
      assert forall g :: g != h ==> (g in w.parts <==> g in v.parts) && (g in v.parts ==> w.parts[g] == v.parts[g]);
    }
    LooseBy(w, h);
  }

  // A call that neither concerns the job nor changes the handler's part.
  lemma QuietIsExact(cfg: Config, s: State, h: Id, env: CallEnv, id: Id)
    requires h in s.handlers && !Saves(cfg, s, Act(h, env), id) && !Loses(s, Act(h, env), id)
    requires var call := CallOf(cfg, s.handlers[h], env);
      && !Concerns(call, id)
      && IsSource(PartOf(Next(cfg, s.db, s.handlers[h], Succeeds(s.db, call, env.outcome)), id))
         == IsSource(PartOf(s.handlers[h], id))
    ensures Exact(cfg, s, Act(h, env), id)
  {
    hide CallOf, Next, Succeeds, DbAfter, QueueAfter, EffectsOf;
    hide PartOf, HasLetter, Awaits, Acted, Concerns, Saves, Loses;
    hide SceneOf, Loose, IsSource, SourceBut;
    var v, w := SceneOf(s, id), SceneOf(Acted(cfg, s, h, env), id);
    PartsMove(cfg, s, h, env, id);
    SparedScene(s.db, s.queue, CallOf(cfg, s.handlers[h], env), env.outcome, id);
    LooseBy(v, h);
    LooseAfter(v, w, h);
  }

  // The two scenes, in terms of the handler's call.
  lemma CallReads(cfg: Config, s: State, h: Id, env: CallEnv, id: Id)
    requires h in s.handlers
    ensures var hd, v, w := s.handlers[h], SceneOf(s, id), SceneOf(Acted(cfg, s, h, env), id);
      var call := CallOf(cfg, hd, env);
      && v.row == RowIn(s.db, id) && (v.lettered <==> HasLetter(s.db, id)) && (v.awaited <==> Awaits(s.queue, id))
      && (Loose(v) <==> Unsettled(v.row) && !v.lettered && !IsSource(PartOf(hd, id)) && Alone(v, h))
      && (Loose(w) <==>
            && Unsettled(RowIn(DbAfter(s.db, call, env.outcome), id))
            && !HasLetter(DbAfter(s.db, call, env.outcome), id)
            && !Awaits(QueueAfter(s.queue, call, env.outcome), id)
            && !IsSource(PartOf(Next(cfg, s.db, hd, Succeeds(s.db, call, env.outcome)), id))
            && !SourceBut(v, h))
  {
    hide CallOf, Next, Succeeds, DbAfter, QueueAfter, PartOf, HasLetter, Awaits, Acted, SceneOf, Loose, SourceBut;
    PartsMove(cfg, s, h, env, id);
    LooseBy(SceneOf(s, id), h);
    LooseAfter(SceneOf(s, id), SceneOf(Acted(cfg, s, h, env), id), h);
  }

  lemma PublishIsExact(cfg: Config, s: State, h: Id, env: CallEnv, id: Id)
    requires Fine.Inv(s) && cfg.dlq && h in s.handlers
    requires s.handlers[h].Pass? && s.handlers[h].i < |s.handlers[h].batch|
    requires s.handlers[h].batch[s.handlers[h].i].requestId == id && s.handlers[h].pass.Top?
    requires ShouldRetry(cfg, s.handlers[h].batch[s.handlers[h].i].retryCount)
    ensures Exact(cfg, s, Act(h, env), id)
  {
    hide Fine.Inv, HasLetter, Awaits, DbAfter, QueueAfter, CallOf;
    hide Next, Succeeds, PartOf, SceneOf, Loose, SourceBut, LetterAccepted;
    var hd := s.handlers[h];
    CarriedRowIsThere(s, h, hd.batch[hd.i]);
    RowsKeyed(s);
    CallReads(cfg, s, h, env, id);
    hide Acted;
    PassValues(cfg, s.db, hd, env);
    OwnScene(s.db, s.queue, CallOf(cfg, hd, env), env.outcome, id);
  }

  lemma StoreIsExact(cfg: Config, s: State, h: Id, env: CallEnv, id: Id)
    requires Fine.Inv(s) && cfg.dlq && h in s.handlers
    requires s.handlers[h].Pass? && s.handlers[h].i < |s.handlers[h].batch|
    requires s.handlers[h].batch[s.handlers[h].i].requestId == id && s.handlers[h].pass.Top?
    requires !ShouldRetry(cfg, s.handlers[h].batch[s.handlers[h].i].retryCount)
    ensures Exact(cfg, s, Act(h, env), id)
  {
    hide Fine.Inv, HasLetter, Awaits, DbAfter, QueueAfter, CallOf;
    hide Next, Succeeds, PartOf, SceneOf, Loose, SourceBut, LetterAccepted;
    var hd := s.handlers[h];
    CarriedRowIsThere(s, h, hd.batch[hd.i]);
    RowsKeyed(s);
    CallReads(cfg, s, h, env, id);
    hide Acted;
    PassValues(cfg, s.db, hd, env);
    OwnScene(s.db, s.queue, CallOf(cfg, hd, env), env.outcome, id);
  }

  lemma WriteIsExact(cfg: Config, s: State, h: Id, env: CallEnv, id: Id)
    requires Fine.Inv(s) && cfg.dlq && h in s.handlers
    requires s.handlers[h].Pass? && s.handlers[h].i < |s.handlers[h].batch|
    requires s.handlers[h].batch[s.handlers[h].i].requestId == id
    requires s.handlers[h].pass.WritePending? || s.handlers[h].pass.WriteDeadLettered?
    ensures Exact(cfg, s, Act(h, env), id)
  {
    hide Fine.Inv, HasLetter, Awaits, DbAfter, QueueAfter, CallOf;
    hide Next, Succeeds, PartOf, SceneOf, Loose, SourceBut, LetterAccepted;
    var hd := s.handlers[h];
    CarriedRowIsThere(s, h, hd.batch[hd.i]);
    RowsKeyed(s);
    CallReads(cfg, s, h, env, id);
    hide Acted;
    PassValues(cfg, s.db, hd, env);
    OwnScene(s.db, s.queue, CallOf(cfg, hd, env), env.outcome, id);
  }

  lemma PassIsExact(cfg: Config, s: State, h: Id, env: CallEnv, id: Id)
    requires Fine.Inv(s) && cfg.dlq && h in s.handlers && s.handlers[h].Pass?
    ensures Exact(cfg, s, Act(h, env), id)
  {
    hide Fine.Inv, Exact;
    var hd := s.handlers[h];
    if hd.i < |hd.batch| && hd.batch[hd.i].requestId == id && !hd.pass.CountFailed? {
      if !hd.pass.Top? {
        WriteIsExact(cfg, s, h, env, id);
      } else if ShouldRetry(cfg, hd.batch[hd.i].retryCount) {
        PublishIsExact(cfg, s, h, env, id);
      } else {
        StoreIsExact(cfg, s, h, env, id);
      }
    } else {
      PassElsewhere(cfg, s, hd, env, id);
      QuietIsExact(cfg, s, h, env, id);
    }
  }

  lemma ResetIsExact(cfg: Config, s: State, h: Id, env: CallEnv, id: Id)
    requires Fine.Inv(s) && cfg.dlq && h in s.handlers
    requires s.handlers[h].Replayer? && s.handlers[h].replay.Restart? && s.handlers[h].replay.dl.notificationId == id
    ensures Exact(cfg, s, Act(h, env), id)
  {
    hide Fine.Inv, HasLetter, Awaits, DbAfter, QueueAfter, CallOf, Next, Succeeds, PartOf, SceneOf, Loose, SourceBut;
    var hd := s.handlers[h];
    CarriedRowIsThere(s, h, ReplayJob(hd.replay.dl));
    RowsKeyed(s);
    CallReads(cfg, s, h, env, id);
    hide Acted;
    ReplayValues(cfg, s.db, hd, env);
    OwnScene(s.db, s.queue, CallOf(cfg, hd, env), env.outcome, id);
  }

  lemma ResendIsExact(cfg: Config, s: State, h: Id, env: CallEnv, id: Id)
    requires Fine.Inv(s) && cfg.dlq && h in s.handlers
    requires s.handlers[h].Replayer? && s.handlers[h].replay.Reenqueue? && s.handlers[h].replay.dl.notificationId == id
    ensures Exact(cfg, s, Act(h, env), id)
  {
    hide Fine.Inv, HasLetter, Awaits, DbAfter, QueueAfter, CallOf, Next, Succeeds, PartOf, SceneOf, Loose, SourceBut;
    var hd := s.handlers[h];
    CarriedRowIsThere(s, h, ReplayJob(hd.replay.dl));
    RowsKeyed(s);
    CallReads(cfg, s, h, env, id);
    hide Acted;
    ReplayValues(cfg, s.db, hd, env);
    OwnScene(s.db, s.queue, CallOf(cfg, hd, env), env.outcome, id);
  }

  lemma DiscardIsExact(cfg: Config, s: State, h: Id, env: CallEnv, id: Id)
    requires Fine.Inv(s) && cfg.dlq && h in s.handlers
    requires s.handlers[h].Replayer? && s.handlers[h].replay.Discard? && s.handlers[h].replay.dl.notificationId == id
    ensures Exact(cfg, s, Act(h, env), id)
  {
    hide Fine.Inv, HasLetter, Awaits, DbAfter, QueueAfter, CallOf, Next, Succeeds, PartOf, SceneOf, Loose, SourceBut;
    var hd := s.handlers[h];
    CarriedRowIsThere(s, h, ReplayJob(hd.replay.dl));
    RowsKeyed(s);
    CallReads(cfg, s, h, env, id);
    hide Acted;
    ReplayValues(cfg, s.db, hd, env);
    OwnScene(s.db, s.queue, CallOf(cfg, hd, env), env.outcome, id);
  }

  lemma LookupIsExact(cfg: Config, s: State, h: Id, env: CallEnv, id: Id)
    requires h in s.handlers && s.handlers[h].Replayer? && s.handlers[h].replay.Lookup?
    ensures Exact(cfg, s, Act(h, env), id)
  {
    var hd := s.handlers[h];
    assert CallOf(cfg, hd, env).NoCall? && !IsSource(PartOf(hd, id));
    assert !IsSource(PartOf(Next(cfg, s.db, hd, Succeeds(s.db, CallOf(cfg, hd, env), env.outcome)), id));
    hide CallOf, Next, Succeeds, PartOf, Exact;
    QuietIsExact(cfg, s, h, env, id);
  }

  lemma ReplayIsExact(cfg: Config, s: State, h: Id, env: CallEnv, id: Id)
    requires Fine.Inv(s) && cfg.dlq && h in s.handlers && s.handlers[h].Replayer?
    ensures Exact(cfg, s, Act(h, env), id)
  {
    hide Fine.Inv, Exact;
    var hd := s.handlers[h];
    if hd.replay.Lookup? {
      LookupIsExact(cfg, s, h, env, id);
    } else if InReplay(PartOf(hd, id)) {
      match hd.replay {
        case Restart(_) => ResetIsExact(cfg, s, h, env, id);
        case Reenqueue(_) => ResendIsExact(cfg, s, h, env, id);
        case Discard(_) => DiscardIsExact(cfg, s, h, env, id);
      }
    } else {
      ReplayElsewhere(cfg, s, hd, env, id);
      QuietIsExact(cfg, s, h, env, id);
    }
  }

  lemma WorkerWriteIsExact(cfg: Config, s: State, h: Id, env: CallEnv, id: Id)
    requires Fine.Inv(s) && cfg.dlq && h in s.handlers
    requires s.handlers[h].Worker? && s.handlers[h].message.requestId == id
    requires s.handlers[h].worker.MarkDispatched? || s.handlers[h].worker.Asleep?
    ensures Exact(cfg, s, Act(h, env), id)
  {
    hide Fine.Inv, HasLetter, Awaits, DbAfter, QueueAfter, CallOf, Next, Succeeds, PartOf, SceneOf, Loose, SourceBut;
    var hd := s.handlers[h];
    CarriedRowIsThere(s, h, hd.message);
    RowsKeyed(s);
    CallReads(cfg, s, h, env, id);
    hide Acted;
    WorkerValues(cfg, s.db, hd, env);
    OwnScene(s.db, s.queue, CallOf(cfg, hd, env), env.outcome, id);
  }

  lemma WorkerIsExact(cfg: Config, s: State, h: Id, env: CallEnv, id: Id)
    requires Fine.Inv(s) && cfg.dlq && h in s.handlers && s.handlers[h].Worker?
    ensures Exact(cfg, s, Act(h, env), id)
  {
    hide Fine.Inv, Exact;
    var hd := s.handlers[h];
    if hd.message.requestId == id && (hd.worker.MarkDispatched? || hd.worker.Asleep?) {
      WorkerWriteIsExact(cfg, s, h, env, id);
    } else {
      WorkerElsewhere(cfg, s, hd, env, id);
      QuietIsExact(cfg, s, h, env, id);
    }
  }

  lemma CreateIsExact(cfg: Config, s: State, h: Id, env: CallEnv, id: Id)
    requires Fine.Inv(s) && cfg.dlq && h in s.handlers
    requires s.handlers[h].Sender? && s.handlers[h].requestId == id && s.handlers[h].send.Create?
    ensures Exact(cfg, s, Act(h, env), id)
  {
    hide Fine.Inv, HasLetter, Awaits, DbAfter, QueueAfter, CallOf;
    hide Next, Succeeds, PartOf, SceneOf, Loose, SourceBut, NewJob;
    var hd := s.handlers[h];
    NoRowNoPart(s, id);
    CreateInserts(s, hd, id);
    RowsKeyed(s);
    CallReads(cfg, s, h, env, id);
    hide Acted;
    SenderValues(cfg, s.db, hd, env);
    OwnScene(s.db, s.queue, CallOf(cfg, hd, env), env.outcome, id);
  }

  // A row is created only where there was none.
  lemma CreateInserts(s: State, hd: Handler, id: Id)
    requires hd.Sender? && hd.requestId == id
    ensures JobAccepted(s.db, NewJob(hd.serviceId, hd.payload, id)) ==> id !in s.db.jobs
  {
  }

  lemma EnqueueIsExact(cfg: Config, s: State, h: Id, env: CallEnv, id: Id)
    requires Fine.Inv(s) && cfg.dlq && h in s.handlers
    requires s.handlers[h].Sender? && s.handlers[h].requestId == id && s.handlers[h].send.Enqueue?
    ensures Exact(cfg, s, Act(h, env), id)
  {
    hide Fine.Inv, HasLetter, Awaits, DbAfter, QueueAfter, CallOf;
    hide Next, Succeeds, PartOf, SceneOf, Loose, SourceBut, NewJob;
    var hd := s.handlers[h];
    RowsKeyed(s);
    CallReads(cfg, s, h, env, id);
    hide Acted;
    SenderValues(cfg, s.db, hd, env);
    OwnScene(s.db, s.queue, CallOf(cfg, hd, env), env.outcome, id);
  }

  lemma SenderIsExact(cfg: Config, s: State, h: Id, env: CallEnv, id: Id)
    requires Fine.Inv(s) && cfg.dlq && h in s.handlers && s.handlers[h].Sender?
    ensures Exact(cfg, s, Act(h, env), id)
  {
    hide Fine.Inv, Exact;
    var hd := s.handlers[h];
    if hd.requestId == id && hd.send.Create? {
      CreateIsExact(cfg, s, h, env, id);
    } else if hd.requestId == id && hd.send.Enqueue? {
      EnqueueIsExact(cfg, s, h, env, id);
    } else {
      SenderElsewhere(cfg, s, hd, env, id);
      QuietIsExact(cfg, s, h, env, id);
    }
  }

  // ----- any step -----

  lemma ActIsExact(cfg: Config, s: State, h: Id, env: CallEnv, id: Id)
    requires Fine.Inv(s) && cfg.dlq && h in s.handlers
    ensures Exact(cfg, s, Act(h, env), id)
  {
    hide Fine.Inv, Exact;
    match s.handlers[h] {
      case Pass(_, _, _) => PassIsExact(cfg, s, h, env, id);
      case Replayer(_, _, _) => ReplayIsExact(cfg, s, h, env, id);
      case Worker(_, _) => WorkerIsExact(cfg, s, h, env, id);
      case Sender(_, _, _, _) => SenderIsExact(cfg, s, h, env, id);
    }
  }

  // A new handler is no source, unless it is a worker with a message off the
  // queue.
  lemma BeginIsLoose(s: State, h: Id, hd: Handler, queue: multiset<Job>, id: Id)
    requires h !in s.handlers
    requires (queue == s.queue && PartOf(hd, id).Idle?)
          || (hd.Worker? && hd.worker.MarkDispatched? && hd.message in s.queue
              && queue == s.queue - multiset{hd.message})
    ensures Loose(SceneOf(s.(queue := queue, handlers := s.handlers[h := hd]), id)) <==> Loose(SceneOf(s, id))
  {
    hide HasLetter;
    var after := s.(queue := queue, handlers := s.handlers[h := hd]);
    var v, w := SceneOf(s, id), SceneOf(after, id);
    assert w.parts == v.parts[h := PartOf(hd, id)];
    if queue != s.queue {
      AwaitsFewer(s.queue, hd.message, id);
    }
    hide Awaits;
    assert Loose(v) ==> !SourceBut(v, h);
    assert !SourceBut(v, h) ==> forall g :: g in v.parts ==> !IsSource(v.parts[g]);
    LooseAfter(v, w, h);
  }

  lemma FailIsExact(cfg: Config, s: State, failed: Id, at: Time, outcome: Outcome, id: Id)
    ensures Exact(cfg, s, FailAction(failed, at, outcome), id)
  {
    var after := Fine.Apply(cfg, s, FailAction(failed, at, outcome));
    SameLetters(s.db, after.db);
    assert SceneOf(after, id).parts == SceneOf(s, id).parts;
    hide HasLetter, Awaits;
  }

  // Every action, under any faults and in any interleaving.
  lemma ActionIsExact(cfg: Config, s: State, a: Action, id: Id)
    requires Fine.Inv(s) && cfg.dlq
    ensures Exact(cfg, s, a, id)
  {
    hide Fine.Inv, Loose, SceneOf, Acted, IsTop, DueJobs, FailJob, FailAccepted, Alone;
    match a
    case Act(h, env) =>
      if h in s.handlers {
        ActIsExact(cfg, s, h, env, id);
      }
    case Poll(h, batch, now) =>
      if h !in s.handlers {
        BeginIsLoose(s, h, Pass(batch, 0, Top), s.queue, id);
      }
    case BeginReplay(h, caller, letterId) =>
      if h !in s.handlers {
        BeginIsLoose(s, h, Replayer(caller, letterId, Lookup), s.queue, id);
      }
    case BeginSend(h, serviceId, payload, requestId) =>
      if h !in s.handlers {
        BeginIsLoose(s, h, Sender(serviceId, payload, requestId, Create), s.queue, id);
      }
    case Receive(h, message) =>
      if h !in s.handlers && message in s.queue {
        BeginIsLoose(s, h, Worker(message, MarkDispatched), s.queue - multiset{message}, id);
      }
    case FailAction(failed, at, outcome) => FailIsExact(cfg, s, failed, at, outcome, id);
  }

  // ----- any run -----

  // Some step of the run loses the job, and none after it saves it.
  ghost predicate LeftLoose(cfg: Config, s: State, acts: seq<Action>, id: Id) {
    exists k | 0 <= k < |acts| ::
      && Loses(Fine.Run(cfg, s, acts[..k]), acts[k], id)
      && forall l | k < l < |acts| :: !Saves(cfg, Fine.Run(cfg, s, acts[..l]), acts[l], id)
  }

  lemma {:induction false} LooseExactlyWhen(cfg: Config, s: State, acts: seq<Action>, id: Id)
    requires Fresh(s) && cfg.dlq
    ensures Loose(SceneOf(Fine.Run(cfg, s, acts), id)) <==> LeftLoose(cfg, s, acts, id)
    decreases |acts|
  {
    hide Loses, Saves, Fresh;
    if acts == [] {
      FreshIsNotLoose(s, id);
    } else {
      var n := |acts| - 1;
      var init := acts[..n];
      LooseExactlyWhen(cfg, s, init, id);
      FreshRunsSound(cfg, s, init);
      hide Fine.Inv, Fine.Apply, Loose, SceneOf;
      ActionIsExact(cfg, Fine.Run(cfg, s, init), acts[n], id);
      LastAction(cfg, s, acts);
      LeftLooseStep(cfg, s, acts, id);
    }
  }

  lemma FreshIsNotLoose(s: State, id: Id)
    requires Fresh(s)
    ensures !Loose(SceneOf(s, id))
  {
  }

  lemma {:induction false} LastAction(cfg: Config, s: State, acts: seq<Action>)
    requires acts != []
    ensures Fine.Run(cfg, s, acts) == Fine.Apply(cfg, Fine.Run(cfg, s, acts[..|acts| - 1]), acts[|acts| - 1])
    decreases |acts|
  {
    hide Fine.Apply;
    if |acts| > 1 {
      LastAction(cfg, Fine.Apply(cfg, s, acts[0]), acts[1..]);
      assert acts[..|acts| - 1][1..] == acts[1..][..|acts| - 2];
    } else {
      assert acts[1..] == [];
    }
  }

  lemma LeftLooseStep(cfg: Config, s: State, acts: seq<Action>, id: Id)
    requires acts != []
    ensures var n := |acts| - 1;
      var last := Fine.Run(cfg, s, acts[..n]);
      LeftLoose(cfg, s, acts, id)
      <==> (LeftLoose(cfg, s, acts[..n], id) && !Saves(cfg, last, acts[n], id)) || Loses(last, acts[n], id)
  {
    hide Fine.Run, Loses, Saves;
    var n := |acts| - 1;
    var init := acts[..n];
    assert forall l | 0 <= l < n :: init[..l] == acts[..l] && init[l] == acts[l];
    if LeftLoose(cfg, s, init, id) && !Saves(cfg, Fine.Run(cfg, s, init), acts[n], id) {
      var k :| 0 <= k < |init| && Loses(Fine.Run(cfg, s, init[..k]), init[k], id)
        && forall l | k < l < |init| :: !Saves(cfg, Fine.Run(cfg, s, init[..l]), init[l], id);
      assert Loses(Fine.Run(cfg, s, acts[..k]), acts[k], id);
    }
    if LeftLoose(cfg, s, acts, id) {
      var k :| 0 <= k < |acts| && Loses(Fine.Run(cfg, s, acts[..k]), acts[k], id)
        && forall l | k < l < |acts| :: !Saves(cfg, Fine.Run(cfg, s, acts[..l]), acts[l], id);
      if k < n {
        assert Loses(Fine.Run(cfg, s, init[..k]), init[k], id);
        assert !Saves(cfg, Fine.Run(cfg, s, acts[..n]), acts[n], id);
      }
    }
  }

  // Over any run from an empty machine, whatever is cut and whatever overlaps: a
  // job ends lost if and only if no handler has a call left to make for it, some
  // step lost it and none after that saved it.
  lemma LostExactlyWhen(cfg: Config, s: State, acts: seq<Action>, id: Id)
    requires Fresh(s) && cfg.dlq
    ensures var end := Fine.Run(cfg, s, acts);
      Lost(end, id) <==> (forall h :: h in end.handlers ==> !Busy(end.handlers[h], id)) && LeftLoose(cfg, s, acts, id)
  {
    LooseExactlyWhen(cfg, s, acts, id);
    LostIsLooseAtRest(Fine.Run(cfg, s, acts), id);
    hide Fine.Run, Lost, Busy, Loose, SceneOf, LeftLoose;
  }
}
