// No loss at the fine grain, for handlers whose work on a job is kept apart.

module Apart {
  import opened Domain
  import opened Schema
  import opened Query
  import opened Pipeline
  import opened Coarse
  import opened Fine
  import opened Strands

  // ----- loss -----

  // The handler has a call left, stats aside, that concerns the job.
  ghost predicate Busy(hd: Handler, id: Id) {
    match hd
    case Pass(batch, i, pass) =>
      exists k :: i <= k < |batch| && batch[k].requestId == id && !(k == i && pass.CountFailed?)
    case Replayer(_, _, replay) =>
      (replay.Restart? || replay.Reenqueue? || replay.Discard?) && replay.dl.notificationId == id
    case Worker(message, worker) => message.requestId == id && !worker.CountDelivered? && !worker.Gone?
    case Sender(_, _, requestId, send) => requestId == id && (send.CountAccepted? || send.Enqueue?)
  }

  // Neither delivered nor to be retried, and nothing is left that would change
  // that: no message, no letter to replay, no handler.
  ghost predicate Lost(s: State, id: Id) {
    && id in s.db.jobs && !Settled(s.db.jobs[id])
    && !Awaits(s.queue, id) && !HasLetter(s.db, id)
    && (forall h :: h in s.handlers ==> !Busy(s.handlers[h], id))
  }

  predicate IsClean(a: Action) {
    match a
    case Act(_, env) => env.outcome.Clean?
    case FailAction(_, _, outcome) => outcome.Clean?
    case _ => true
  }

  // No call is cut.
  predicate CleanRun(acts: seq<Action>) {
    forall a :: a in acts ==> IsClean(a)
  }

  // ----- what a handler is to the job -----

  datatype Part =
    | Idle
    | Sending     // the row is created, its message not yet out
    | Carrying    // has the message, DELIVERED not yet written
    | Pending     // a pass between its publish and its PENDING write
    | Burying     // a pass between its letter and its DEAD_LETTERED write
    | Restarting  // a replay between its lookup and its reset
    | Resending   // a replay between its reset and its publish
    | Discarding  // a replay between its publish and its delete

  function PartOf(hd: Handler, id: Id): Part {
    match hd
    case Pass(batch, i, pass) =>
      if i >= |batch| || batch[i].requestId != id then Idle
      else if pass.WritePending? then Pending
      else if pass.WriteDeadLettered? then Burying
      else Idle
    case Replayer(_, _, replay) =>
      if replay.Lookup? || replay.Ended? || replay.dl.notificationId != id then Idle
      else if replay.Restart? then Restarting
      else if replay.Reenqueue? then Resending
      else if replay.Discard? then Discarding
      else Idle
    case Worker(message, worker) =>
      if message.requestId == id && !worker.CountDelivered? && !worker.Gone? then Carrying else Idle
    case Sender(_, _, requestId, send) =>
      if requestId == id && (send.CountAccepted? || send.Enqueue?) then Sending else Idle
  }

  // All that matters to one job.
  datatype Scene = Scene(row: Option<Status>, lettered: bool, awaited: bool, parts: map<Id, Part>)

  ghost function SceneOf(s: State, id: Id): Scene {
    Scene(if id in s.db.jobs then Some(s.db.jobs[id].status) else None,
          HasLetter(s.db, id), Awaits(s.queue, id), map h | h in s.handlers :: PartOf(s.handlers[h], id))
  }

  ghost predicate AnyIs(v: Scene, p: Part) {
    exists h :: h in v.parts && v.parts[h] == p
  }

  predicate InReplay(p: Part) {
    p.Restarting? || p.Resending? || p.Discarding?
  }

  // ----- keeping apart -----

  // The four ways in which the work of two handlers on a job may overlap.
  datatype Overlap =
    | DeliveryInRequeue  // a delivery is written between a pass's publish and its PENDING write
    | BurialInReplay     // a pass begins to bury between a replay's reset and its delete
    | ReplayInBurial     // a replay resets between a pass's letter and its DEAD_LETTERED write
    | ReplayInReplay     // a replay looks the letter up while another is under way

  // Whether the call may be made now: none of the overlaps but the waived ones
  // begins, sends and the worker's writes take effect, and either replays take
  // turns or none is cut between its reset and its publish.
  ghost predicate MayAct(cfg: Config, s: State, h: Id, env: CallEnv, id: Id, turns: bool, waived: set<Overlap>)
    requires h in s.handlers
  {
    var v, outcome := SceneOf(s, id), env.outcome;
    match s.handlers[h]
    case Pass(batch, i, pass) =>
      i < |batch| && batch[i].requestId == id && pass.Top? && !ShouldRetry(cfg, batch[i].retryCount) ==>
        BurialInReplay in waived || (!AnyIs(v, Resending) && !AnyIs(v, Discarding))
    case Replayer(_, letterId, replay) =>
      if replay.Lookup? then
        turns && letterId in s.db.letters && s.db.letters[letterId].notificationId == id ==>
          ReplayInReplay in waived || forall g :: g in v.parts ==> !InReplay(v.parts[g])
      else
        && (v.parts[h] == Restarting ==>
              (ReplayInBurial in waived || !AnyIs(v, Burying)) && (turns || !outcome.LostReply?))
        && (v.parts[h] == Resending ==> turns || !outcome.LostCall?)
    case Worker(message, worker) =>
      message.requestId == id ==>
        && (worker.MarkDispatched? ==> outcome.Clean?)
        && (worker.Asleep? ==> !outcome.LostCall? && (DeliveryInRequeue in waived || !AnyIs(v, Pending)))
    case Sender(_, _, requestId, send) =>
      requestId == id ==> (send.Create? ==> !outcome.LostReply?) && (send.Enqueue? ==> !outcome.LostCall?)
  }

  ghost predicate KeptApart(cfg: Config, s: State, acts: seq<Action>, id: Id, turns: bool, waived: set<Overlap>)
    decreases |acts|
  {
    acts != [] ==>
      && (acts[0].Act? && acts[0].h in s.handlers ==> MayAct(cfg, s, acts[0].h, acts[0].env, id, turns, waived))
      && KeptApart(cfg, Fine.Apply(cfg, s, acts[0]), acts[1..], id, turns, waived)
  }

  // ----- the invariant -----

  // A message, on the queue or with a worker.
  ghost predicate Live(v: Scene) {
    v.awaited || AnyIs(v, Carrying)
  }

  ghost predicate Coming(v: Scene, turns: bool) {
    Live(v) || (!turns && AnyIs(v, Resending))
  }

  predicate SettledRow(row: Option<Status>) {
    row.Some? && (row.value.DELIVERED? || row.value.FAILED?)
  }

  ghost predicate Sheltered(v: Scene, turns: bool) {
    && (v.row.Some? ==> SettledRow(v.row) || v.lettered || Coming(v, turns) || AnyIs(v, Sending))
    && (AnyIs(v, Pending) ==> Live(v))
    && (AnyIs(v, Burying) ==> v.lettered && !AnyIs(v, Resending) && !AnyIs(v, Discarding))
    && (AnyIs(v, Discarding) ==> SettledRow(v.row) || Coming(v, turns))
    && (turns ==> OneAtATime(v))
  }

  // One replay of the job at most, and it has its letter until its publish.
  ghost predicate OneAtATime(v: Scene) {
    && (AnyIs(v, Restarting) || AnyIs(v, Resending) ==> v.lettered)
    && (forall g, h :: g in v.parts && h in v.parts && InReplay(v.parts[g]) && InReplay(v.parts[h]) ==> g == h)
  }

  // The parts of the others are as they were.
  ghost predicate Moved(v: Scene, w: Scene, h: Id) {
    h in w.parts && w.parts == v.parts[h := w.parts[h]]
  }

  lemma OthersKeepParts(v: Scene, w: Scene, h: Id, p: Part)
    requires Moved(v, w, h)
    ensures AnyIs(w, p) ==> w.parts[h] == p || AnyIs(v, p)
    ensures AnyIs(v, p) ==> AnyIs(w, p) || (h in v.parts && v.parts[h] == p)
    ensures w.parts[h] == p ==> AnyIs(w, p)
  {
    if AnyIs(v, p) {
      var g :| g in v.parts && v.parts[g] == p;
      assert g != h ==> g in w.parts && w.parts[g] == p;
    }
    if AnyIs(w, p) {
      var g :| g in w.parts && w.parts[g] == p;
      assert g != h ==> g in v.parts && v.parts[g] == p;
    }
  }

  lemma AllKeepParts(v: Scene, w: Scene, h: Id)
    requires Moved(v, w, h)
    ensures forall p :: AnyIs(w, p) ==> w.parts[h] == p || AnyIs(v, p)
    ensures forall p :: AnyIs(v, p) ==> AnyIs(w, p) || (h in v.parts && v.parts[h] == p)
    ensures forall p :: w.parts[h] == p ==> AnyIs(w, p)
  {
    forall p
      ensures AnyIs(w, p) ==> w.parts[h] == p || AnyIs(v, p)
      ensures AnyIs(v, p) ==> AnyIs(w, p) || (h in v.parts && v.parts[h] == p)
      ensures w.parts[h] == p ==> AnyIs(w, p)
    {
      OthersKeepParts(v, w, h, p);
    }
  }

  // What one step of handler h may do to the scene.
  ghost predicate Step(v: Scene, w: Scene, h: Id, turns: bool) {
    var p := if h in v.parts then v.parts[h] else Idle;
    var q := if h in w.parts then w.parts[h] else Idle;
    var same := w.row == v.row && w.lettered == v.lettered && w.awaited == v.awaited;
    && Moved(v, w, h)
    && (// nothing, or an abandoned part
        || (same && (q == p || (q.Idle? && (p.Restarting? || p.Pending? || p.Burying? || p.Discarding?))))
        // a replay abandoned before its publish
        || (same && turns && p.Resending? && q.Idle?)
        // a pass publishes, or stores a letter
        || (p.Idle? && (q.Idle? || q.Pending?) && w == v.(awaited := true, parts := w.parts))
        || (p.Idle? && (q.Idle? || q.Burying?) && w == v.(lettered := true, parts := w.parts)
            && !AnyIs(v, Resending) && !AnyIs(v, Discarding))
        // it writes its status
        || (p.Pending? && q.Idle? && v.row.Some? && w == v.(row := Some(PENDING), parts := w.parts))
        || (p.Burying? && q.Idle? && v.row.Some? && w == v.(row := Some(DEAD_LETTERED), parts := w.parts))
        // a replay looks the letter up, resets, publishes and discards
        || (p.Idle? && q.Restarting? && same && v.lettered
            && (turns ==> forall g :: g in v.parts ==> !InReplay(v.parts[g])))
        || (p.Restarting? && (q.Resending? || (turns && q.Idle?)) && v.row.Some? && !AnyIs(v, Burying)
            && w == v.(row := Some(PENDING), parts := w.parts))
        || (p.Resending? && (q.Discarding? || q.Idle?) && w == v.(awaited := true, parts := w.parts))
        || (p.Discarding? && q.Idle? && w == v.(lettered := false, parts := w.parts))
        // the worker takes a message, marks it and delivers it
        || (p.Idle? && q.Carrying? && w.row == v.row && w.lettered == v.lettered)
        || (p.Carrying? && q.Carrying? && w == v.(row := Some(DISPATCHED), parts := w.parts))
        || (p.Carrying? && q.Idle? && w == v.(row := Some(DELIVERED), parts := w.parts) && !AnyIs(v, Pending))
        // a sender creates its row and publishes
        || (p.Idle? && q.Sending? && v.row.None? && w == v.(row := Some(ACCEPTED), parts := w.parts)
            && !v.lettered && !v.awaited && forall g :: g in v.parts ==> v.parts[g].Idle?)
        || (p.Sending? && q.Idle? && w == v.(awaited := true, parts := w.parts)))
  }

  lemma TurnsKept(v: Scene, w: Scene, h: Id)
    requires OneAtATime(v) && Step(v, w, h, true)
    ensures OneAtATime(w)
  {
    AllKeepParts(v, w, h);
    if h in v.parts {
      assert AnyIs(v, v.parts[h]);
    }
    assert forall f, g :: f in w.parts && g in w.parts && InReplay(w.parts[f]) && InReplay(w.parts[g]) ==> f == g;
    hide AnyIs;
  }

  lemma StepSheltered(v: Scene, w: Scene, h: Id, turns: bool)
    requires Sheltered(v, turns) && Step(v, w, h, turns)
    ensures Sheltered(w, turns)
  {
    AllKeepParts(v, w, h);
    if h in v.parts {
      assert AnyIs(v, v.parts[h]);
    }
    if turns {
      TurnsKept(v, w, h);
      OnlyIt(v, w, h);
    }
    hide AnyIs, OneAtATime;
  }

  // When replays take turns, whoever discards after a step of a replay is that
  // replay.
  lemma OnlyIt(v: Scene, w: Scene, h: Id)
    requires OneAtATime(v) && Moved(v, w, h)
    ensures h in v.parts && InReplay(v.parts[h]) && AnyIs(w, Discarding) ==> w.parts[h] == Discarding
    ensures AnyIs(v, Restarting) || AnyIs(v, Resending) ==> v.lettered
  {
  }

  // ----- every call is such a step -----

  predicate Concerns(call: NextCall, id: Id) {
    match call
    case NoCall => false
    case Pub(m) => m.requestId == id
    case Sql(st) =>
      match st
      case Insert(job) => job.requestId == id
      case Update(x, _) => x == id
      case Fail(x, _) => x == id
      case Reset(job) => job.requestId == id
      case Letter(dl) => dl.notificationId == id
      case Unletter(nid) => nid == id
      case _ => false
  }

  function RowIn(db: Tables, id: Id): Option<Status> {
    if id in db.jobs then Some(db.jobs[id].status) else None
  }

  lemma LettersElsewhere(db: Tables, st: Statement, id: Id)
    requires !Concerns(Sql(st), id)
    ensures RowIn(Exec(db, st), id) == RowIn(db, id)
    ensures HasLetter(Exec(db, st), id) <==> HasLetter(db, id)
  {
    match st
    case Letter(dl) =>
      if InsertLetter(db, dl) != db {
        OtherLetter(db, dl, id);
      }
    case Unletter(nid) => DeletionSparesOthers(db, nid, id);
    case _ => SameLetters(db, Exec(db, st));
  }

  lemma OtherLetter(db: Tables, dl: DeadLetter, id: Id)
    requires dl.notificationId != id && dl.id !in db.letters
    ensures HasLetter(db.(letters := db.letters[dl.id := dl]), id) <==> HasLetter(db, id)
  {
    var after := db.(letters := db.letters[dl.id := dl]);
    if HasLetter(db, id) {
      var k :| k in db.letters && db.letters[k].notificationId == id;
      assert k in after.letters && after.letters[k] == db.letters[k];
    }
  }

  lemma SparedScene(db: Tables, queue: multiset<Job>, call: NextCall, outcome: Outcome, id: Id)
    requires !Concerns(call, id)
    ensures RowIn(DbAfter(db, call, outcome), id) == RowIn(db, id)
    ensures HasLetter(DbAfter(db, call, outcome), id) <==> HasLetter(db, id)
    ensures Awaits(QueueAfter(queue, call, outcome), id) <==> Awaits(queue, id)
  {
    if call.Pub? {
      AwaitsMore(queue, call.message, id);
    }
    if call.Sql? {
      LettersElsewhere(db, call.st, id);
    }
    hide HasLetter, Awaits, Exec;
  }

  // What a call about the job does when it takes effect.
  lemma OwnScene(db: Tables, queue: multiset<Job>, call: NextCall, outcome: Outcome, id: Id)
    requires Concerns(call, id) && JobsKeyedOnly(db.jobs)
    ensures outcome.LostCall? ==> DbAfter(db, call, outcome) == db && QueueAfter(queue, call, outcome) == queue
    ensures call.Pub? ==> DbAfter(db, call, outcome) == db
    ensures call.Pub? && !outcome.LostCall? ==> Awaits(QueueAfter(queue, call, outcome), id)
    ensures call.Sql? ==> QueueAfter(queue, call, outcome) == queue
    ensures call.Sql? && !outcome.LostCall? ==>
      var after, lettered := DbAfter(db, call, outcome), HasLetter(db, id);
      match call.st
      case Update(_, status) =>
        RowIn(after, id) == (if id in db.jobs then Some(status) else None) && (HasLetter(after, id) <==> lettered)
      case Reset(job) =>
        && (HasLetter(after, id) <==> lettered)
        && RowIn(after, id) == if ResetAccepted(db, job) then Some(PENDING) else RowIn(db, id)
      case Letter(dl) =>
        RowIn(after, id) == RowIn(db, id) && (HasLetter(after, id) <==> lettered || LetterAccepted(db, dl))
      case Unletter(_) => RowIn(after, id) == RowIn(db, id) && !HasLetter(after, id)
      case Insert(job) =>
        && (HasLetter(after, id) <==> lettered)
        && RowIn(after, id) == if JobAccepted(db, job) then Some(job.status) else RowIn(db, id)
      case _ => true
  {
    if call.Pub? {
      AwaitsMore(queue, call.message, id);
    } else if call.st.Letter? {
      InsertionKeepsLetters(db, call.st.dl);
    } else if !call.st.Unletter? {
      SameLetters(db, Exec(db, call.st));
    }
    hide Awaits;
  }

  lemma PartsMove(cfg: Config, s: State, h: Id, env: CallEnv, id: Id)
    requires h in s.handlers
    ensures var after := Acted(cfg, s, h, env);
      var call := CallOf(cfg, s.handlers[h], env);
      var v, w := SceneOf(s, id), SceneOf(after, id);
      && h in v.parts && v.parts[h] == PartOf(s.handlers[h], id) && Moved(v, w, h)
      && w.parts[h] == PartOf(Next(cfg, s.db, s.handlers[h], Succeeds(s.db, call, env.outcome)), id)
      && v.row == RowIn(s.db, id) && (v.lettered <==> HasLetter(s.db, id)) && (v.awaited <==> Awaits(s.queue, id))
      && w.row == RowIn(DbAfter(s.db, call, env.outcome), id)
      && (w.lettered <==> HasLetter(DbAfter(s.db, call, env.outcome), id))
      && (w.awaited <==> Awaits(QueueAfter(s.queue, call, env.outcome), id))
  {
    hide CallOf, Next, Succeeds, DbAfter, QueueAfter, EffectsOf, PartOf, HasLetter, Awaits;
    var after := Acted(cfg, s, h, env);
    assert SceneOf(after, id).parts == SceneOf(s, id).parts[h := PartOf(after.handlers[h], id)];
  }

  // Stats, lookups of other letters and everything about other jobs.
  lemma QuietIsStep(cfg: Config, s: State, h: Id, env: CallEnv, id: Id, turns: bool)
    requires h in s.handlers
    requires var call := CallOf(cfg, s.handlers[h], env);
      && !Concerns(call, id)
      && PartOf(Next(cfg, s.db, s.handlers[h], Succeeds(s.db, call, env.outcome)), id) == PartOf(s.handlers[h], id)
    ensures Step(SceneOf(s, id), SceneOf(Acted(cfg, s, h, env), id), h, turns)
  {
    hide CallOf, Next, Succeeds, DbAfter, QueueAfter, EffectsOf, PartOf, HasLetter, Awaits, Acted, Concerns;
    PartsMove(cfg, s, h, env, id);
    SparedScene(s.db, s.queue, CallOf(cfg, s.handlers[h], env), env.outcome, id);
  }

  lemma RowsKeyed(s: State)
    requires Fine.Inv(s)
    ensures JobsKeyedOnly(s.db.jobs)
  {
    KeyedFromIntegrity(s.db);
  }

  // The call of a pass at the job, and what the pass is after it.
  lemma PassValues(cfg: Config, db: Tables, hd: Handler, env: CallEnv)
    requires cfg.dlq && hd.Pass? && hd.i < |hd.batch| && hd.batch[hd.i].payload.Json?
    ensures var job, id := hd.batch[hd.i], hd.batch[hd.i].requestId;
      var call := CallOf(cfg, hd, env);
      var p := PartOf(Next(cfg, db, hd, Succeeds(db, call, env.outcome)), id);
      match hd.pass
      case Top =>
        PartOf(hd, id) == Idle
        && (if ShouldRetry(cfg, job.retryCount)
            then call == Pub(job) && p == (if env.outcome.Clean? then Pending else Idle)
            else var dl := LetterFor(job, env.letterId, env.now);
                 call == Sql(Letter(dl)) && dl.notificationId == id
                 && p == (if env.outcome.Clean? && LetterAccepted(db, dl) then Burying else Idle))
      case WritePending => PartOf(hd, id) == Pending && call == Sql(Update(id, PENDING)) && p == Idle
      case WriteDeadLettered =>
        PartOf(hd, id) == Burying && call == Sql(Update(id, DEAD_LETTERED)) && p == Idle
      case CountFailed => true
  {
    hide LetterAccepted;
  }

  lemma PassStartIsStep(cfg: Config, s: State, h: Id, env: CallEnv, id: Id, turns: bool)
    requires Fine.Inv(s) && cfg.dlq && h in s.handlers && s.handlers[h].Pass? && MayAct(cfg, s, h, env, id, turns, {})
    requires var hd := s.handlers[h]; hd.i < |hd.batch| && hd.batch[hd.i].requestId == id && hd.pass.Top?
    ensures Step(SceneOf(s, id), SceneOf(Acted(cfg, s, h, env), id), h, turns)
  {
    hide Fine.Inv, Step, SceneOf, Acted;
    if ShouldRetry(cfg, s.handlers[h].batch[s.handlers[h].i].retryCount) {
      PublishIsStep(cfg, s, h, env, id, turns);
    } else {
      StoreIsStep(cfg, s, h, env, id, turns);
    }
  }

  lemma PublishIsStep(cfg: Config, s: State, h: Id, env: CallEnv, id: Id, turns: bool)
    requires Fine.Inv(s) && cfg.dlq && h in s.handlers && s.handlers[h].Pass?
    requires var hd := s.handlers[h]; hd.i < |hd.batch| && hd.batch[hd.i].requestId == id && hd.pass.Top?
    requires ShouldRetry(cfg, s.handlers[h].batch[s.handlers[h].i].retryCount)
    ensures Step(SceneOf(s, id), SceneOf(Acted(cfg, s, h, env), id), h, turns)
  {
    var hd := s.handlers[h];
    hide Fine.Inv, HasLetter, Awaits, Acted, DbAfter, QueueAfter, LetterAccepted, AnyIs, CallOf, Next, Succeeds, PartOf;
    hide SceneOf;
    CarriedRowIsThere(s, h, hd.batch[hd.i]);
    RowsKeyed(s);
    PartsMove(cfg, s, h, env, id);
    PassValues(cfg, s.db, hd, env);
    OwnScene(s.db, s.queue, CallOf(cfg, hd, env), env.outcome, id);
  }

  lemma StoreIsStep(cfg: Config, s: State, h: Id, env: CallEnv, id: Id, turns: bool)
    requires Fine.Inv(s) && cfg.dlq && h in s.handlers && s.handlers[h].Pass? && MayAct(cfg, s, h, env, id, turns, {})
    requires var hd := s.handlers[h]; hd.i < |hd.batch| && hd.batch[hd.i].requestId == id && hd.pass.Top?
    requires !ShouldRetry(cfg, s.handlers[h].batch[s.handlers[h].i].retryCount)
    ensures Step(SceneOf(s, id), SceneOf(Acted(cfg, s, h, env), id), h, turns)
  {
    var hd := s.handlers[h];
    hide Fine.Inv, HasLetter, Awaits, Acted, DbAfter, QueueAfter, LetterAccepted, AnyIs, CallOf, Next, Succeeds, PartOf;
    hide SceneOf;
    CarriedRowIsThere(s, h, hd.batch[hd.i]);
    RowsKeyed(s);
    PartsMove(cfg, s, h, env, id);
    PassValues(cfg, s.db, hd, env);
    OwnScene(s.db, s.queue, CallOf(cfg, hd, env), env.outcome, id);
  }

  lemma PassWriteIsStep(cfg: Config, s: State, h: Id, env: CallEnv, id: Id, turns: bool)
    requires Fine.Inv(s) && cfg.dlq && h in s.handlers && s.handlers[h].Pass?
    requires var hd := s.handlers[h];
      hd.i < |hd.batch| && hd.batch[hd.i].requestId == id && (hd.pass.WritePending? || hd.pass.WriteDeadLettered?)
    ensures Step(SceneOf(s, id), SceneOf(Acted(cfg, s, h, env), id), h, turns)
  {
    var hd := s.handlers[h];
    hide Fine.Inv, HasLetter, Awaits, Acted, DbAfter, QueueAfter, LetterAccepted, AnyIs, CallOf, Next, Succeeds, PartOf;
    hide SceneOf;
    CarriedRowIsThere(s, h, hd.batch[hd.i]);
    RowsKeyed(s);
    PartsMove(cfg, s, h, env, id);
    PassValues(cfg, s.db, hd, env);
    OwnScene(s.db, s.queue, CallOf(cfg, hd, env), env.outcome, id);
  }

  lemma PassIsStep(cfg: Config, s: State, h: Id, env: CallEnv, id: Id, turns: bool)
    requires Fine.Inv(s) && cfg.dlq && h in s.handlers && s.handlers[h].Pass? && MayAct(cfg, s, h, env, id, turns, {})
    ensures Step(SceneOf(s, id), SceneOf(Acted(cfg, s, h, env), id), h, turns)
  {
    hide Fine.Inv, Step, SceneOf, Acted, MayAct;
    var hd := s.handlers[h];
    if hd.i < |hd.batch| && hd.batch[hd.i].requestId == id && !hd.pass.CountFailed? {
      if hd.pass.Top? {
        PassStartIsStep(cfg, s, h, env, id, turns);
      } else {
        PassWriteIsStep(cfg, s, h, env, id, turns);
      }
    } else {
      PassElsewhere(cfg, s, hd, env, id);
      QuietIsStep(cfg, s, h, env, id, turns);
    }
  }

  lemma CarriedRowIsThere(s: State, h: Id, job: Job)
    requires Fine.Inv(s) && h in s.handlers && job in Carried(s.handlers[h])
    ensures Known(s.db.jobs, job) && s.db.jobs[job.requestId].payload.Json?
  {
    assert HandlerKnown(s.db.jobs, s.handlers[h]);
  }

  lemma PassElsewhere(cfg: Config, s: State, hd: Handler, env: CallEnv, id: Id)
    requires hd.Pass? && (hd.i < |hd.batch| && hd.batch[hd.i].requestId == id ==> hd.pass.CountFailed?)
    ensures var call := CallOf(cfg, hd, env);
      && !Concerns(call, id)
      && PartOf(Next(cfg, s.db, hd, Succeeds(s.db, call, env.outcome)), id) == Idle == PartOf(hd, id)
  {
  }

  lemma ReplayValues(cfg: Config, db: Tables, hd: Handler, env: CallEnv)
    requires hd.Replayer? && (hd.replay.Restart? || hd.replay.Reenqueue? || hd.replay.Discard?)
    ensures var id, job := hd.replay.dl.notificationId, ReplayJob(hd.replay.dl);
      var call := CallOf(cfg, hd, env);
      var p := PartOf(Next(cfg, db, hd, Succeeds(db, call, env.outcome)), id);
      match hd.replay
      case Restart(_) =>
        PartOf(hd, id) == Restarting && call == Sql(Reset(job))
        && p == (if env.outcome.Clean? && ResetAccepted(db, job) then Resending else Idle)
      case Reenqueue(_) =>
        PartOf(hd, id) == Resending && call == Pub(job) && p == (if env.outcome.Clean? then Discarding else Idle)
      case Discard(_) => PartOf(hd, id) == Discarding && call == Sql(Unletter(id)) && p == Idle
      case _ => true
  {
    hide ResetAccepted;
  }

  lemma ReplayIsStep(cfg: Config, s: State, h: Id, env: CallEnv, id: Id, turns: bool)
    requires Fine.Inv(s) && h in s.handlers && s.handlers[h].Replayer? && MayAct(cfg, s, h, env, id, turns, {})
    ensures Step(SceneOf(s, id), SceneOf(Acted(cfg, s, h, env), id), h, turns)
  {
    var hd := s.handlers[h];
    if InReplay(PartOf(hd, id)) {
      OwnReplayIsStep(cfg, s, h, env, id, turns);
    } else if hd.replay.Lookup? && hd.letterId in s.db.letters && s.db.letters[hd.letterId].notificationId == id {
      LookupIsStep(cfg, s, h, env, id, turns);
    } else {
      hide MayAct;
      ReplayElsewhere(cfg, s, hd, env, id);
      QuietIsStep(cfg, s, h, env, id, turns);
    }
  }

  lemma OwnReplayIsStep(cfg: Config, s: State, h: Id, env: CallEnv, id: Id, turns: bool)
    requires Fine.Inv(s) && h in s.handlers && s.handlers[h].Replayer? && MayAct(cfg, s, h, env, id, turns, {})
    requires InReplay(PartOf(s.handlers[h], id))
    ensures Step(SceneOf(s, id), SceneOf(Acted(cfg, s, h, env), id), h, turns)
  {
    hide Fine.Inv, Step, SceneOf, Acted;
    if s.handlers[h].replay.Restart? {
      ResetIsStep(cfg, s, h, env, id, turns);
    } else {
      LaterIsStep(cfg, s, h, env, id, turns);
    }
  }

  lemma ResetIsStep(cfg: Config, s: State, h: Id, env: CallEnv, id: Id, turns: bool)
    requires Fine.Inv(s) && h in s.handlers && s.handlers[h].Replayer? && MayAct(cfg, s, h, env, id, turns, {})
    requires InReplay(PartOf(s.handlers[h], id)) && s.handlers[h].replay.Restart?
    ensures Step(SceneOf(s, id), SceneOf(Acted(cfg, s, h, env), id), h, turns)
  {
    var hd := s.handlers[h];
    assert hd.replay.dl.notificationId == id;
    hide Fine.Inv, HasLetter, Awaits, Acted, DbAfter, QueueAfter, AnyIs, CallOf, Next, Succeeds, PartOf, SceneOf;
    CarriedRowIsThere(s, h, ReplayJob(hd.replay.dl));
    RowsKeyed(s);
    PartsMove(cfg, s, h, env, id);
    ReplayValues(cfg, s.db, hd, env);
    OwnScene(s.db, s.queue, CallOf(cfg, hd, env), env.outcome, id);
  }

  lemma LaterIsStep(cfg: Config, s: State, h: Id, env: CallEnv, id: Id, turns: bool)
    requires Fine.Inv(s) && h in s.handlers && s.handlers[h].Replayer? && MayAct(cfg, s, h, env, id, turns, {})
    requires InReplay(PartOf(s.handlers[h], id)) && !s.handlers[h].replay.Restart?
    ensures Step(SceneOf(s, id), SceneOf(Acted(cfg, s, h, env), id), h, turns)
  {
    var hd := s.handlers[h];
    assert hd.replay.dl.notificationId == id && (hd.replay.Reenqueue? || hd.replay.Discard?);
    hide Fine.Inv, HasLetter, Awaits, Acted, DbAfter, QueueAfter, AnyIs, CallOf, Next, Succeeds, PartOf, SceneOf;
    RowsKeyed(s);
    PartsMove(cfg, s, h, env, id);
    ReplayValues(cfg, s.db, hd, env);
    OwnScene(s.db, s.queue, CallOf(cfg, hd, env), env.outcome, id);
  }

  lemma LookupIsStep(cfg: Config, s: State, h: Id, env: CallEnv, id: Id, turns: bool)
    requires h in s.handlers && s.handlers[h].Replayer? && MayAct(cfg, s, h, env, id, turns, {})
    requires var hd := s.handlers[h];
      hd.replay.Lookup? && hd.letterId in s.db.letters && s.db.letters[hd.letterId].notificationId == id
    ensures Step(SceneOf(s, id), SceneOf(Acted(cfg, s, h, env), id), h, turns)
  {
    var hd := s.handlers[h];
    assert SceneOf(s, id).lettered && CallOf(cfg, hd, env).NoCall? && PartOf(hd, id) == Idle;
    var p := PartOf(Next(cfg, s.db, hd, Succeeds(s.db, CallOf(cfg, hd, env), env.outcome)), id);
    assert p == Idle || p == Restarting;
    hide HasLetter, Awaits, Acted, AnyIs, EffectsOf, CallOf, Next, Succeeds, PartOf, DbAfter, QueueAfter;
    PartsMove(cfg, s, h, env, id);
    SparedScene(s.db, s.queue, CallOf(cfg, hd, env), env.outcome, id);
    hide SceneOf;
  }

  lemma ReplayElsewhere(cfg: Config, s: State, hd: Handler, env: CallEnv, id: Id)
    requires hd.Replayer? && !InReplay(PartOf(hd, id))
    requires hd.replay.Lookup? && hd.letterId in s.db.letters ==> s.db.letters[hd.letterId].notificationId != id
    ensures var call := CallOf(cfg, hd, env);
      && !Concerns(call, id)
      && PartOf(Next(cfg, s.db, hd, Succeeds(s.db, call, env.outcome)), id) == Idle == PartOf(hd, id)
  {
  }

  lemma WorkerValues(cfg: Config, db: Tables, hd: Handler, env: CallEnv)
    requires hd.Worker? && (hd.worker.MarkDispatched? || hd.worker.Asleep?)
    ensures var id := hd.message.requestId;
      var call := CallOf(cfg, hd, env);
      var p := PartOf(Next(cfg, db, hd, Succeeds(db, call, env.outcome)), id);
      && PartOf(hd, id) == Carrying
      && (if hd.worker.Asleep? then call == Sql(Update(id, DELIVERED)) && p == Idle
          else call == Sql(Update(id, DISPATCHED)) && p == if env.outcome.Clean? then Carrying else Idle)
  {
  }

  lemma WorkerIsStep(cfg: Config, s: State, h: Id, env: CallEnv, id: Id, turns: bool)
    requires Fine.Inv(s) && h in s.handlers && s.handlers[h].Worker? && MayAct(cfg, s, h, env, id, turns, {})
    ensures Step(SceneOf(s, id), SceneOf(Acted(cfg, s, h, env), id), h, turns)
  {
    var hd := s.handlers[h];
    if hd.message.requestId == id && (hd.worker.MarkDispatched? || hd.worker.Asleep?) {
      hide Fine.Inv, HasLetter, Awaits, Acted, DbAfter, QueueAfter, AnyIs, CallOf, Next, Succeeds, PartOf, SceneOf;
      CarriedRowIsThere(s, h, hd.message);
      RowsKeyed(s);
      PartsMove(cfg, s, h, env, id);
      WorkerValues(cfg, s.db, hd, env);
      OwnScene(s.db, s.queue, CallOf(cfg, hd, env), env.outcome, id);
    } else {
      hide MayAct;
      WorkerElsewhere(cfg, s, hd, env, id);
      QuietIsStep(cfg, s, h, env, id, turns);
    }
  }

  lemma WorkerElsewhere(cfg: Config, s: State, hd: Handler, env: CallEnv, id: Id)
    requires hd.Worker? && (hd.message.requestId == id ==> !hd.worker.MarkDispatched? && !hd.worker.Asleep?)
    ensures var call := CallOf(cfg, hd, env);
      && !Concerns(call, id)
      && PartOf(Next(cfg, s.db, hd, Succeeds(s.db, call, env.outcome)), id) == PartOf(hd, id)
  {
  }

  lemma SenderValues(cfg: Config, db: Tables, hd: Handler, env: CallEnv)
    requires hd.Sender? && (hd.send.Create? || hd.send.Enqueue?)
    ensures var id, job := hd.requestId, NewJob(hd.serviceId, hd.payload, hd.requestId);
      var call := CallOf(cfg, hd, env);
      var p := PartOf(Next(cfg, db, hd, Succeeds(db, call, env.outcome)), id);
      && job.requestId == id && job.status.ACCEPTED?
      && (if hd.send.Create? then
            PartOf(hd, id) == Idle && call == Sql(Insert(job))
            && p == if env.outcome.Clean? && JobAccepted(db, job) then Sending else Idle
          else PartOf(hd, id) == Sending && call == Pub(job) && p == Idle)
  {
    hide JobAccepted;
  }

  lemma SenderIsStep(cfg: Config, s: State, h: Id, env: CallEnv, id: Id, turns: bool)
    requires Fine.Inv(s) && h in s.handlers && s.handlers[h].Sender? && MayAct(cfg, s, h, env, id, turns, {})
    ensures Step(SceneOf(s, id), SceneOf(Acted(cfg, s, h, env), id), h, turns)
  {
    hide Fine.Inv, Step, SceneOf, Acted, MayAct;
    var hd := s.handlers[h];
    if hd.requestId == id && hd.send.Create? {
      CreateIsStep(cfg, s, h, env, id, turns);
    } else if hd.requestId == id && hd.send.Enqueue? {
      EnqueueIsStep(cfg, s, h, env, id, turns);
    } else {
      SenderElsewhere(cfg, s, hd, env, id);
      QuietIsStep(cfg, s, h, env, id, turns);
    }
  }

  lemma CreateIsStep(cfg: Config, s: State, h: Id, env: CallEnv, id: Id, turns: bool)
    requires Fine.Inv(s) && h in s.handlers && s.handlers[h].Sender? && MayAct(cfg, s, h, env, id, turns, {})
    requires s.handlers[h].requestId == id && s.handlers[h].send.Create?
    ensures Step(SceneOf(s, id), SceneOf(Acted(cfg, s, h, env), id), h, turns)
  {
    hide Fine.Inv, HasLetter, Awaits, Acted, DbAfter, QueueAfter;
    hide AnyIs, CallOf, Next, Succeeds, PartOf, SceneOf, NewJob;
    var hd := s.handlers[h];
    RowsKeyed(s);
    NoRowNoPart(s, id);
    PartsMove(cfg, s, h, env, id);
    SenderValues(cfg, s.db, hd, env);
    OwnScene(s.db, s.queue, CallOf(cfg, hd, env), env.outcome, id);
  }

  lemma EnqueueIsStep(cfg: Config, s: State, h: Id, env: CallEnv, id: Id, turns: bool)
    requires Fine.Inv(s) && h in s.handlers && s.handlers[h].Sender? && MayAct(cfg, s, h, env, id, turns, {})
    requires s.handlers[h].requestId == id && s.handlers[h].send.Enqueue?
    ensures Step(SceneOf(s, id), SceneOf(Acted(cfg, s, h, env), id), h, turns)
  {
    hide Fine.Inv, HasLetter, Awaits, Acted, DbAfter, QueueAfter;
    hide AnyIs, CallOf, Next, Succeeds, PartOf, SceneOf, NewJob;
    var hd := s.handlers[h];
    RowsKeyed(s);
    PartsMove(cfg, s, h, env, id);
    SenderValues(cfg, s.db, hd, env);
    OwnScene(s.db, s.queue, CallOf(cfg, hd, env), env.outcome, id);
  }

  lemma SenderElsewhere(cfg: Config, s: State, hd: Handler, env: CallEnv, id: Id)
    requires hd.Sender? && (hd.requestId == id ==> !hd.send.Create? && !hd.send.Enqueue?)
    ensures var call := CallOf(cfg, hd, env);
      && !Concerns(call, id)
      && PartOf(Next(cfg, s.db, hd, Succeeds(s.db, call, env.outcome)), id) == PartOf(hd, id)
  {
  }

  // Before its row exists nothing has to do with a job.
  lemma NoRowNoPart(s: State, id: Id)
    requires Fine.Inv(s)
    ensures var v := SceneOf(s, id);
      id !in s.db.jobs ==> !v.lettered && !v.awaited && forall g :: g in v.parts ==> v.parts[g].Idle?
  {
    if id !in s.db.jobs {
      assert forall m :: m in s.queue ==> Known(s.db.jobs, m);
      assert forall k :: k in s.db.letters ==> Known(s.db.jobs, ReplayJob(s.db.letters[k]));
      forall g | g in s.handlers ensures PartOf(s.handlers[g], id).Idle? {
        NoPart(s, g, id);
      }
    }
  }

  lemma NoPart(s: State, g: Id, id: Id)
    requires Fine.Inv(s) && g in s.handlers && id !in s.db.jobs
    ensures PartOf(s.handlers[g], id).Idle?
  {
    var hd := s.handlers[g];
    assert HandlerKnown(s.db.jobs, hd);
    match hd
    case Pass(batch, i, pass) =>
      if i < |batch| {
        assert batch[i] in Carried(hd);
      }
    case Replayer(_, _, replay) =>
      if !replay.Lookup? && !replay.Ended? {
        assert ReplayJob(replay.dl) in Carried(hd);
      }
    case Worker(message, worker) => assert message in Carried(hd);
    case Sender(serviceId, payload, requestId, send) =>
      if send.CountAccepted? || send.Enqueue? {
        assert NewJob(serviceId, payload, requestId) in Carried(hd);
      }
  }

  // ----- every action -----

  lemma ActSheltered(cfg: Config, s: State, h: Id, env: CallEnv, id: Id, turns: bool)
    requires Fine.Inv(s) && cfg.dlq && h in s.handlers && MayAct(cfg, s, h, env, id, turns, {})
    requires Sheltered(SceneOf(s, id), turns)
    ensures Sheltered(SceneOf(Acted(cfg, s, h, env), id), turns)
  {
    hide Fine.Inv, Acted, SceneOf, Step, Sheltered, MayAct;
    match s.handlers[h] {
      case Pass(_, _, _) => PassIsStep(cfg, s, h, env, id, turns);
      case Replayer(_, _, _) => ReplayIsStep(cfg, s, h, env, id, turns);
      case Worker(_, _) => WorkerIsStep(cfg, s, h, env, id, turns);
      case Sender(_, _, _, _) => SenderIsStep(cfg, s, h, env, id, turns);
    }
    StepSheltered(SceneOf(s, id), SceneOf(Acted(cfg, s, h, env), id), h, turns);
  }

  // A new handler is idle, or a worker that took a message.
  lemma BeginSheltered(s: State, h: Id, hd: Handler, queue: multiset<Job>, id: Id, turns: bool)
    requires h !in s.handlers && Sheltered(SceneOf(s, id), turns)
    requires (queue == s.queue && PartOf(hd, id).Idle?)
          || (hd.Worker? && hd.worker.MarkDispatched? && hd.message in s.queue
              && queue == s.queue - multiset{hd.message})
    ensures Sheltered(SceneOf(s.(queue := queue, handlers := s.handlers[h := hd]), id), turns)
  {
    hide HasLetter, Sheltered;
    var after := s.(queue := queue, handlers := s.handlers[h := hd]);
    assert SceneOf(after, id).parts == SceneOf(s, id).parts[h := PartOf(hd, id)];
    if queue != s.queue {
      AwaitsFewer(s.queue, hd.message, id);
    }
    hide Awaits, AnyIs;
    StepSheltered(SceneOf(s, id), SceneOf(after, id), h, turns);
  }

  lemma FailSheltered(s: State, failed: Id, at: Time, id: Id, turns: bool)
    requires Sheltered(SceneOf(s, id), turns)
    ensures Sheltered(SceneOf(s.(db := FailJob(s.db, failed, at)), id), turns)
  {
    var after := s.(db := FailJob(s.db, failed, at));
    SameLetters(s.db, after.db);
    assert SceneOf(after, id).parts == SceneOf(s, id).parts;
    hide HasLetter, Awaits;
  }

  lemma ActionSheltered(cfg: Config, s: State, a: Action, id: Id, turns: bool)
    requires Fine.Inv(s) && cfg.dlq && Sheltered(SceneOf(s, id), turns)
    requires a.Act? && a.h in s.handlers ==> MayAct(cfg, s, a.h, a.env, id, turns, {})
    ensures Sheltered(SceneOf(Fine.Apply(cfg, s, a), id), turns)
  {
    hide Fine.Inv, Sheltered, SceneOf, MayAct, Acted, IsTop, DueJobs, FailJob;
    match a
    case Act(h, env) =>
      if h in s.handlers {
        ActSheltered(cfg, s, h, env, id, turns);
      }
    case Poll(h, batch, now) =>
      if h !in s.handlers {
        BeginSheltered(s, h, Pass(batch, 0, Top), s.queue, id, turns);
      }
    case BeginReplay(h, caller, letterId) =>
      if h !in s.handlers {
        BeginSheltered(s, h, Replayer(caller, letterId, Lookup), s.queue, id, turns);
      }
    case BeginSend(h, serviceId, payload, requestId) =>
      if h !in s.handlers {
        BeginSheltered(s, h, Sender(serviceId, payload, requestId, Create), s.queue, id, turns);
      }
    case Receive(h, message) =>
      if h !in s.handlers && message in s.queue {
        BeginSheltered(s, h, Worker(message, MarkDispatched), s.queue - multiset{message}, id, turns);
      }
    case FailAction(failed, at, outcome) => FailSheltered(s, failed, at, id, turns);
  }

  lemma {:induction false} ShelteredOverRuns(cfg: Config, s: State, acts: seq<Action>, id: Id, turns: bool)
    requires Fine.Inv(s) && cfg.dlq && Sheltered(SceneOf(s, id), turns) && KeptApart(cfg, s, acts, id, turns, {})
    ensures Sheltered(SceneOf(Fine.Run(cfg, s, acts), id), turns)
    decreases |acts|
  {
    if acts != [] {
      ApplyKeeps(cfg, s, acts[0]);
      ActionSheltered(cfg, s, acts[0], id, turns);
      hide Fine.Inv, Fine.Apply, Sheltered, MayAct;
      ShelteredOverRuns(cfg, Fine.Apply(cfg, s, acts[0]), acts[1..], id, turns);
    }
  }

  lemma ShelteredIsNotLost(s: State, id: Id, turns: bool)
    requires Sheltered(SceneOf(s, id), turns)
    ensures !Lost(s, id)
  {
    var v := SceneOf(s, id);
    forall h | h in v.parts && (v.parts[h].Carrying? || v.parts[h].Resending? || v.parts[h].Sending?)
      ensures h in s.handlers && Busy(s.handlers[h], id)
    {
    }
    hide Busy, HasLetter, Awaits;
  }

  // The machine before its first action: services, and nothing else.
  ghost predicate Fresh(s: State) {
    && Integrity(s.db) && s.db.jobs == map[] && s.db.letters == map[]
    && s.queue == multiset{} && s.handlers == map[]
  }

  lemma FreshRunsSound(cfg: Config, s: State, acts: seq<Action>)
    requires Fresh(s)
    ensures Fine.Inv(Fine.Run(cfg, s, acts))
  {
    assert Fine.Inv(s);
    ProvenanceOverRuns(cfg, s, acts);
  }

  // Over every run, with any cuts of passes, any failures, and cuts of replays
  // that take turns: a job whose handlers are kept apart is never lost.
  lemma NoLossApart(cfg: Config, s: State, acts: seq<Action>, id: Id, turns: bool)
    requires cfg.dlq && Fresh(s) && KeptApart(cfg, s, acts, id, turns, {})
    ensures !Lost(Fine.Run(cfg, s, acts), id)
  {
    assert Sheltered(SceneOf(s, id), turns);
    ShelteredOverRuns(cfg, s, acts, id, turns);
    ShelteredIsNotLost(Fine.Run(cfg, s, acts), id, turns);
  }
}
