// Any number of scheduler passes racing on one exhausted job.

module Races {
  import opened Domain
  import opened Schema
  import opened Query
  import opened Stats
  import opened Pipeline
  import opened Coarse
  import opened Fine
  import Strands

  // ----- the race -----

  // Letter IDs are drawn as UUIDs are: no draw repeats another or a row.
  ghost predicate FreshDraws(letters: map<Id, DeadLetter>, acts: seq<Action>) {
    && (forall i | 0 <= i < |acts| :: acts[i].Act? ==> acts[i].env.letterId !in letters)
    && (forall i, j | 0 <= i < j < |acts| ::
          acts[i].Act? && acts[j].Act? ==> acts[i].env.letterId != acts[j].env.letterId)
  }

  // No call of a handler is cut and the job is not failed again.
  predicate CalmAction(a: Action, id: Id) {
    match a
    case Act(_, env) => env.outcome.Clean?
    case FailAction(failed, _, _) => failed != id
    case _ => true
  }

  // The replay's next call looks up a letter of the job.
  predicate LooksUp(hd: Handler, db: Tables, id: Id) {
    hd.Replayer? && hd.replay.Lookup? && hd.letterId in db.letters && db.letters[hd.letterId].notificationId == id
  }

  predicate ReplaysIt(s: State, a: Action, id: Id) {
    a.Act? && a.h in s.handlers && LooksUp(s.handlers[a.h], s.db, id)
  }

  // No replay of the job comes to its lookup; those of other jobs may.
  ghost predicate NoReplayOf(cfg: Config, s: State, acts: seq<Action>, id: Id)
    decreases |acts|
  {
    acts != [] ==> !ReplaysIt(s, acts[0], id) && NoReplayOf(cfg, Fine.Apply(cfg, s, acts[0]), acts[1..], id)
  }

  // Where a handler stood when the race began: past the job, at the count that
  // ends an earlier burial of it, or not there yet.
  datatype Role = Past | Owing | Entered

  datatype Field = Field(past: set<Id>, owing: set<Id>) {
    function Role(h: Id): Role {
      if h in past then Past else if h in owing then Owing else Entered
    }
  }

  // What is left for the handler to do to the job, given whether the letter is
  // stored and the status written.
  ghost predicate RaceOk(hd: Handler, j0: Job, role: Role, lettered: bool, buried: bool) {
    match hd
    case Pass(batch, i, pass) =>
      && Shaped(hd)
      && (forall k | 0 <= k < |batch| && batch[k].requestId == j0.requestId ::
            match role
            case Past => k < i
            case Owing => k < i || (k == i && pass.CountFailed?)
            case Entered =>
              && batch[k] == j0
              && (k < i ==> lettered && buried)
              && (k == i ==> pass != WritePending && (pass == WriteDeadLettered ==> lettered)
                             && (pass == CountFailed ==> lettered && buried)))
    case Replayer(_, _, replay) => replay.Lookup? || replay.Ended? || replay.dl.notificationId != j0.requestId
    case Worker(message, worker) => message.requestId == j0.requestId ==> worker.Gone? || worker.CountDelivered?
    case Sender(_, _, requestId, send) => requestId == j0.requestId ==> send.Create? || send.Answered?
  }

  ghost predicate FitsIn(hd: Handler, db: Tables, j0: Job, role: Role)
    requires j0.requestId in db.jobs
  {
    RaceOk(hd, j0, role, HasLetter(db, j0.requestId), db.jobs[j0.requestId].status.DEAD_LETTERED?)
  }

  // The pass has dealt with its snapshot of the job.
  ghost predicate Done(hd: Handler, id: Id) {
    hd.Pass? && exists k :: 0 <= k < |hd.batch| && k < hd.i && hd.batch[k].requestId == id
  }

  // It has yet to count the failure of a burial it already wrote.
  predicate Owes(hd: Handler, id: Id) {
    hd.Pass? && hd.i < |hd.batch| && hd.batch[hd.i].requestId == id && hd.pass.CountFailed?
  }

  ghost function FieldOf(s: State, id: Id): Field {
    Field(set h | h in s.handlers && !Owes(s.handlers[h], id), set h | h in s.handlers && Owes(s.handlers[h], id))
  }

  // Those whose snapshot of the job counts: taken after start, or counted after.
  ghost function Counters(start: State, s: State, id: Id): set<Id> {
    set h | h in s.handlers && Holds(s.handlers[h], id) && (h in start.handlers ==> Owes(start.handlers[h], id))
  }

  // The passes that took a snapshot of the job after start.
  ghost function Holders(start: State, s: State, id: Id): set<Id> {
    set h | h in s.handlers && h !in start.handlers && Holds(s.handlers[h], id)
  }

  ghost function DoneBy(s: State, id: Id, f: Field): set<Id> {
    set h | h in s.handlers && f.Role(h) != Past && Done(s.handlers[h], id)
  }

  function Times(history: seq<Effect>, e: Effect): nat {
    if history == [] then 0
    else Times(history[..|history| - 1], e) + if history[|history| - 1] == e then 1 else 0
  }

  ghost predicate Racing(cfg: Config, s: State, j0: Job, f: Field) {
    && Fine.Inv(s)
    && cfg.dlq && !ShouldRetry(cfg, j0.retryCount) && j0.status.FAILED?
    && j0.requestId in s.db.jobs
    && (s.db.jobs[j0.requestId] == j0 || s.db.jobs[j0.requestId] == j0.(status := DEAD_LETTERED))
    && !Awaits(s.queue, j0.requestId)
    && f.past <= s.handlers.Keys && f.owing <= s.handlers.Keys
    && (forall h :: h in s.handlers ==>
          FitsIn(s.handlers[h], s.db, j0, f.Role(h)))
  }

  // ----- one step -----

  // The step of one handler: what it does to the job's letter and row, and
  // whether it finishes with the job.
  lemma PassStep(cfg: Config, s: State, h: Id, env: CallEnv, j0: Job, f: Field)
    requires Racing(cfg, s, j0, f) && h in s.handlers && s.handlers[h].Pass?
    requires env.outcome.Clean? && env.letterId !in s.db.letters
    ensures var after := Acted(cfg, s, h, env);
      && Touched(s, after, j0)
      && FitsIn(after.handlers[h], after.db, j0, f.Role(h))
      && Times(after.history, FailureOf(j0.requestId, j0.serviceId))
           == Times(s.history, FailureOf(j0.requestId, j0.serviceId))
              + (if Done(after.handlers[h], j0.requestId) && !Done(s.handlers[h], j0.requestId) then 1 else 0)
      && (Done(s.handlers[h], j0.requestId) ==> Done(after.handlers[h], j0.requestId))
      && (f.Role(h) == Past ==> (Done(s.handlers[h], j0.requestId) <==> Done(after.handlers[h], j0.requestId)))
  {
    var hd := s.handlers[h];
    if hd.i < |hd.batch| {
      assert hd.batch[hd.i] in Carried(hd) && HandlerKnown(s.db.jobs, hd);
      if hd.batch[hd.i].requestId == j0.requestId {
        assert FitsIn(hd, s.db, j0, f.Role(h));
        hide Fine.Inv, Acted, Times, Touched;
        if f.Role(h) == Owing {
          OwingStep(cfg, s, h, env, j0, f);
        } else {
          OwnStep(cfg, s, h, env, j0, f);
        }
      } else {
        OtherJobStep(cfg, s, h, env, j0, f);
      }
    } else {
      assert s.history + [] == s.history;
    }
  }

  // Nothing is taken back: the letter stays, the written status stays, and no
  // message for the job appears.
  ghost predicate Touched(s: State, after: State, j0: Job) {
    && j0.requestId in s.db.jobs && j0.requestId in after.db.jobs
    && (after.db.jobs[j0.requestId] == s.db.jobs[j0.requestId]
        || after.db.jobs[j0.requestId] == j0.(status := DEAD_LETTERED))
    && (HasLetter(s.db, j0.requestId) ==> HasLetter(after.db, j0.requestId))
    && !Awaits(after.queue, j0.requestId)
  }

  lemma TimesAppend(history: seq<Effect>, more: seq<Effect>, e: Effect)
    requires |more| <= 1
    ensures Times(history + more, e) == Times(history, e) + if more == [e] then 1 else 0
  {
    if more == [] {
      assert history + more == history;
    } else {
      assert (history + more)[..|history + more| - 1] == history;
    }
  }

  lemma OwnStep(cfg: Config, s: State, h: Id, env: CallEnv, j0: Job, f: Field)
    requires Racing(cfg, s, j0, f) && h in s.handlers && s.handlers[h].Pass?
    requires env.outcome.Clean? && env.letterId !in s.db.letters && f.Role(h) == Entered
    requires var hd := s.handlers[h]; hd.i < |hd.batch| && hd.batch[hd.i].requestId == j0.requestId
    ensures var after := Acted(cfg, s, h, env);
      && Touched(s, after, j0)
      && FitsIn(after.handlers[h], after.db, j0, f.Role(h))
      && Times(after.history, FailureOf(j0.requestId, j0.serviceId))
           == Times(s.history, FailureOf(j0.requestId, j0.serviceId))
              + (if Done(after.handlers[h], j0.requestId) then 1 else 0)
      && !Done(s.handlers[h], j0.requestId)
  {
    var hd := s.handlers[h];
    var after := Acted(cfg, s, h, env);
    var call := CallOf(cfg, hd, env);
    assert FitsIn(hd, s.db, j0, f.Role(h));
    assert hd.batch[hd.i] == j0;
    assert s.db.jobs[j0.requestId].serviceId in s.db.services;
    OwnCall(cfg, s.db, hd.pass, env, j0);
    OwnNext(cfg, hd, j0, HasLetter(s.db, j0.requestId), s.db.jobs[j0.requestId].status.DEAD_LETTERED?);
    TimesAppend(s.history, EffectsOf(s.db, hd, call, env.outcome), FailureOf(j0.requestId, j0.serviceId));
    assert after.queue == s.queue;
    hide HasLetter, Awaits, RaceOk, Done, Exec, Accepted, NextPass, Fine.Inv;
    RaceOkGrows(after.handlers[h], j0, f.Role(h), HasLetter(after.db, j0.requestId), HasLetter(after.db, j0.requestId),
                after.db.jobs[j0.requestId].status.DEAD_LETTERED?, after.db.jobs[j0.requestId].status.DEAD_LETTERED?);
  }

  // The call of a pass on the job: accepted, and it stores the letter, writes
  // the status, or counts.
  lemma OwnCall(cfg: Config, db: Tables, at: PassAt, env: CallEnv, j0: Job)
    requires cfg.dlq && !ShouldRetry(cfg, j0.retryCount) && at != WritePending
    requires env.outcome.Clean? && env.letterId !in db.letters
    requires j0.requestId in db.jobs && j0.serviceId in db.services
    requires db.jobs[j0.requestId] == j0 || db.jobs[j0.requestId] == j0.(status := DEAD_LETTERED)
    ensures var call := PassCall(cfg, j0, at, env);
      && call.Sql? && Accepted(db, call.st)
      && var after := Exec(db, call.st);
         && j0.requestId in after.jobs
         && after.jobs[j0.requestId]
            == (if at == WriteDeadLettered then j0.(status := DEAD_LETTERED) else db.jobs[j0.requestId])
         && (HasLetter(after, j0.requestId) <==> HasLetter(db, j0.requestId) || at == Top)
  {
    var call := PassCall(cfg, j0, at, env);
    InsertionKeepsLetters(db, LetterFor(j0, env.letterId, env.now));
    if !call.st.Letter? {
      SameLetters(db, Exec(db, call.st));
    }
  }

  lemma OwnNext(cfg: Config, hd: Handler, j0: Job, lettered: bool, buried: bool)
    requires hd.Pass? && hd.i < |hd.batch| && hd.batch[hd.i] == j0
    requires cfg.dlq && !ShouldRetry(cfg, j0.retryCount) && RaceOk(hd, j0, Entered, lettered, buried)
    ensures RaceOk(NextPass(cfg, hd, true), j0, Entered, lettered || hd.pass == Top,
                   buried || hd.pass == WriteDeadLettered)
    ensures Done(NextPass(cfg, hd, true), j0.requestId) <==> hd.pass == CountFailed
    ensures !Done(hd, j0.requestId) && hd.pass != WritePending
  {
    var next := NextPass(cfg, hd, true);
    if hd.pass == CountFailed {
      assert next.batch[hd.i].requestId == j0.requestId && hd.i < next.i;
    }
  }

  // The count that ends a burial from before the race.
  lemma OwingStep(cfg: Config, s: State, h: Id, env: CallEnv, j0: Job, f: Field)
    requires Racing(cfg, s, j0, f) && h in s.handlers && s.handlers[h].Pass? && f.Role(h) == Owing
    requires env.outcome.Clean?
    requires var hd := s.handlers[h]; hd.i < |hd.batch| && hd.batch[hd.i].requestId == j0.requestId
    ensures var after := Acted(cfg, s, h, env);
      && Touched(s, after, j0)
      && FitsIn(after.handlers[h], after.db, j0, Owing)
      && Times(after.history, FailureOf(j0.requestId, j0.serviceId))
           == Times(s.history, FailureOf(j0.requestId, j0.serviceId)) + 1
      && !Done(s.handlers[h], j0.requestId) && Done(after.handlers[h], j0.requestId)
  {
    var hd := s.handlers[h];
    assert FitsIn(hd, s.db, j0, Owing);
    OwedCall(s, hd, j0);
    OwingValues(cfg, s, h, env, j0);
    hide Fine.Inv, Acted, HasLetter, Times, Awaits;
    var after := Acted(cfg, s, h, env);
    SameLetters(s.db, after.db);
    TimesAppend(s.history, [FailureOf(j0.requestId, j0.serviceId)], FailureOf(j0.requestId, j0.serviceId));
    assert after.handlers[h].batch[hd.i].requestId == j0.requestId && hd.i < after.handlers[h].i;
  }

  lemma OwingValues(cfg: Config, s: State, h: Id, env: CallEnv, j0: Job)
    requires h in s.handlers && Owes(s.handlers[h], j0.requestId) && env.outcome.Clean?
    requires s.handlers[h].batch[s.handlers[h].i].serviceId == j0.serviceId && StatAccepted(s.db, j0.serviceId)
    ensures var hd, after := s.handlers[h], Acted(cfg, s, h, env);
      && after.db.letters == s.db.letters && after.db.jobs == s.db.jobs && after.queue == s.queue
      && after.handlers == s.handlers[h := Pass(hd.batch, hd.i + 1, Top)]
      && after.history == s.history + [FailureOf(j0.requestId, j0.serviceId)]
  {
  }

  lemma OwedCall(s: State, hd: Handler, j0: Job)
    requires Fine.Inv(s) && hd in s.handlers.Values && hd.Pass? && hd.i < |hd.batch|
    requires hd.batch[hd.i].requestId == j0.requestId && j0.requestId in s.db.jobs
    requires s.db.jobs[j0.requestId].serviceId == j0.serviceId
    ensures hd.batch[hd.i].serviceId == j0.serviceId && StatAccepted(s.db, j0.serviceId)
  {
    var h :| h in s.handlers && s.handlers[h] == hd;
    assert HandlerKnown(s.db.jobs, s.handlers[h]);
    assert hd.batch[hd.i] in Carried(hd);
  }

  lemma OtherJobStep(cfg: Config, s: State, h: Id, env: CallEnv, j0: Job, f: Field)
    requires Racing(cfg, s, j0, f) && h in s.handlers && s.handlers[h].Pass?
    requires env.outcome.Clean?
    requires var hd := s.handlers[h]; hd.i < |hd.batch| && hd.batch[hd.i].requestId != j0.requestId
    ensures var after := Acted(cfg, s, h, env);
      && Touched(s, after, j0)
      && after.db.jobs[j0.requestId] == s.db.jobs[j0.requestId]
      && FitsIn(after.handlers[h], after.db, j0, f.Role(h))
      && Times(after.history, FailureOf(j0.requestId, j0.serviceId))
           == Times(s.history, FailureOf(j0.requestId, j0.serviceId))
      && (Done(s.handlers[h], j0.requestId) <==> Done(after.handlers[h], j0.requestId))
  {
    hide Fine.Inv, HasLetter, Awaits, RaceOk, Done, Exec, NextPass, CallOf, EffectsOf, Succeeds, Times;
    var hd := s.handlers[h];
    var after := Acted(cfg, s, h, env);
    var call := CallOf(cfg, hd, env);
    assert FitsIn(hd, s.db, j0, f.Role(h));
    OtherEffects(s.db, hd, call, env.outcome, j0.requestId, j0.serviceId);
    TimesAppend(s.history, EffectsOf(s.db, hd, call, env.outcome), FailureOf(j0.requestId, j0.serviceId));
    OtherCallSpares(cfg, s, hd, env, j0.requestId);
    hide DbAfter, QueueAfter;
    OtherPassStaysOk(cfg, hd, Succeeds(s.db, call, env.outcome), j0, f.Role(h), HasLetter(s.db, j0.requestId),
                     s.db.jobs[j0.requestId].status.DEAD_LETTERED?);
    RaceOkGrows(after.handlers[h], j0, f.Role(h), HasLetter(s.db, j0.requestId), HasLetter(after.db, j0.requestId),
                s.db.jobs[j0.requestId].status.DEAD_LETTERED?, after.db.jobs[j0.requestId].status.DEAD_LETTERED?);
  }

  // A pass at another job counts no failure of this one.
  lemma OtherEffects(db: Tables, hd: Handler, call: NextCall, outcome: Outcome, id: Id, serviceId: Id)
    requires hd.Pass? && hd.i < |hd.batch| && hd.batch[hd.i].requestId != id
    ensures var more := EffectsOf(db, hd, call, outcome);
      |more| <= 1 && more != [FailureOf(id, serviceId)]
  {
  }

  lemma OtherCallSpares(cfg: Config, s: State, hd: Handler, env: CallEnv, id: Id)
    requires hd.Pass? && hd.i < |hd.batch| && hd.batch[hd.i].requestId != id
    requires id in s.db.jobs
    ensures var call := CallOf(cfg, hd, env);
      var db, queue := DbAfter(s.db, call, env.outcome), QueueAfter(s.queue, call, env.outcome);
      && id in db.jobs && db.jobs[id] == s.db.jobs[id]
      && (HasLetter(s.db, id) ==> HasLetter(db, id))
      && (Awaits(queue, id) ==> Awaits(s.queue, id))
  {
    var call := CallOf(cfg, hd, env);
    var queue := QueueAfter(s.queue, call, env.outcome);
    InsertionKeepsLetters(s.db, LetterFor(hd.batch[hd.i], env.letterId, env.now));
    if Awaits(queue, id) {
      var m :| m in queue && m.requestId == id;
      assert m in s.queue;
    }
  }

  lemma OtherPassStaysOk(cfg: Config, hd: Handler, ok: bool, j0: Job, role: Role, lettered: bool, buried: bool)
    requires hd.Pass? && hd.i < |hd.batch| && hd.batch[hd.i].requestId != j0.requestId
    requires RaceOk(hd, j0, role, lettered, buried)
    ensures RaceOk(NextPass(cfg, hd, ok), j0, role, lettered, buried)
    ensures Done(NextPass(cfg, hd, ok), j0.requestId) <==> Done(hd, j0.requestId)
  {
  }

  lemma RaceOkGrows(hd: Handler, j0: Job, role: Role, l0: bool, l1: bool, b0: bool, b1: bool)
    requires RaceOk(hd, j0, role, l0, b0) && (l0 ==> l1) && (b0 ==> b1)
    ensures RaceOk(hd, j0, role, l1, b1)
  {
  }

  // ----- any step -----

  // Handlers that are no passes leave the job of the race alone.
  lemma BystanderStep(cfg: Config, s: State, h: Id, env: CallEnv, j0: Job, f: Field)
    requires Racing(cfg, s, j0, f) && h in s.handlers && !s.handlers[h].Pass? && env.outcome.Clean?
    requires !LooksUp(s.handlers[h], s.db, j0.requestId)
    ensures var after := Acted(cfg, s, h, env);
      && Touched(s, after, j0)
      && FitsIn(after.handlers[h], after.db, j0, f.Role(h))
      && Times(after.history, FailureOf(j0.requestId, j0.serviceId))
           == Times(s.history, FailureOf(j0.requestId, j0.serviceId))
  {
    var hd := s.handlers[h];
    var after := Acted(cfg, s, h, env);
    var call := CallOf(cfg, hd, env);
    assert FitsIn(hd, s.db, j0, f.Role(h));
    BystanderCallSpares(cfg, s, hd, env, j0, f.Role(h), HasLetter(s.db, j0.requestId),
                        s.db.jobs[j0.requestId].status.DEAD_LETTERED?);
    BystanderNext(cfg, s.db, hd, env, j0, f.Role(h), HasLetter(s.db, j0.requestId),
                  s.db.jobs[j0.requestId].status.DEAD_LETTERED?);
    TimesAppend(s.history, EffectsOf(s.db, hd, call, env.outcome), FailureOf(j0.requestId, j0.serviceId));
    hide HasLetter, Awaits, CallOf, Next, Succeeds, DbAfter, QueueAfter, EffectsOf, RaceOk;
    RaceOkGrows(after.handlers[h], j0, f.Role(h), HasLetter(s.db, j0.requestId), HasLetter(after.db, j0.requestId),
                s.db.jobs[j0.requestId].status.DEAD_LETTERED?, after.db.jobs[j0.requestId].status.DEAD_LETTERED?);
  }

  lemma BystanderNext(cfg: Config, db: Tables, hd: Handler, env: CallEnv, j0: Job, role: Role, lettered: bool,
                      buried: bool)
    requires !hd.Pass? && RaceOk(hd, j0, role, lettered, buried) && j0.requestId in db.jobs
    requires !LooksUp(hd, db, j0.requestId)
    ensures var call := CallOf(cfg, hd, env);
      && RaceOk(Next(cfg, db, hd, Succeeds(db, call, env.outcome)), j0, role, lettered, buried)
      && |EffectsOf(db, hd, call, env.outcome)| <= 1
      && EffectsOf(db, hd, call, env.outcome) != [FailureOf(j0.requestId, j0.serviceId)]
  {
  }

  lemma BystanderCallSpares(cfg: Config, s: State, hd: Handler, env: CallEnv, j0: Job, role: Role, lettered: bool,
                            buried: bool)
    requires !hd.Pass? && RaceOk(hd, j0, role, lettered, buried) && j0.requestId in s.db.jobs && env.outcome.Clean?
    ensures var call := CallOf(cfg, hd, env);
      var db, queue := DbAfter(s.db, call, env.outcome), QueueAfter(s.queue, call, env.outcome);
      && j0.requestId in db.jobs && db.jobs[j0.requestId] == s.db.jobs[j0.requestId]
      && (HasLetter(s.db, j0.requestId) ==> HasLetter(db, j0.requestId))
      && (Awaits(queue, j0.requestId) ==> Awaits(s.queue, j0.requestId))
  {
    var call := CallOf(cfg, hd, env);
    assert call.Pub? ==> call.message.requestId != j0.requestId;
    assert call.Sql? ==> !call.st.Letter? && (call.st.Unletter? ==> call.st.nid != j0.requestId);
    if call.Sql? && call.st.Unletter? {
      Strands.DeletionSparesOthers(s.db, call.st.nid, j0.requestId);
    } else {
      SameLetters(s.db, DbAfter(s.db, call, env.outcome));
    }
    hide CallOf, HasLetter;
    if call.Pub? {
      assert forall m :: m in s.queue + multiset{call.message} ==> m in s.queue || m == call.message;
    }
  }

  // After any calm step the race is still one, no pass that finished with the
  // job is undone, and the FAILED counts of the job equal the passes finished.
  ghost predicate Counted(s: State, j0: Job, f: Field, base: nat) {
    Times(s.history, FailureOf(j0.requestId, j0.serviceId)) == base + |DoneBy(s, j0.requestId, f)|
  }

  lemma HandlerStep(cfg: Config, s: State, h: Id, env: CallEnv, j0: Job, f: Field)
    requires Racing(cfg, s, j0, f) && h in s.handlers && env.outcome.Clean? && env.letterId !in s.db.letters
    requires !LooksUp(s.handlers[h], s.db, j0.requestId)
    ensures var after := Acted(cfg, s, h, env);
      && after.handlers.Keys == s.handlers.Keys && after.handlers == s.handlers[h := after.handlers[h]]
      && Touched(s, after, j0)
      && FitsIn(after.handlers[h], after.db, j0, f.Role(h))
      && Times(after.history, FailureOf(j0.requestId, j0.serviceId))
           == Times(s.history, FailureOf(j0.requestId, j0.serviceId))
              + (if Done(after.handlers[h], j0.requestId) && !Done(s.handlers[h], j0.requestId) then 1 else 0)
      && (Done(s.handlers[h], j0.requestId) ==> Done(after.handlers[h], j0.requestId))
      && (f.Role(h) == Past ==> (Done(s.handlers[h], j0.requestId) <==> Done(after.handlers[h], j0.requestId)))
  {
    OnlyItMoves(cfg, s, h, env);
    hide Racing, Touched, RaceOk, Times, Acted;
    if s.handlers[h].Pass? {
      PassStep(cfg, s, h, env, j0, f);
    } else {
      BystanderStep(cfg, s, h, env, j0, f);
    }
  }

  lemma OnlyItMoves(cfg: Config, s: State, h: Id, env: CallEnv)
    requires h in s.handlers
    ensures var after := Acted(cfg, s, h, env).handlers;
      && h in after && after.Keys == s.handlers.Keys && after == s.handlers[h := after[h]]
      && (after[h].Pass? <==> s.handlers[h].Pass?)
  {
    hide CallOf, Succeeds, EffectsOf, DbAfter, QueueAfter;
  }

  lemma ActRaces(cfg: Config, s: State, h: Id, env: CallEnv, j0: Job, f: Field, base: nat)
    requires Racing(cfg, s, j0, f) && Counted(s, j0, f, base) && h in s.handlers
    requires env.outcome.Clean? && env.letterId !in s.db.letters
    requires !LooksUp(s.handlers[h], s.db, j0.requestId)
    ensures Racing(cfg, Acted(cfg, s, h, env), j0, f) && Counted(Acted(cfg, s, h, env), j0, f, base)
  {
    hide Acted, Fine.Inv, HasLetter, Awaits, RaceOk, Done, Times, DoneBy;
    var after := Acted(cfg, s, h, env);
    ActKeeps(cfg, s, h, env);
    HandlerStep(cfg, s, h, env, j0, f);
    FinishedSet(s, after, h, j0.requestId, f);
    forall g | g in after.handlers
      ensures FitsIn(after.handlers[g], after.db, j0, f.Role(g))
    {
      if g != h {
        RaceOkGrows(s.handlers[g], j0, f.Role(g), HasLetter(s.db, j0.requestId), HasLetter(after.db, j0.requestId),
                    s.db.jobs[j0.requestId].status.DEAD_LETTERED?, after.db.jobs[j0.requestId].status.DEAD_LETTERED?);
      }
    }
  }

  lemma FinishedSet(s: State, after: State, h: Id, id: Id, f: Field)
    requires h in s.handlers && h in after.handlers && after.handlers == s.handlers[h := after.handlers[h]]
    requires Done(s.handlers[h], id) ==> Done(after.handlers[h], id)
    requires f.Role(h) == Past ==> (Done(s.handlers[h], id) <==> Done(after.handlers[h], id))
    ensures |DoneBy(after, id, f)|
         == |DoneBy(s, id, f)| + if Done(after.handlers[h], id) && !Done(s.handlers[h], id) then 1 else 0
  {
    hide Done;
    var was, now := DoneBy(s, id, f), DoneBy(after, id, f);
    assert forall g :: g != h ==> (g in now <==> g in was);
    assert h in now <==> f.Role(h) != Past && Done(after.handlers[h], id);
    assert h in was <==> f.Role(h) != Past && Done(s.handlers[h], id);
    if h in now && h !in was {
      assert now == was + {h};
    } else {
      assert now == was;
    }
  }

  lemma NewHandlerRaces(cfg: Config, s: State, h: Id, hd: Handler, j0: Job, f: Field, base: nat)
    requires Racing(cfg, s, j0, f) && Counted(s, j0, f, base) && h !in s.handlers
    requires Fine.Inv(s.(handlers := s.handlers[h := hd]))
    requires FitsIn(hd, s.db, j0, Entered)
    requires !Done(hd, j0.requestId)
    ensures Racing(cfg, s.(handlers := s.handlers[h := hd]), j0, f)
    ensures Counted(s.(handlers := s.handlers[h := hd]), j0, f, base)
  {
    hide Fine.Inv, RaceOk, Done, HasLetter, Awaits;
    assert DoneBy(s.(handlers := s.handlers[h := hd]), j0.requestId, f) == DoneBy(s, j0.requestId, f);
  }

  // A poll that still sees the job FAILED sees the row as it was.
  lemma PolledPassOk(cfg: Config, s: State, batch: seq<Job>, now: Time, j0: Job, f: Field)
    requires Racing(cfg, s, j0, f) && IsTop(DueJobs(s.db, now), RetryTime, 50, batch)
    ensures FitsIn(Pass(batch, 0, Top), s.db, j0, Entered)
    ensures !Done(Pass(batch, 0, Top), j0.requestId)
  {
    forall j | j in batch ensures j.requestId in s.db.jobs && s.db.jobs[j.requestId] == j && j.status.FAILED? {
      assert j in DueJobs(s.db, now);
    }
    assert forall k | 0 <= k < |batch| :: batch[k] in batch;
  }

  lemma CalmStepRaces(cfg: Config, s: State, a: Action, j0: Job, f: Field, base: nat)
    requires Racing(cfg, s, j0, f) && Counted(s, j0, f, base) && CalmAction(a, j0.requestId)
    requires a.Act? ==> a.env.letterId !in s.db.letters
    requires !ReplaysIt(s, a, j0.requestId)
    ensures Racing(cfg, Fine.Apply(cfg, s, a), j0, f) && Counted(Fine.Apply(cfg, s, a), j0, f, base)
  {
    hide Racing, Counted, Acted, Fine.Inv, IsTop, DueJobs, FailJob;
    match a
    case Act(h, env) =>
      if h in s.handlers {
        ActRaces(cfg, s, h, env, j0, f, base);
      }
    case Poll(h, batch, now) =>
      if IsTop(DueJobs(s.db, now), RetryTime, 50, batch) && h !in s.handlers {
        PollRaces(cfg, s, h, batch, now, j0, f, base);
      }
    case BeginSend(h, serviceId, payload, requestId) =>
      if h !in s.handlers && serviceId != NO_ID {
        BeginRaces(cfg, s, h, Sender(serviceId, payload, requestId, Create), j0, f, base);
      }
    case Receive(h, message) =>
      if h !in s.handlers && message in s.queue {
        ReceiveRaces(cfg, s, h, message, j0, f, base);
      }
    case FailAction(id, at, outcome) => FailRaces(cfg, s, id, at, j0, f, base);
    case BeginReplay(h, caller, letterId) =>
      if h !in s.handlers && letterId != NO_ID {
        BeginRaces(cfg, s, h, Replayer(caller, letterId, Lookup), j0, f, base);
      }
  }

  lemma PollRaces(cfg: Config, s: State, h: Id, batch: seq<Job>, now: Time, j0: Job, f: Field, base: nat)
    requires Racing(cfg, s, j0, f) && Counted(s, j0, f, base) && h !in s.handlers
    requires IsTop(DueJobs(s.db, now), RetryTime, 50, batch)
    ensures var after := s.(handlers := s.handlers[h := Pass(batch, 0, Top)]);
      Racing(cfg, after, j0, f) && Counted(after, j0, f, base)
  {
    KeyedFromIntegrity(s.db);
    PolledRowsKnown(s.db, batch, now);
    PolledPassOk(cfg, s, batch, now, j0, f);
    NewHandlerKeeps(s, h, Pass(batch, 0, Top));
    hide Fine.Inv, RaceOk, Done, IsTop, DueJobs;
    NewHandlerRaces(cfg, s, h, Pass(batch, 0, Top), j0, f, base);
  }

  lemma BeginRaces(cfg: Config, s: State, h: Id, hd: Handler, j0: Job, f: Field, base: nat)
    requires Racing(cfg, s, j0, f) && Counted(s, j0, f, base) && h !in s.handlers
    requires (hd.Sender? && hd.send.Create?) || (hd.Replayer? && hd.replay.Lookup?)
    ensures var after := s.(handlers := s.handlers[h := hd]);
      Racing(cfg, after, j0, f) && Counted(after, j0, f, base)
  {
    NewHandlerKeeps(s, h, hd);
    hide Fine.Inv;
    NewHandlerRaces(cfg, s, h, hd, j0, f, base);
  }

  lemma ReceiveRaces(cfg: Config, s: State, h: Id, message: Job, j0: Job, f: Field, base: nat)
    requires Racing(cfg, s, j0, f) && Counted(s, j0, f, base) && message in s.queue && h !in s.handlers
    ensures var taken := s.(queue := s.queue - multiset{message});
      var after := taken.(handlers := taken.handlers[h := Worker(message, MarkDispatched)]);
      Racing(cfg, after, j0, f) && Counted(after, j0, f, base)
  {
    var taken := s.(queue := s.queue - multiset{message});
    QueuedIsKnown(s, message);
    assert message.requestId != j0.requestId;
    assert !Awaits(taken.queue, j0.requestId) by {
      assert forall m :: m in taken.queue ==> m in s.queue;
    }
    assert DoneBy(taken, j0.requestId, f) == DoneBy(s, j0.requestId, f);
    hide Fine.Inv, HasLetter, Awaits;
    assert Racing(cfg, taken, j0, f);
    assert Fine.Inv(taken.(handlers := taken.handlers[h := Worker(message, MarkDispatched)])) by {
      NewHandlerKeeps(taken, h, Worker(message, MarkDispatched));
    }
    NewHandlerRaces(cfg, taken, h, Worker(message, MarkDispatched), j0, f, base);
  }

  lemma FailRaces(cfg: Config, s: State, id: Id, at: Time, j0: Job, f: Field, base: nat)
    requires Racing(cfg, s, j0, f) && Counted(s, j0, f, base) && id != j0.requestId
    ensures var after := s.(db := FailJob(s.db, id, at)); Racing(cfg, after, j0, f) && Counted(after, j0, f, base)
  {
    hide Fine.Inv, HasLetter, Awaits, RaceOk, Times, Done;
    var after := s.(db := FailJob(s.db, id, at));
    FailKeepsInv(s, id, at);
    SameLetters(s.db, after.db);
    assert DoneBy(after, j0.requestId, f) == DoneBy(s, j0.requestId, f);
  }

  // ----- whole runs -----

  lemma NewLettersAreDrawn(cfg: Config, s: State, a: Action)
    ensures forall k :: k in Fine.Apply(cfg, s, a).db.letters ==> k in s.db.letters || (a.Act? && k == a.env.letterId)
  {
  }

  lemma {:induction false} RaceOverRuns(cfg: Config, s: State, acts: seq<Action>, j0: Job, f: Field, base: nat)
    requires Racing(cfg, s, j0, f) && Counted(s, j0, f, base)
    requires forall a :: a in acts ==> CalmAction(a, j0.requestId)
    requires FreshDraws(s.db.letters, acts)
    requires NoReplayOf(cfg, s, acts, j0.requestId)
    ensures Racing(cfg, Fine.Run(cfg, s, acts), j0, f) && Counted(Fine.Run(cfg, s, acts), j0, f, base)
    decreases |acts|
  {
    if acts != [] {
      hide Racing, Counted, Fine.Apply, CalmAction, ReplaysIt;
      var a := acts[0];
      assert a in acts;
      FreshLater(cfg, s, acts);
      CalmStepRaces(cfg, s, a, j0, f, base);
      hide FreshDraws;
      RaceOverRuns(cfg, Fine.Apply(cfg, s, a), acts[1..], j0, f, base);
    }
  }

  lemma FreshLater(cfg: Config, s: State, acts: seq<Action>)
    requires acts != [] && FreshDraws(s.db.letters, acts)
    ensures acts[0].Act? ==> acts[0].env.letterId !in s.db.letters
    ensures FreshDraws(Fine.Apply(cfg, s, acts[0]).db.letters, acts[1..])
  {
    NewLettersAreDrawn(cfg, s, acts[0]);
    hide Fine.Apply;
    assert forall i | 0 <= i < |acts[1..]| :: acts[1..][i] == acts[i + 1];
  }

  // The job is FAILED with its budget spent; passes that ever held it are past
  // it, or at the count that ends an earlier burial; no message, no worker and
  // no replay of it is under way. A cut pass may have left its letter.
  ghost predicate RaceStart(cfg: Config, s: State, j0: Job) {
    && Fine.Inv(s) && cfg.dlq
    && j0.requestId in s.db.jobs && s.db.jobs[j0.requestId] == j0
    && j0.status.FAILED? && !ShouldRetry(cfg, j0.retryCount)
    && !Awaits(s.queue, j0.requestId)
    && (forall h :: h in s.handlers ==>
          match s.handlers[h]
          case Pass(batch, i, pass) =>
            Shaped(s.handlers[h])
            && forall k | i <= k < |batch| && batch[k].requestId == j0.requestId :: k == i && pass.CountFailed?
          case Replayer(_, _, replay) => replay.Lookup? || replay.Ended? || replay.dl.notificationId != j0.requestId
          case Worker(message, worker) => message.requestId == j0.requestId ==> worker.Gone? || worker.CountDelivered?
          case Sender(_, _, requestId, send) => requestId == j0.requestId ==> send.Create? || send.Answered?)
  }

  // Every pass has run to its end.
  ghost predicate PassesOver(s: State) {
    forall h :: h in s.handlers && s.handlers[h].Pass? ==> s.handlers[h].i >= |s.handlers[h].batch|
  }

  lemma StartIsRacing(cfg: Config, s: State, j0: Job)
    requires RaceStart(cfg, s, j0)
    ensures var f := FieldOf(s, j0.requestId);
      Racing(cfg, s, j0, f) && Counted(s, j0, f, Times(s.history, FailureOf(j0.requestId, j0.serviceId)))
  {
    hide Fine.Inv, Times, Awaits, HasLetter;
    var f := FieldOf(s, j0.requestId);
    forall h | h in s.handlers
      ensures FitsIn(s.handlers[h], s.db, j0, f.Role(h))
      ensures f.Role(h) != Past ==> !Done(s.handlers[h], j0.requestId)
    {
    }
    assert DoneBy(s, j0.requestId, f) == {};
    hide RaceOk;
  }

  // Every interleaving of any number of passes that runs to its end: if any
  // snapshot held the job, it has exactly one letter and is DEAD_LETTERED; and
  // it was counted FAILED once for each snapshot that held it, and once for
  // each earlier burial not counted yet.
  lemma RacingPassesBuryOnce(cfg: Config, s: State, acts: seq<Action>, j0: Job)
    requires RaceStart(cfg, s, j0)
    requires forall a :: a in acts ==> CalmAction(a, j0.requestId)
    requires FreshDraws(s.db.letters, acts)
    requires NoReplayOf(cfg, s, acts, j0.requestId)
    requires PassesOver(Fine.Run(cfg, s, acts))
    ensures var id, end := j0.requestId, Fine.Run(cfg, s, acts);
      && (Holders(s, end, id) != {} ==>
            && id in end.db.jobs && end.db.jobs[id] == j0.(status := DEAD_LETTERED)
            && |set k | k in end.db.letters && end.db.letters[k].notificationId == id| == 1)
      && Times(end.history, FailureOf(id, j0.serviceId))
         == Times(s.history, FailureOf(id, j0.serviceId)) + |Counters(s, end, id)|
  {
    hide Fine.Run, RaceStart, Fine.Inv, Times, Racing, RaceOk, CalmAction, FreshDraws, NoReplayOf, Holds, Done;
    var id, f := j0.requestId, FieldOf(s, j0.requestId);
    var end := Fine.Run(cfg, s, acts);
    StartIsRacing(cfg, s, j0);
    RaceOverRuns(cfg, s, acts, j0, f, Times(s.history, FailureOf(id, j0.serviceId)));
    forall h | h in end.handlers ensures Holds(end.handlers[h], id) <==> Done(end.handlers[h], id) {
      AtEndDone(end.handlers[h], id);
    }
    assert Counters(s, end, id) == DoneBy(end, id, f);
    if Holders(s, end, id) != {} {
      var h :| h in Holders(s, end, id);
      assert f.Role(h) == Entered;
      HolderBuried(cfg, end, h, j0, f);
    }
  }

  lemma HolderBuried(cfg: Config, s: State, h: Id, j0: Job, f: Field)
    requires Racing(cfg, s, j0, f) && h in s.handlers && f.Role(h) == Entered && Done(s.handlers[h], j0.requestId)
    ensures j0.requestId in s.db.jobs && s.db.jobs[j0.requestId] == j0.(status := DEAD_LETTERED)
    ensures |set k | k in s.db.letters && s.db.letters[k].notificationId == j0.requestId| == 1
  {
    hide Fine.Inv;
    assert FitsIn(s.handlers[h], s.db, j0, Entered);
    LetterIsOne(s, j0.requestId);
  }

  lemma LetterIsOne(s: State, id: Id)
    requires Fine.Inv(s) && HasLetter(s.db, id)
    ensures |set k | k in s.db.letters && s.db.letters[k].notificationId == id| == 1
  {
    OneLetterEach(s.db, id);
  }

  lemma AtEndDone(hd: Handler, id: Id)
    requires hd.Pass? ==> hd.i >= |hd.batch|
    ensures Holds(hd, id) <==> Done(hd, id)
  {
    if Holds(hd, id) {
      var k :| 0 <= k < |hd.batch| && hd.batch[k].requestId == id;
      assert k < hd.i;
    }
  }

  // ----- the FAILED statistic -----

  function FailedOf(history: seq<Effect>, serviceId: Id): nat {
    if history == [] then 0
    else
      var last := history[|history| - 1];
      FailedOf(history[..|history| - 1], serviceId)
        + (if last.FailureOf? && last.serviceId == serviceId then 1 else 0)
  }

  lemma FailedAppend(history: seq<Effect>, more: seq<Effect>, serviceId: Id)
    requires |more| <= 1
    ensures FailedOf(history + more, serviceId)
         == FailedOf(history, serviceId)
            + if |more| == 1 && more[0].FailureOf? && more[0].serviceId == serviceId then 1 else 0
  {
    if more == [] {
      assert history + more == history;
    } else {
      assert (history + more)[..|history + more| - 1] == history;
    }
  }

  lemma StepFollowsHistory(cfg: Config, s: State, a: Action, svc: Id)
    ensures var after := Fine.Apply(cfg, s, a);
      Total(after.db.stats, svc, FAILED) + FailedOf(s.history, svc)
      == Total(s.db.stats, svc, FAILED) + FailedOf(after.history, svc)
  {
    hide Total, FailedOf, CallOf, Next, EffectsOf, DbAfter, QueueAfter, Succeeds, IsTop, DueJobs;
    if a.Act? && a.h in s.handlers {
      var hd := s.handlers[a.h];
      var call := CallOf(cfg, hd, a.env);
      CallFollowsHistory(cfg, s.db, hd, a.env, svc);
      FailedAppend(s.history, EffectsOf(s.db, hd, call, a.env.outcome), svc);
    } else {
      assert Fine.Apply(cfg, s, a).history == s.history && Fine.Apply(cfg, s, a).db.stats == s.db.stats;
    }
  }

  lemma CallFollowsHistory(cfg: Config, db: Tables, hd: Handler, env: CallEnv, svc: Id)
    ensures var call := CallOf(cfg, hd, env);
      var more := EffectsOf(db, hd, call, env.outcome);
      && |more| <= 1
      && Total(DbAfter(db, call, env.outcome).stats, svc, FAILED)
         == Total(db.stats, svc, FAILED)
            + if |more| == 1 && more[0].FailureOf? && more[0].serviceId == svc then 1 else 0
  {
    var call := CallOf(cfg, hd, env);
    hide Total;
    if call.Sql? && call.st.Count? && StatAccepted(db, call.st.serviceId) {
      CountAddsOne(db, call.st.serviceId, call.st.st, call.st.t, svc, FAILED);
    } else if call.Sql? {
      assert Exec(db, call.st).stats == db.stats;
    }
  }

  // Over any run, faults included, the FAILED total of a service rises by
  // exactly the failures counted for it.
  lemma {:induction false} StatFollowsHistory(cfg: Config, s: State, acts: seq<Action>, svc: Id)
    ensures var end := Fine.Run(cfg, s, acts);
      Total(end.db.stats, svc, FAILED) + FailedOf(s.history, svc)
      == Total(s.db.stats, svc, FAILED) + FailedOf(end.history, svc)
    decreases |acts|
  {
    if acts != [] {
      StepFollowsHistory(cfg, s, acts[0], svc);
      hide Fine.Apply, Total, FailedOf;
      StatFollowsHistory(cfg, Fine.Apply(cfg, s, acts[0]), acts[1..], svc);
    }
  }

  lemma {:induction false} HistoryGrows(cfg: Config, s: State, acts: seq<Action>)
    ensures s.history <= Fine.Run(cfg, s, acts).history
    decreases |acts|
  {
    if acts != [] {
      HistoryGrows(cfg, Fine.Apply(cfg, s, acts[0]), acts[1..]);
    }
  }

  // The failures counted for other jobs of the service.
  function OthersFailed(history: seq<Effect>, id: Id, serviceId: Id): nat {
    if history == [] then 0
    else
      var last := history[|history| - 1];
      OthersFailed(history[..|history| - 1], id, serviceId)
        + (if last.FailureOf? && last.serviceId == serviceId && last.id != id then 1 else 0)
  }

  lemma {:induction false} FailuresSplit(history: seq<Effect>, id: Id, svc: Id)
    ensures FailedOf(history, svc) == Times(history, FailureOf(id, svc)) + OthersFailed(history, id, svc)
    decreases |history|
  {
    if history != [] {
      FailuresSplit(history[..|history| - 1], id, svc);
    }
  }

  // The stored FAILED total rises by the failures counted for other jobs, and
  // for this one by the number of snapshots that held it: once a pass, not once
  // a job.
  lemma RacingPassesOvercount(cfg: Config, s: State, acts: seq<Action>, j0: Job)
    requires RaceStart(cfg, s, j0)
    requires forall a :: a in acts ==> CalmAction(a, j0.requestId)
    requires FreshDraws(s.db.letters, acts)
    requires NoReplayOf(cfg, s, acts, j0.requestId)
    requires PassesOver(Fine.Run(cfg, s, acts))
    ensures var id, svc, end := j0.requestId, j0.serviceId, Fine.Run(cfg, s, acts);
      Total(end.db.stats, svc, FAILED)
      == Total(s.db.stats, svc, FAILED) + |Counters(s, end, id)|
         + OthersFailed(end.history, id, svc) - OthersFailed(s.history, id, svc)
  {
    hide Fine.Run, RaceStart, PassesOver, FreshDraws, NoReplayOf, Total;
    hide CalmAction, Times, FailedOf, Counters, Holders, OthersFailed;
    RacingPassesBuryOnce(cfg, s, acts, j0);
    StatFollowsHistory(cfg, s, acts, j0.serviceId);
    FailuresSplit(s.history, j0.requestId, j0.serviceId);
    FailuresSplit(Fine.Run(cfg, s, acts).history, j0.requestId, j0.serviceId);
  }
}
