// Whether a dead-lettered job can be buried again after a replay: exactly when
// a pass still has an old snapshot of it to bury.

module Reburial {
  import opened Domain
  import opened Schema
  import opened Query
  import opened Pipeline
  import opened Coarse
  import opened Fine
  import opened Races
  import opened Recovery
  import opened Grains

  // No call is cut and the job is not failed again.
  predicate FaultFree(a: Action, id: Id) {
    match a
    case Act(_, env) => env.outcome.Clean?
    case FailAction(failed, _, _) => failed != id
    case _ => true
  }

  predicate CanBuryAt(cfg: Config, hd: Handler, id: Id, k: nat)
    requires hd.Pass?
  {
    && hd.i <= k < |hd.batch| && hd.batch[k].requestId == id
    && if k == hd.i && !hd.pass.Top? then hd.pass.WriteDeadLettered? else !ShouldRetry(cfg, hd.batch[k].retryCount)
  }

  // The pass has a DEAD_LETTERED write of the job to come.
  ghost predicate CanBury(cfg: Config, hd: Handler, id: Id) {
    hd.Pass? && exists k: nat :: CanBuryAt(cfg, hd, id, k)
  }

  ghost predicate SomeCanBury(cfg: Config, s: State, id: Id) {
    exists h :: h in s.handlers && CanBury(cfg, s.handlers[h], id)
  }

  predicate IsFailed(s: State, id: Id) {
    id in s.db.jobs && s.db.jobs[id].status.FAILED?
  }

  // ----- no pass to bury it: never buried -----

  lemma NextCannotBury(cfg: Config, db: Tables, hd: Handler, ok: bool, id: Id)
    requires !CanBury(cfg, hd, id)
    ensures !CanBury(cfg, Next(cfg, db, hd, ok), id)
  {
    if hd.Pass? {
      var next := NextPass(cfg, hd, ok);
      forall k: nat ensures !CanBuryAt(cfg, next, id, k) {
        assert !CanBuryAt(cfg, hd, id, k);
      }
    }
  }

  lemma NoBurialCall(cfg: Config, db: Tables, hd: Handler, env: CallEnv, id: Id)
    requires !CanBury(cfg, hd, id)
    ensures var more := EffectsOf(db, hd, CallOf(cfg, hd, env), env.outcome);
      |more| <= 1 && more != [BurialOf(id)]
  {
    if hd.Pass? && hd.i < |hd.batch| {
      assert !CanBuryAt(cfg, hd, id, hd.i);
    }
  }

  lemma ActBuriesNothing(cfg: Config, s: State, h: Id, env: CallEnv, id: Id)
    requires h in s.handlers && !SomeCanBury(cfg, s, id)
    ensures var after := Acted(cfg, s, h, env);
      !SomeCanBury(cfg, after, id) && Times(after.history, BurialOf(id)) == Times(s.history, BurialOf(id))
  {
    hide CanBury, CallOf, Next, Succeeds, EffectsOf, DbAfter, QueueAfter, Times;
    var hd := s.handlers[h];
    NextCannotBury(cfg, s.db, hd, Succeeds(s.db, CallOf(cfg, hd, env), env.outcome), id);
    NoBurialCall(cfg, s.db, hd, env, id);
    TimesAppend(s.history, EffectsOf(s.db, hd, CallOf(cfg, hd, env), env.outcome), BurialOf(id));
  }

  lemma StepBuriesNothing(cfg: Config, s: State, a: Action, id: Id)
    requires Fine.Inv(s) && !IsFailed(s, id) && !SomeCanBury(cfg, s, id) && !(a.FailAction? && a.id == id)
    ensures var after := Fine.Apply(cfg, s, a);
      && !IsFailed(after, id) && !SomeCanBury(cfg, after, id)
      && Times(after.history, BurialOf(id)) == Times(s.history, BurialOf(id))
  {
    hide Fine.Inv, CanBury, Acted, IsTop, DueJobs, FailJob, Times;
    var after := Fine.Apply(cfg, s, a);
    if IsFailed(after, id) {
      FailedOnlyByFailJob(cfg, s, a, id);
    }
    hide IsFailed;
    if a.Act? && a.h in s.handlers {
      ActBuriesNothing(cfg, s, a.h, a.env, id);
    } else {
      if a.Poll? && IsTop(DueJobs(s.db, a.now), RetryTime, 50, a.batch) {
        NewPassCannotBury(cfg, s, a.batch, a.now, id);
      }
      NewcomersCannotBury(cfg, a, id);
    }
  }

  lemma NewcomersCannotBury(cfg: Config, a: Action, id: Id)
    ensures a.BeginReplay? ==> !CanBury(cfg, Replayer(a.caller, a.letterId, Lookup), id)
    ensures a.BeginSend? ==> !CanBury(cfg, Sender(a.serviceId, a.payload, a.requestId, Create), id)
    ensures a.Receive? ==> !CanBury(cfg, Worker(a.message, MarkDispatched), id)
  {
  }

  lemma NewPassCannotBury(cfg: Config, s: State, batch: seq<Job>, now: Time, id: Id)
    requires Fine.Inv(s) && !IsFailed(s, id) && IsTop(DueJobs(s.db, now), RetryTime, 50, batch)
    ensures !CanBury(cfg, Pass(batch, 0, Top), id)
  {
    KeyedFromIntegrity(s.db);
    forall k | 0 <= k < |batch| ensures batch[k].requestId != id {
      assert batch[k] in DueJobs(s.db, now);
    }
  }

  // With no such pass, no run buries the job, whatever is cut.
  lemma {:induction false} NeverBuried(cfg: Config, s: State, acts: seq<Action>, id: Id)
    requires Fine.Inv(s) && !IsFailed(s, id) && !SomeCanBury(cfg, s, id)
    requires forall a :: a in acts ==> !(a.FailAction? && a.id == id)
    ensures Times(Fine.Run(cfg, s, acts).history, BurialOf(id)) == Times(s.history, BurialOf(id))
    decreases |acts|
  {
    if acts != [] {
      assert acts[0] in acts;
      ApplyKeeps(cfg, s, acts[0]);
      StepBuriesNothing(cfg, s, acts[0], id);
      hide Fine.Inv, Fine.Apply, SomeCanBury, IsFailed, Times;
      NeverBuried(cfg, Fine.Apply(cfg, s, acts[0]), acts[1..], id);
    }
  }

  // ----- a pass to bury it: replayed, and buried again -----

  // The pass takes its own steps up to the top of job k.
  lemma {:induction false} PassComesTo(cfg: Config, s: State, p: Id, k: nat) returns (acts: seq<Action>)
    requires Fine.Inv(s) && p in s.handlers && s.handlers[p].Pass? && s.handlers[p].i < k < |s.handlers[p].batch|
    ensures forall a :: a in acts ==> a.Act? && a.env.outcome.Clean?
    ensures var end := Fine.Run(cfg, s, acts);
      && p in end.handlers && end.handlers[p] == Pass(s.handlers[p].batch, k, Top)
      && end.handlers == s.handlers[p := end.handlers[p]]
    decreases k - s.handlers[p].i, match s.handlers[p].pass case Top => 2 case WriteDeadLettered => 1 case _ => 0
  {
    var a := Acting(p, Clean, 0, 0);
    var s1 := Fine.Apply(cfg, s, a);
    ApplyKeeps(cfg, s, a);
    NextGoesOn(cfg, s, p);
    hide Fine.Inv, Fine.Apply;
    if s1.handlers[p].i == k {
      acts := [a] + [];
      Onward(cfg, s, a, []);
      NothingLeft(cfg, s1);
    } else {
      var rest := PassComesTo(cfg, s1, p, k);
      acts := [a] + rest;
      Onward(cfg, s, a, rest);
      assert s1.handlers[p := Pass(s.handlers[p].batch, k, Top)] == s.handlers[p := Pass(s.handlers[p].batch, k, Top)];
    }
  }

  lemma NextGoesOn(cfg: Config, s: State, p: Id)
    requires p in s.handlers && s.handlers[p].Pass? && s.handlers[p].i < |s.handlers[p].batch|
    ensures var hd, s1 := s.handlers[p], Fine.Apply(cfg, s, Acting(p, Clean, 0, 0));
      && p in s1.handlers && s1.handlers == s.handlers[p := s1.handlers[p]]
      && s1.handlers[p].Pass? && s1.handlers[p].batch == hd.batch
      && ((s1.handlers[p].i == hd.i + 1 && s1.handlers[p].pass.Top?)
          || (s1.handlers[p].i == hd.i && hd.pass.Top? && !s1.handlers[p].pass.Top?)
          || (s1.handlers[p].i == hd.i && hd.pass.WriteDeadLettered? && s1.handlers[p].pass.CountFailed?))
  {
    hide CallOf, Succeeds, EffectsOf, DbAfter, QueueAfter;
  }

  function Above(keys: set<Id>): Id
    ensures Above(keys) !in keys
  {
    Highest(keys) + 1
  }

  function Highest(keys: set<Id>): (m: Id)
    ensures forall k :: k in keys ==> k <= m
    decreases |keys|
  {
    if keys == {} then 0
    else
      LargestExists(keys);
      var x :| x in keys && forall k :: k in keys ==> k <= x;
      x
  }

  lemma {:induction false} LargestExists(keys: set<Id>)
    requires keys != {}
    ensures exists x :: x in keys && forall k :: k in keys ==> k <= x
    decreases |keys|
  {
    var y :| y in keys;
    if keys != {y} {
      LargestExists(keys - {y});
      var z :| z in keys - {y} && forall k :: k in keys - {y} ==> k <= z;
      var x := if y < z then z else y;
      assert forall k :: k in keys ==> k == y || k in keys - {y};
      assert x in keys && forall k :: k in keys ==> k <= x;
    }
  }

  // From the top of the job, or from its status write, to DEAD_LETTERED.
  lemma PassBuries(cfg: Config, s: State, p: Id, id: Id) returns (acts: seq<Action>)
    requires Fine.Inv(s) && cfg.dlq && p in s.handlers && s.handlers[p].Pass?
    requires CanBuryAt(cfg, s.handlers[p], id, s.handlers[p].i)
    ensures forall a :: a in acts ==> a.Act? && a.env.outcome.Clean?
    ensures var end := Fine.Run(cfg, s, acts);
      && id in end.db.jobs && end.db.jobs[id].status.DEAD_LETTERED?
      && Times(end.history, BurialOf(id)) == Times(s.history, BurialOf(id)) + 1
      && end.handlers == s.handlers[p := s.handlers[p].(pass := CountFailed)]
  {
    var hd := s.handlers[p];
    assert HandlerKnown(s.db.jobs, hd) && hd.batch[hd.i] in Carried(hd);
    if hd.pass.Top? {
      var a := Acting(p, Clean, Above(s.db.letters.Keys), 0);
      StoreStep(cfg, s, p, a.env);
      ApplyKeeps(cfg, s, a);
      var s1 := Fine.Apply(cfg, s, a);
      hide Fine.Inv, Fine.Apply, Times;
      var b := Acting(p, Clean, 0, 0);
      BuryStep(cfg, s1, p, id);
      acts := [a] + ([b] + []);
      Onward(cfg, s, a, [b] + []);
      Onward(cfg, s1, b, []);
      NothingLeft(cfg, Fine.Apply(cfg, s1, b));
      assert s1.handlers[p := hd.(pass := CountFailed)] == s.handlers[p := hd.(pass := CountFailed)];
    } else {
      var b := Acting(p, Clean, 0, 0);
      BuryStep(cfg, s, p, id);
      acts := [b] + [];
      Onward(cfg, s, b, []);
      NothingLeft(cfg, Fine.Apply(cfg, s, b));
    }
  }

  lemma StoreStep(cfg: Config, s: State, p: Id, env: CallEnv)
    requires Fine.Inv(s) && cfg.dlq && env.outcome.Clean? && env.letterId !in s.db.letters
    requires p in s.handlers && s.handlers[p].Pass? && s.handlers[p].i < |s.handlers[p].batch|
    requires s.handlers[p].pass.Top?
    requires !ShouldRetry(cfg, s.handlers[p].batch[s.handlers[p].i].retryCount)
    ensures var s1 := Fine.Apply(cfg, s, Act(p, env));
      && s1.handlers == s.handlers[p := s.handlers[p].(pass := WriteDeadLettered)]
      && s1.db.jobs == s.db.jobs && s1.history == s.history
  {
    var hd := s.handlers[p];
    assert HandlerKnown(s.db.jobs, hd) && hd.batch[hd.i] in Carried(hd);
    assert hd.batch[hd.i].serviceId in s.db.services;
    hide Fine.Inv, HasLetter;
    assert s.history + [] == s.history;
  }

  lemma BuryStep(cfg: Config, s: State, p: Id, id: Id)
    requires p in s.handlers && s.handlers[p].Pass? && s.handlers[p].i < |s.handlers[p].batch|
    requires s.handlers[p].pass.WriteDeadLettered? && s.handlers[p].batch[s.handlers[p].i].requestId == id
    requires id in s.db.jobs
    ensures var s1 := Fine.Apply(cfg, s, Acting(p, Clean, 0, 0));
      && id in s1.db.jobs && s1.db.jobs[id].status.DEAD_LETTERED?
      && s1.handlers == s.handlers[p := s.handlers[p].(pass := CountFailed)]
      && Times(s1.history, BurialOf(id)) == Times(s.history, BurialOf(id)) + 1
  {
    TimesAppend(s.history, [BurialOf(id)], BurialOf(id));
    hide Times;
  }

  lemma TimesGrow(cfg: Config, s: State, acts: seq<Action>, e: Effect)
    ensures Times(Fine.Run(cfg, s, acts).history, e) >= Times(s.history, e)
  {
    HistoryGrows(cfg, s, acts);
    var end := Fine.Run(cfg, s, acts).history;
    hide Fine.Run;
    assert end == s.history + end[|s.history|..];
    TimesOfMore(s.history, end[|s.history|..], e);
  }

  lemma {:induction false} TimesOfMore(history: seq<Effect>, more: seq<Effect>, e: Effect)
    ensures Times(history + more, e) >= Times(history, e)
    decreases |more|
  {
    if more == [] {
      assert history + more == history;
    } else {
      var init, last := more[..|more| - 1], more[|more| - 1];
      assert history + more == (history + init) + [last];
      TimesOfMore(history, init, e);
      TimesAppend(history + init, [last], e);
    }
  }

  // A pass with an old snapshot buries the job, however far it has to go.
  lemma PassBuriesInTheEnd(cfg: Config, s: State, p: Id, id: Id) returns (acts: seq<Action>)
    requires Fine.Inv(s) && cfg.dlq && p in s.handlers && CanBury(cfg, s.handlers[p], id)
    ensures forall a :: a in acts ==> a.Act? && a.env.outcome.Clean?
    ensures var end := Fine.Run(cfg, s, acts);
      && id in end.db.jobs && end.db.jobs[id].status.DEAD_LETTERED?
      && Times(end.history, BurialOf(id)) > Times(s.history, BurialOf(id))
      && p in end.handlers && end.handlers == s.handlers[p := end.handlers[p]]
  {
    hide Fine.Inv, Times;
    var k: nat :| CanBuryAt(cfg, s.handlers[p], id, k);
    if k == s.handlers[p].i {
      acts := PassBuries(cfg, s, p, id);
    } else {
      var way := PassComesTo(cfg, s, p, k);
      var mid := Fine.Run(cfg, s, way);
      ProvenanceOverRuns(cfg, s, way);
      TimesGrow(cfg, s, way, BurialOf(id));
      hide Fine.Run;
      var last := PassBuries(cfg, mid, p, id);
      Fine.RunConcat(cfg, s, way, last);
      acts := way + last;
      var end := Fine.Run(cfg, mid, last).handlers;
      assert end == s.handlers[p := end[p]];
    }
  }

  // The owner replayed the letter with success, and the job is DEAD_LETTERED
  // again.
  ghost predicate ReplayedAndBuried(cfg: Config, s: State, acts: seq<Action>, dl: DeadLetter) {
    var id, end := dl.notificationId, Fine.Run(cfg, s, acts);
    && (exists r ::
          r in end.handlers && r !in s.handlers && end.handlers[r] == Replayer(dl.serviceId, dl.id, Ended(OK)))
    && id in end.db.jobs && end.db.jobs[id].status.DEAD_LETTERED?
    && Times(end.history, BurialOf(id)) > Times(s.history, BurialOf(id))
  }

  lemma WholeReplay(cfg: Config, s: State, r: Id, dl: DeadLetter) returns (acts: seq<Action>)
    requires Fine.Inv(s) && r !in s.handlers && dl.id != NO_ID && dl.id in s.db.letters && s.db.letters[dl.id] == dl
    ensures forall a :: a in acts ==> FaultFree(a, dl.notificationId)
    ensures Fine.Run(cfg, s, acts).handlers == s.handlers[r := Replayer(dl.serviceId, dl.id, Ended(OK))]
  {
    hide Fine.Run, Fine.Inv, Replay;
    var begin := BeginReplay(r, dl.serviceId, dl.id);
    var env := ReplayEnv(Clean, Clean, Clean, Clean, Clean, 0);
    acts := [begin] + ReplayActions(r, env);
    var s1 := Fine.Apply(cfg, s, begin);
    LetterIsReplayable(s, dl);
    Onward(cfg, s, begin, ReplayActions(r, env));
    LoneReplayIsCoarse(cfg, s1, r, dl.serviceId, dl.id, env);
    UncutReplayOutcome(World(s.db, s.queue), dl.serviceId, dl.id, env);
    var end := Fine.Run(cfg, s1, ReplayActions(r, env));
    assert end.handlers == s1.handlers[r := Replayer(dl.serviceId, dl.id, Ended(OK))];
  }

  lemma LetterIsReplayable(s: State, dl: DeadLetter)
    requires Fine.Inv(s) && dl.id != NO_ID && dl.id in s.db.letters && s.db.letters[dl.id] == dl
    ensures Replayable(s.db, dl.serviceId, dl.id)
  {
    assert Known(s.db.jobs, ReplayJob(s.db.letters[dl.id]));
  }

  lemma ReplayedAndBuriedBy(cfg: Config, s: State, p: Id, dl: DeadLetter) returns (acts: seq<Action>)
    requires Fine.Inv(s) && cfg.dlq && dl.id != NO_ID && dl.id in s.db.letters && s.db.letters[dl.id] == dl
    requires p in s.handlers && CanBury(cfg, s.handlers[p], dl.notificationId)
    ensures (forall a :: a in acts ==> FaultFree(a, dl.notificationId)) && ReplayedAndBuried(cfg, s, acts, dl)
  {
    hide Fine.Inv, Times, CanBury;
    var id, r := dl.notificationId, Above(s.handlers.Keys);
    var first := WholeReplay(cfg, s, r, dl);
    var mid := Fine.Run(cfg, s, first);
    ProvenanceOverRuns(cfg, s, first);
    TimesGrow(cfg, s, first, BurialOf(id));
    hide Fine.Run;
    var last := PassBuriesInTheEnd(cfg, mid, p, id);
    Fine.RunConcat(cfg, s, first, last);
    acts := first + last;
    assert Fine.Run(cfg, s, acts).handlers[r] == Replayer(dl.serviceId, dl.id, Ended(OK));
  }

  // From a dead-lettered job with its letter there is a run without a fault or a
  // further failure in which the owner's replay succeeds and the job is buried
  // again, if and only if some pass has an exhausted snapshot of it ahead.
  lemma ReburialExactly(cfg: Config, s: State, dl: DeadLetter)
    requires Fine.Inv(s) && cfg.dlq && dl.id != NO_ID && dl.id in s.db.letters && s.db.letters[dl.id] == dl
    requires !IsFailed(s, dl.notificationId)
    ensures (exists acts ::
              (forall a :: a in acts ==> FaultFree(a, dl.notificationId)) && ReplayedAndBuried(cfg, s, acts, dl))
       <==> SomeCanBury(cfg, s, dl.notificationId)
  {
    hide Fine.Inv, Fine.Run, CanBury, Times;
    if SomeCanBury(cfg, s, dl.notificationId) {
      var p :| p in s.handlers && CanBury(cfg, s.handlers[p], dl.notificationId);
      var acts := ReplayedAndBuriedBy(cfg, s, p, dl);
    } else {
      forall acts | forall a :: a in acts ==> FaultFree(a, dl.notificationId)
        ensures !ReplayedAndBuried(cfg, s, acts, dl)
      {
        NeverBuried(cfg, s, acts, dl.notificationId);
      }
    }
  }
}
