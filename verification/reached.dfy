// The theorems on racing passes and racing replays start from states that runs
// of the machine reach; and two passes do count one job twice.

module Reached {
  import opened Domain
  import opened Schema
  import opened Query
  import opened Coarse
  import opened Fine
  import opened Races
  import opened Replays
  import opened Grains
  import opened Apart
  import opened Overlaps

  // A run from a fresh machine to a dead-lettered job at rest, the pass that
  // buried it still among the handlers.
  lemma AtRestReached(cfg: Config, s: State, svc: Id) returns (acts: seq<Action>)
    requires Fresh(s) && svc in s.db.services && svc != NO_ID && cfg.dlq && cfg.maxAttempts <= MAX_INT32
    ensures AtRest(Fine.Run(cfg, s, acts), Left(cfg, svc))
  {
    acts := BuriedReached(cfg, s, svc, false, {});
    FreshRunsSound(cfg, s, acts);
    var x := Buried(cfg, svc, s.db.services, false);
    assert Is(Fine.Run(cfg, s, acts), x);
    hide Fine.Inv, Fine.Run, KeptApart, Fresh;
  }

  // A run to an exhausted job, the only one due, with no pass under way.
  lemma RaceStartReached(cfg: Config, s: State, svc: Id) returns (acts: seq<Action>)
    requires Fresh(s) && svc in s.db.services && svc != NO_ID && cfg.dlq && cfg.maxAttempts <= MAX_INT32
    ensures var t := Fine.Run(cfg, s, acts);
      RaceStart(cfg, t, Exhausted(cfg, svc)) && DueJobs(t.db, 0) == {Exhausted(cfg, svc)} && PassesOver(t)
  {
    acts := FailedReached(cfg, s, svc, Spent(cfg), {});
    FreshRunsSound(cfg, s, acts);
    var x := Failed(svc, s.db.services, Spent(cfg));
    var t := Fine.Run(cfg, s, acts);
    assert Is(t, x);
    hide Fine.Inv, Fine.Run, KeptApart, Fresh;
    assert JOB in t.db.jobs;
  }

  // ----- two passes over one snapshot -----

  // One clean call of a pass on the job: from its top to the letter, to the
  // status, to the count, and on.
  lemma PassAdvances(cfg: Config, s: State, p: Id, at: PassAt, env: CallEnv, j0: Job, f: Field)
    requires Racing(cfg, s, j0, f) && p in s.handlers && s.handlers[p] == Pass([j0], 0, at) && f.Role(p) == Entered
    requires env.outcome.Clean? && env.letterId !in s.db.letters
    ensures at != WritePending
    ensures Fine.Apply(cfg, s, Act(p, env)).handlers
         == s.handlers[p := if at == Top then Pass([j0], 0, WriteDeadLettered)
                            else if at == WriteDeadLettered then Pass([j0], 0, CountFailed)
                            else Pass([j0], 1, Top)]
  {
    assert FitsIn(s.handlers[p], s.db, j0, Entered);
    assert s.handlers[p].batch[0].requestId == j0.requestId;
    RowHasService(s, j0);
    OwnCall(cfg, s.db, at, env, j0);
    hide Fine.Inv, HasLetter, Awaits, RaceOk, Exec, Accepted;
  }

  lemma RowHasService(s: State, j0: Job)
    requires Fine.Inv(s) && j0.requestId in s.db.jobs && s.db.jobs[j0.requestId].serviceId == j0.serviceId
    ensures j0.serviceId in s.db.services
  {
  }

  // Racing, with the two passes at these points.
  ghost predicate TwoAt(cfg: Config, s: State, s0: State, j0: Job, f: Field, p: Id, q: Id, hp: Handler, hq: Handler) {
    Racing(cfg, s, j0, f) && s.handlers == s0.handlers[p := hp][q := hq]
  }

  // A clean call with a letter ID of its own.
  function Drawing(h: Id, draw: Id): Action {
    Act(h, CallEnv(Clean, draw, 0))
  }

  function Onto(at: PassAt, j0: Job): Handler {
    if at == Top then Pass([j0], 0, WriteDeadLettered)
    else if at == WriteDeadLettered then Pass([j0], 0, CountFailed)
    else Pass([j0], 1, Top)
  }

  // Both passes make their next call, the first one first.
  lemma BothAdvance(cfg: Config, s: State, s0: State, j0: Job, f: Field, p: Id, q: Id, at: PassAt, draw: Id, base: nat)
    requires TwoAt(cfg, s, s0, j0, f, p, q, Pass([j0], 0, at), Pass([j0], 0, at)) && Counted(s, j0, f, base)
    requires p != q && f.Role(p) == Entered && f.Role(q) == Entered
    requires forall k :: k in s.db.letters ==> k < draw
    ensures var t := Fine.Apply(cfg, Fine.Apply(cfg, s, Drawing(p, draw)), Drawing(q, draw + 1));
      && TwoAt(cfg, t, s0, j0, f, p, q, Onto(at, j0), Onto(at, j0)) && Counted(t, j0, f, base)
      && forall k :: k in t.db.letters ==> k < draw + 2
  {
    hide Racing, Counted, Fine.Apply;
    var a, b := Drawing(p, draw), Drawing(q, draw + 1);
    CalmStepRaces(cfg, s, a, j0, f, base);
    NewLettersAreDrawn(cfg, s, a);
    PassAdvances(cfg, s, p, at, a.env, j0, f);
    var s1 := Fine.Apply(cfg, s, a);
    CalmStepRaces(cfg, s1, b, j0, f, base);
    NewLettersAreDrawn(cfg, s1, b);
    PassAdvances(cfg, s1, q, at, b.env, j0, f);
    var t := Fine.Apply(cfg, s1, b);
    assert t.handlers == s0.handlers[p := Onto(at, j0)][q := Onto(at, j0)];
  }

  function TwoPassActs(j0: Job, p: Id, q: Id, now: Time, draw: Id): seq<Action> {
    [Poll(p, [j0], now), Poll(q, [j0], now), Drawing(p, draw), Drawing(q, draw + 1),
     Drawing(p, draw + 2), Drawing(q, draw + 3), Drawing(p, draw + 4), Drawing(q, draw + 5)]
  }

  // Two passes that both poll the job before either buries it, with no fault:
  // one letter, and two failures counted.
  lemma TwoPassesCountTwice(cfg: Config, s: State, j0: Job, p: Id, q: Id, now: Time, draw: Id)
    requires RaceStart(cfg, s, j0) && PassesOver(s) && DueJobs(s.db, now) == {j0}
    requires p != q && p !in s.handlers && q !in s.handlers && forall k :: k in s.db.letters ==> k < draw
    ensures var id, acts := j0.requestId, TwoPassActs(j0, p, q, now, draw);
      var end := Fine.Run(cfg, s, acts);
      && (forall a :: a in acts ==> CalmAction(a, id)) && FreshDraws(s.db.letters, acts)
      && NoReplayOf(cfg, s, acts, id) && PassesOver(end)
      && Counters(s, end, id) == {p, q}
      && |set k | k in end.db.letters && end.db.letters[k].notificationId == id| == 1
      && Times(end.history, FailureOf(id, j0.serviceId)) == Times(s.history, FailureOf(id, j0.serviceId)) + 2
  {
    hide Fine.Run, Fine.Inv, Times, RaceStart, Counters, Holders, PassesOver, Fine.Apply;
    var id, acts := j0.requestId, TwoPassActs(j0, p, q, now, draw);
    TwoPassesEnd(cfg, s, j0, p, q, now, draw);
    DrawsAreFresh(s, j0, p, q, now, draw);
    OnlyPassesAct(cfg, s, acts, id);
    TheTwoCount(cfg, s, Fine.Run(cfg, s, acts), j0, p, q);
    RacingPassesBuryOnce(cfg, s, acts, j0);
    assert |{p, q}| == 2;
  }

  lemma DrawsAreFresh(s: State, j0: Job, p: Id, q: Id, now: Time, draw: Id)
    requires p !in s.handlers && q !in s.handlers && forall k :: k in s.db.letters ==> k < draw
    ensures var acts := TwoPassActs(j0, p, q, now, draw);
      && (forall a :: a in acts ==> CalmAction(a, j0.requestId)) && FreshDraws(s.db.letters, acts)
      && forall a :: a in acts ==> a.Poll? || (a.Act? && (a.h in s.handlers ==> s.handlers[a.h].Pass?))
  {
  }

  lemma TheTwoCount(cfg: Config, s: State, end: State, j0: Job, p: Id, q: Id)
    requires RaceStart(cfg, s, j0) && PassesOver(s) && p != q && p !in s.handlers && q !in s.handlers
    requires end.handlers == s.handlers[p := Pass([j0], 1, Top)][q := Pass([j0], 1, Top)]
    ensures Counters(s, end, j0.requestId) == {p, q} && p in Holders(s, end, j0.requestId) && PassesOver(end)
  {
    assert [j0][0] in [j0];
    hide Fine.Inv, Awaits;
    assert Holds(end.handlers[p], j0.requestId) && Holds(end.handlers[q], j0.requestId);
    forall h | h in s.handlers ensures !Owes(s.handlers[h], j0.requestId) {
    }
    hide RaceStart, Owes, Holds;
  }

  // Where passes alone make calls, nobody replays.
  lemma {:induction false} OnlyPassesAct(cfg: Config, s: State, acts: seq<Action>, id: Id)
    requires forall a :: a in acts ==> a.Poll? || (a.Act? && (a.h in s.handlers ==> s.handlers[a.h].Pass?))
    ensures NoReplayOf(cfg, s, acts, id)
    decreases |acts|
  {
    if acts != [] {
      assert acts[0] in acts;
      hide IsTop, DueJobs, CallOf, Succeeds, DbAfter, QueueAfter, EffectsOf;
      OnlyPassesAct(cfg, Fine.Apply(cfg, s, acts[0]), acts[1..], id);
    }
  }

  lemma TwoPassesEnd(cfg: Config, s: State, j0: Job, p: Id, q: Id, now: Time, draw: Id)
    requires RaceStart(cfg, s, j0) && PassesOver(s) && DueJobs(s.db, now) == {j0}
    requires p != q && p !in s.handlers && q !in s.handlers && forall k :: k in s.db.letters ==> k < draw
    ensures Fine.Run(cfg, s, TwoPassActs(j0, p, q, now, draw)).handlers
         == s.handlers[p := Pass([j0], 1, Top)][q := Pass([j0], 1, Top)]
  {
    hide RaceStart, PassesOver, Fine.Inv, Times, Racing, Counted, Fine.Run;
    var id, f := j0.requestId, FieldOf(s, j0.requestId);
    var base := Times(s.history, FailureOf(id, j0.serviceId));
    StartIsRacing(cfg, s, j0);
    var a, b := Poll(p, [j0], now), Poll(q, [j0], now);
    assert IsTop({j0}, RetryTime, 50, [j0]);
    CalmStepRaces(cfg, s, a, j0, f, base);
    var s1 := Fine.Apply(cfg, s, a);
    CalmStepRaces(cfg, s1, b, j0, f, base);
    var s2 := Fine.Apply(cfg, s1, b);
    assert s2.handlers == s.handlers[p := Pass([j0], 0, Top)][q := Pass([j0], 0, Top)] && s2.db == s.db;
    hide Fine.Apply, FieldOf;
    BothAdvance(cfg, s2, s, j0, f, p, q, Top, draw, base);
    var s4 := Fine.Apply(cfg, Fine.Apply(cfg, s2, Drawing(p, draw)), Drawing(q, draw + 1));
    BothAdvance(cfg, s4, s, j0, f, p, q, WriteDeadLettered, draw + 2, base);
    var s6 := Fine.Apply(cfg, Fine.Apply(cfg, s4, Drawing(p, draw + 2)), Drawing(q, draw + 3));
    BothAdvance(cfg, s6, s, j0, f, p, q, CountFailed, draw + 4, base);
    EightActions(cfg, s, TwoPassActs(j0, p, q, now, draw));
  }

  lemma EightActions(cfg: Config, s: State, acts: seq<Action>)
    requires |acts| == 8
    ensures var s2 := Fine.Apply(cfg, Fine.Apply(cfg, s, acts[0]), acts[1]);
      var s4 := Fine.Apply(cfg, Fine.Apply(cfg, s2, acts[2]), acts[3]);
      var s6 := Fine.Apply(cfg, Fine.Apply(cfg, s4, acts[4]), acts[5]);
      Fine.Run(cfg, s, acts) == Fine.Apply(cfg, Fine.Apply(cfg, s6, acts[6]), acts[7])
  {
    hide Fine.Apply;
    var s2 := Fine.Apply(cfg, Fine.Apply(cfg, s, acts[0]), acts[1]);
    var s4 := Fine.Apply(cfg, Fine.Apply(cfg, s2, acts[2]), acts[3]);
    var s6 := Fine.Apply(cfg, Fine.Apply(cfg, s4, acts[4]), acts[5]);
    var s8 := Fine.Apply(cfg, Fine.Apply(cfg, s6, acts[6]), acts[7]);
    TwoActions(cfg, s, acts);
    TwoActions(cfg, s2, acts[2..]);
    TwoActions(cfg, s4, acts[4..]);
    TwoActions(cfg, s6, acts[6..]);
    assert acts[2..][2..] == acts[4..] && acts[4..][2..] == acts[6..] && acts[6..][2..] == [];
    NothingLeft(cfg, s8);
    hide Fine.Run;
  }

  lemma TwoActions(cfg: Config, s: State, acts: seq<Action>)
    requires |acts| >= 2
    ensures Fine.Run(cfg, s, acts) == Fine.Run(cfg, Fine.Apply(cfg, Fine.Apply(cfg, s, acts[0]), acts[1]), acts[2..])
  {
    hide Fine.Apply;
    StepRun(cfg, s, acts);
    StepRun(cfg, Fine.Apply(cfg, s, acts[0]), acts[1..]);
    assert acts[1..][1..] == acts[2..];
  }
}
