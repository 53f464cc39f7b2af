// Scripted runs from a fresh machine: each of the four overlaps alone loses a
// job, and the states the theorems on races and replays start from are reached.

module Overlaps {
  import opened Domain
  import opened Schema
  import opened Query
  import opened Pipeline
  import opened Coarse
  import opened Fine
  import opened Strands
  import opened Apart

  // ----- scripts -----

  const JOB: Id := 1
  const LETTER: Id := 2
  const SENDER: Id := 1
  const FIRST: Id := 2
  const PASS: Id := 3
  const REPLAY: Id := 4
  const SECOND: Id := 5
  const OTHER: Id := 6

  const FINE := CallEnv(Clean, LETTER, 0)

  // A state with the one job, stats and history aside.
  datatype Snap = Snap(
    row: Job,
    letters: map<Id, DeadLetter>,
    queue: multiset<Job>,
    handlers: map<Id, Handler>,
    services: map<Id, Service>)

  ghost predicate Is(s: State, x: Snap) {
    && x.row.requestId == JOB && s.db.jobs == map[JOB := x.row] && s.db.letters == x.letters
    && s.db.services == x.services && s.queue == x.queue && s.handlers == x.handlers
    && forall h :: h in x.handlers ==> InCast(h)
  }

  predicate InCast(h: Id) {
    h == SENDER || h == FIRST || h == PASS || h == REPLAY || h == SECOND || h == OTHER
  }

  // The actions lead from x to y, with no overlap but the waived ones.
  ghost predicate Leads(cfg: Config, x: Snap, acts: seq<Action>, y: Snap, waived: set<Overlap>) {
    forall t :: Is(t, x) ==> Is(Fine.Run(cfg, t, acts), y) && KeptApart(cfg, t, acts, JOB, true, waived)
  }

  // So they do, and no call is cut.
  ghost predicate Script(cfg: Config, x: Snap, acts: seq<Action>, y: Snap, waived: set<Overlap>) {
    CleanRun(acts) && Leads(cfg, x, acts, y, waived)
  }

  lemma {:induction false} ApartConcat(cfg: Config, s: State, a: seq<Action>, b: seq<Action>, waived: set<Overlap>)
    requires KeptApart(cfg, s, a, JOB, true, waived) && KeptApart(cfg, Fine.Run(cfg, s, a), b, JOB, true, waived)
    ensures KeptApart(cfg, s, a + b, JOB, true, waived)
    decreases |a|
  {
    hide Fine.Apply, MayAct;
    if a == [] {
      assert a + b == b;
    } else {
      assert (a + b)[0] == a[0] && (a + b)[1..] == a[1..] + b;
      ApartConcat(cfg, Fine.Apply(cfg, s, a[0]), a[1..], b, waived);
    }
  }

  lemma Then(cfg: Config, x: Snap, a: seq<Action>, y: Snap, b: seq<Action>, z: Snap, waived: set<Overlap>)
    requires Script(cfg, x, a, y, waived) && Script(cfg, y, b, z, waived)
    ensures Script(cfg, x, a + b, z, waived)
  {
    hide Is, Fine.Run, KeptApart;
    forall t | Is(t, x)
      ensures Is(Fine.Run(cfg, t, a + b), z) && KeptApart(cfg, t, a + b, JOB, true, waived)
    {
      RunConcat(cfg, t, a, b);
      assert Is(Fine.Run(cfg, t, a), y);
      ApartConcat(cfg, t, a, b, waived);
    }
  }

  ghost predicate Moves(cfg: Config, t: State, a: Action, y: Snap, waived: set<Overlap>) {
    && Is(Fine.Apply(cfg, t, a), y)
    && (a.Act? && a.h in t.handlers ==> MayAct(cfg, t, a.h, a.env, JOB, true, waived))
  }

  lemma SingleLeads(cfg: Config, x: Snap, a: Action, y: Snap, waived: set<Overlap>)
    requires forall t :: Is(t, x) ==> Moves(cfg, t, a, y, waived)
    ensures Leads(cfg, x, [a], y, waived)
  {
    forall t | Is(t, x) ensures Is(Fine.Run(cfg, t, [a]), y) && KeptApart(cfg, t, [a], JOB, true, waived) {
      assert Moves(cfg, t, a, y, waived);
      assert [a][1..] == [];
      hide Fine.Apply, MayAct, Is;
      assert Fine.Run(cfg, Fine.Apply(cfg, t, a), []) == Fine.Apply(cfg, t, a);
      assert KeptApart(cfg, Fine.Apply(cfg, t, a), [], JOB, true, waived);
    }
  }

  lemma Single(cfg: Config, x: Snap, a: Action, y: Snap, waived: set<Overlap>)
    requires IsClean(a) && forall t :: Is(t, x) ==> Moves(cfg, t, a, y, waived)
    ensures Script(cfg, x, [a], y, waived)
  {
    hide Is, Moves;
    SingleLeads(cfg, x, a, y, waived);
    hide Leads;
  }

  function At(cast: map<Id, Handler>, h: Id): Part {
    if h in cast then PartOf(cast[h], JOB) else Idle
  }

  predicate NoneIs(cast: map<Id, Handler>, p: Part) {
    && At(cast, SENDER) != p && At(cast, FIRST) != p && At(cast, PASS) != p
    && At(cast, REPLAY) != p && At(cast, SECOND) != p && At(cast, OTHER) != p
  }

  // No pass is between its first call and its status write.
  predicate Unwritten(cast: map<Id, Handler>) {
    NoneIs(cast, Burying) && NoneIs(cast, Pending)
  }

  lemma StaysNone(cast: map<Id, Handler>, h: Id, hd: Handler)
    requires NoneIs(cast, Pending) && !hd.Pass?
    ensures NoneIs(cast[h := hd], Pending)
  {
  }

  lemma StaysUnwritten(cast: map<Id, Handler>, h: Id, hd: Handler)
    requires Unwritten(cast) && !hd.Pass?
    ensures Unwritten(cast[h := hd])
  {
  }

  lemma NoneBecomes(cast: map<Id, Handler>, h: Id, hd: Handler, p: Part)
    requires NoneIs(cast, p) && PartOf(hd, JOB) != p
    ensures NoneIs(cast[h := hd], p)
  {
  }

  lemma NoneInScene(t: State, x: Snap, p: Part)
    requires Is(t, x)
    ensures NoneIs(x.handlers, p) ==> !AnyIs(SceneOf(t, JOB), p)
  {
  }

  // ----- passes -----

  lemma PollScript(cfg: Config, x: Snap, p: Id, waived: set<Overlap>)
    requires InCast(p) && p !in x.handlers && x.row.status.FAILED? && x.row.nextRetryAt == Some(0)
    ensures Script(cfg, x, [Poll(p, [x.row], 0)], x.(handlers := x.handlers[p := Pass([x.row], 0, Top)]), waived)
  {
    var a, y := Poll(p, [x.row], 0), x.(handlers := x.handlers[p := Pass([x.row], 0, Top)]);
    forall t | Is(t, x) ensures Moves(cfg, t, a, y, waived) {
      assert DueJobs(t.db, 0) == {x.row} by {
        assert JOB in t.db.jobs;
      }
      assert IsTop({x.row}, RetryTime, 50, [x.row]);
    }
    Single(cfg, x, a, y, waived);
  }

  predicate AtTop(x: Snap, p: Id, j: Job, pass: PassAt) {
    p in x.handlers && x.handlers[p] == Pass([j], 0, pass) && j.requestId == JOB && j.payload.Json?
  }

  function PassTo(x: Snap, p: Id, j: Job, i: nat, pass: PassAt): Snap {
    x.(handlers := x.handlers[p := Pass([j], i, pass)])
  }

  // With no letter yet, or one that absorbs the insert.
  lemma StoreScript(cfg: Config, x: Snap, p: Id, j: Job, waived: set<Overlap>)
    requires cfg.dlq && AtTop(x, p, j, Top) && !ShouldRetry(cfg, j.retryCount) && j.serviceId in x.services
    requires BurialInReplay in waived || (NoneIs(x.handlers, Resending) && NoneIs(x.handlers, Discarding))
    requires x.letters == map[] || (x.letters.Keys == {LETTER} && x.letters[LETTER].notificationId == JOB)
    ensures var letters := if x.letters == map[] then map[LETTER := LetterFor(j, LETTER, 0)] else x.letters;
      Script(cfg, x, [Act(p, FINE)], PassTo(x, p, j, 0, WriteDeadLettered).(letters := letters), waived)
  {
    var letters := if x.letters == map[] then map[LETTER := LetterFor(j, LETTER, 0)] else x.letters;
    var a, y := Act(p, FINE), PassTo(x, p, j, 0, WriteDeadLettered).(letters := letters);
    forall t | Is(t, x) ensures Moves(cfg, t, a, y, waived) {
      NoneInScene(t, x, Resending);
      NoneInScene(t, x, Discarding);
      if x.letters != map[] {
        assert HasLetter(t.db, JOB) by {
          assert LETTER in t.db.letters;
        }
      }
      assert Fine.Apply(cfg, t, a).db.letters == letters;
      hide SceneOf, AnyIs, HasLetter;
    }
    Single(cfg, x, a, y, waived);
  }

  lemma WriteScript(cfg: Config, x: Snap, p: Id, j: Job, waived: set<Overlap>)
    requires AtTop(x, p, j, WriteDeadLettered)
    ensures Script(cfg, x, [Act(p, FINE)],
                   PassTo(x, p, j, 0, CountFailed).(row := x.row.(status := DEAD_LETTERED)), waived)
  {
    var a := Act(p, FINE);
    var y := PassTo(x, p, j, 0, CountFailed).(row := x.row.(status := DEAD_LETTERED));
    forall t | Is(t, x) ensures Moves(cfg, t, a, y, waived) {
      hide SceneOf, AnyIs;
    }
    Single(cfg, x, a, y, waived);
  }

  lemma CountScript(cfg: Config, x: Snap, p: Id, j: Job, waived: set<Overlap>)
    requires AtTop(x, p, j, CountFailed)
    ensures Script(cfg, x, [Act(p, FINE)], PassTo(x, p, j, 1, Top), waived)
  {
    var a, y := Act(p, FINE), PassTo(x, p, j, 1, Top);
    forall t | Is(t, x) ensures Moves(cfg, t, a, y, waived) {
      hide SceneOf, AnyIs;
    }
    Single(cfg, x, a, y, waived);
  }

  lemma BuryScript(cfg: Config, x: Snap, p: Id, j: Job, waived: set<Overlap>)
    requires AtTop(x, p, j, WriteDeadLettered)
    ensures Script(cfg, x, [Act(p, FINE), Act(p, FINE)],
                   PassTo(x, p, j, 1, Top).(row := x.row.(status := DEAD_LETTERED)), waived)
  {
    hide Script, Is;
    var a := Act(p, FINE);
    var y := PassTo(x, p, j, 0, CountFailed).(row := x.row.(status := DEAD_LETTERED));
    WriteScript(cfg, x, p, j, waived);
    CountScript(cfg, y, p, j, waived);
    Then(cfg, x, [a], y, [a], PassTo(y, p, j, 1, Top), waived);
    assert [a] + [a] == [a, a];
    assert PassTo(y, p, j, 1, Top) == PassTo(x, p, j, 1, Top).(row := x.row.(status := DEAD_LETTERED));
  }

  lemma PublishScript(cfg: Config, x: Snap, p: Id, j: Job, waived: set<Overlap>)
    requires AtTop(x, p, j, Top) && ShouldRetry(cfg, j.retryCount)
    ensures Script(cfg, x, [Act(p, FINE)], PassTo(x, p, j, 0, WritePending).(queue := x.queue + multiset{j}), waived)
  {
    var a, y := Act(p, FINE), PassTo(x, p, j, 0, WritePending).(queue := x.queue + multiset{j});
    forall t | Is(t, x) ensures Moves(cfg, t, a, y, waived) {
      hide SceneOf, AnyIs;
    }
    Single(cfg, x, a, y, waived);
  }

  lemma PendScript(cfg: Config, x: Snap, p: Id, j: Job, waived: set<Overlap>)
    requires AtTop(x, p, j, WritePending)
    ensures Script(cfg, x, [Act(p, FINE)], PassTo(x, p, j, 1, Top).(row := x.row.(status := PENDING)), waived)
  {
    var a, y := Act(p, FINE), PassTo(x, p, j, 1, Top).(row := x.row.(status := PENDING));
    forall t | Is(t, x) ensures Moves(cfg, t, a, y, waived) {
      hide SceneOf, AnyIs;
    }
    Single(cfg, x, a, y, waived);
  }

  // ----- replays -----

  predicate NoneInReplay(x: Snap) {
    NoneIs(x.handlers, Restarting) && NoneIs(x.handlers, Resending) && NoneIs(x.handlers, Discarding)
  }

  function ReplayAtPoint(x: Snap, r: Id, dl: DeadLetter, at: ReplayAt): Snap {
    x.(handlers := x.handlers[r := Replayer(dl.serviceId, LETTER, at)])
  }

  predicate ReplayAtIs(x: Snap, r: Id, dl: DeadLetter, at: ReplayAt) {
    && r in x.handlers && x.handlers[r] == Replayer(dl.serviceId, LETTER, at)
    && dl.notificationId == JOB && dl.payload.Json?
  }

  lemma BeginScript(cfg: Config, x: Snap, r: Id, dl: DeadLetter, waived: set<Overlap>)
    requires InCast(r) && r !in x.handlers
    ensures Script(cfg, x, [BeginReplay(r, dl.serviceId, LETTER)], ReplayAtPoint(x, r, dl, Lookup), waived)
  {
    var a, y := BeginReplay(r, dl.serviceId, LETTER), ReplayAtPoint(x, r, dl, Lookup);
    forall t | Is(t, x) ensures Moves(cfg, t, a, y, waived) {
    }
    Single(cfg, x, a, y, waived);
  }

  lemma FoundScript(cfg: Config, x: Snap, r: Id, dl: DeadLetter, waived: set<Overlap>)
    requires ReplayAtIs(x, r, dl, Lookup) && x.letters == map[LETTER := dl]
    requires ReplayInReplay in waived || NoneInReplay(x)
    ensures Script(cfg, x, [Act(r, FINE)], ReplayAtPoint(x, r, dl, Restart(dl)), waived)
  {
    hide NoneIs;
    var a, y := Act(r, FINE), ReplayAtPoint(x, r, dl, Restart(dl));
    forall t | Is(t, x) ensures Moves(cfg, t, a, y, waived) {
      if NoneInReplay(x) {
        NoneInScene(t, x, Restarting);
        NoneInScene(t, x, Resending);
        NoneInScene(t, x, Discarding);
        NobodyReplays(SceneOf(t, JOB));
      }
      hide AnyIs, SceneOf;
    }
    Single(cfg, x, a, y, waived);
  }

  lemma LookupScript(cfg: Config, x: Snap, r: Id, dl: DeadLetter, waived: set<Overlap>)
    requires InCast(r) && r !in x.handlers && x.letters == map[LETTER := dl] && dl.notificationId == JOB
    requires dl.payload.Json?
    requires ReplayInReplay in waived || NoneInReplay(x)
    ensures Script(cfg, x, [BeginReplay(r, dl.serviceId, LETTER), Act(r, FINE)],
                   ReplayAtPoint(x, r, dl, Restart(dl)), waived)
  {
    hide Script, NoneIs, Fine.Apply;
    var a, b := BeginReplay(r, dl.serviceId, LETTER), Act(r, FINE);
    var y := ReplayAtPoint(x, r, dl, Lookup);
    if NoneInReplay(x) {
      NoneBecomes(x.handlers, r, y.handlers[r], Restarting);
      NoneBecomes(x.handlers, r, y.handlers[r], Resending);
      NoneBecomes(x.handlers, r, y.handlers[r], Discarding);
    }
    BeginScript(cfg, x, r, dl, waived);
    FoundScript(cfg, y, r, dl, waived);
    Then(cfg, x, [a], y, [b], ReplayAtPoint(y, r, dl, Restart(dl)), waived);
    assert [a] + [b] == [a, b];
    assert ReplayAtPoint(y, r, dl, Restart(dl)) == ReplayAtPoint(x, r, dl, Restart(dl));
  }

  lemma NobodyReplays(v: Scene)
    requires !AnyIs(v, Restarting) && !AnyIs(v, Resending) && !AnyIs(v, Discarding)
    ensures forall g :: g in v.parts ==> !InReplay(v.parts[g])
  {
  }

  lemma ResetScript(cfg: Config, x: Snap, r: Id, dl: DeadLetter, waived: set<Overlap>)
    requires ReplayAtIs(x, r, dl, Restart(dl)) && (ReplayInBurial in waived || NoneIs(x.handlers, Burying))
    ensures Script(cfg, x, [Act(r, FINE)],
                   ReplayAtPoint(x, r, dl, Reenqueue(dl)).(
                     row := x.row.(status := PENDING, retryCount := 0, nextRetryAt := None)),
                   waived)
  {
    var a := Act(r, FINE);
    var y := ReplayAtPoint(x, r, dl, Reenqueue(dl)).(
      row := x.row.(status := PENDING, retryCount := 0, nextRetryAt := None));
    forall t | Is(t, x) ensures Moves(cfg, t, a, y, waived) {
      NoneInScene(t, x, Burying);
      hide AnyIs;
    }
    Single(cfg, x, a, y, waived);
  }

  lemma ResendScript(cfg: Config, x: Snap, r: Id, dl: DeadLetter, waived: set<Overlap>)
    requires ReplayAtIs(x, r, dl, Reenqueue(dl))
    ensures Script(cfg, x, [Act(r, FINE)],
                   ReplayAtPoint(x, r, dl, Discard(dl)).(queue := x.queue + multiset{ReplayJob(dl)}), waived)
  {
    var a, y := Act(r, FINE), ReplayAtPoint(x, r, dl, Discard(dl)).(queue := x.queue + multiset{ReplayJob(dl)});
    forall t | Is(t, x) ensures Moves(cfg, t, a, y, waived) {
      hide AnyIs;
    }
    Single(cfg, x, a, y, waived);
  }

  // The publish is cut, as it may be when replays take turns.
  lemma CutScript(cfg: Config, x: Snap, r: Id, dl: DeadLetter, waived: set<Overlap>)
    requires ReplayAtIs(x, r, dl, Reenqueue(dl))
    ensures Leads(cfg, x, [Act(r, CallEnv(LostCall, 0, 0))], ReplayAtPoint(x, r, dl, Ended(Internal)), waived)
  {
    var a, y := Act(r, CallEnv(LostCall, 0, 0)), ReplayAtPoint(x, r, dl, Ended(Internal));
    forall t | Is(t, x) ensures Moves(cfg, t, a, y, waived) {
      hide AnyIs;
    }
    SingleLeads(cfg, x, a, y, waived);
  }

  lemma DeleteScript(cfg: Config, x: Snap, r: Id, dl: DeadLetter, waived: set<Overlap>)
    requires ReplayAtIs(x, r, dl, Discard(dl)) && forall k :: k in x.letters ==> x.letters[k].notificationId == JOB
    ensures Script(cfg, x, [Act(r, FINE)], ReplayAtPoint(x, r, dl, CountReplayed(dl)).(letters := map[]), waived)
  {
    var a, y := Act(r, FINE), ReplayAtPoint(x, r, dl, CountReplayed(dl)).(letters := map[]);
    forall t | Is(t, x) ensures Moves(cfg, t, a, y, waived) {
      hide AnyIs;
    }
    Single(cfg, x, a, y, waived);
  }

  lemma AnswerScript(cfg: Config, x: Snap, r: Id, dl: DeadLetter, waived: set<Overlap>)
    requires ReplayAtIs(x, r, dl, CountReplayed(dl))
    ensures Script(cfg, x, [Act(r, FINE)], ReplayAtPoint(x, r, dl, Ended(OK)), waived)
  {
    var a, y := Act(r, FINE), ReplayAtPoint(x, r, dl, Ended(OK));
    forall t | Is(t, x) ensures Moves(cfg, t, a, y, waived) {
      hide AnyIs;
    }
    Single(cfg, x, a, y, waived);
  }

  lemma DiscardScript(cfg: Config, x: Snap, r: Id, dl: DeadLetter, waived: set<Overlap>)
    requires ReplayAtIs(x, r, dl, Discard(dl)) && forall k :: k in x.letters ==> x.letters[k].notificationId == JOB
    ensures Script(cfg, x, [Act(r, FINE), Act(r, FINE)], ReplayAtPoint(x, r, dl, Ended(OK)).(letters := map[]), waived)
  {
    hide Script, Is;
    var a := Act(r, FINE);
    var y := ReplayAtPoint(x, r, dl, CountReplayed(dl)).(letters := map[]);
    DeleteScript(cfg, x, r, dl, waived);
    AnswerScript(cfg, y, r, dl, waived);
    Then(cfg, x, [a], y, [a], ReplayAtPoint(y, r, dl, Ended(OK)), waived);
    assert [a] + [a] == [a, a];
    assert ReplayAtPoint(y, r, dl, Ended(OK)) == ReplayAtPoint(x, r, dl, Ended(OK)).(letters := map[]);
  }

  // ----- the worker -----

  function WorkerTo(x: Snap, v: Id, m: Job, at: WorkerAt): Snap {
    x.(handlers := x.handlers[v := Worker(m, at)])
  }

  lemma WorkerMoves(cfg: Config, x: Snap, v: Id, m: Job, at: WorkerAt, waived: set<Overlap>)
    requires v in x.handlers && x.handlers[v] == Worker(m, at) && m.requestId == JOB
    requires at.Asleep? ==> DeliveryInRequeue in waived || NoneIs(x.handlers, Pending)
    ensures var row := if at.MarkDispatched? then x.row.(status := DISPATCHED)
                       else if at.Asleep? then x.row.(status := DELIVERED) else x.row;
      Script(cfg, x, [Act(v, FINE)], WorkerTo(x, v, m, NextWorker(Worker(m, at), true).worker).(row := row), waived)
  {
    hide NoneIs;
    var row := if at.MarkDispatched? then x.row.(status := DISPATCHED)
               else if at.Asleep? then x.row.(status := DELIVERED) else x.row;
    var y := WorkerTo(x, v, m, NextWorker(Worker(m, at), true).worker).(row := row);
    forall t | Is(t, x) ensures Moves(cfg, t, Act(v, FINE), y, waived) {
      NoneInScene(t, x, Pending);
      WorkerCallWrites(cfg, t, v, FINE);
      hide SceneOf, AnyIs, Acted;
    }
    Single(cfg, x, Act(v, FINE), y, waived);
  }

  lemma WorkerCallWrites(cfg: Config, t: State, v: Id, env: CallEnv)
    requires v in t.handlers && t.handlers[v].Worker? && env.outcome.Clean?
    requires t.handlers[v].message.requestId in t.db.jobs
    ensures var hd, after := t.handlers[v], Acted(cfg, t, v, env);
      var id := hd.message.requestId;
      && after.queue == t.queue && after.db.letters == t.db.letters && after.db.services == t.db.services
      && after.handlers == t.handlers[v := NextWorker(hd, true)]
      && after.db.jobs == if hd.worker.MarkDispatched? then t.db.jobs[id := t.db.jobs[id].(status := DISPATCHED)]
                          else if hd.worker.Asleep? then t.db.jobs[id := t.db.jobs[id].(status := DELIVERED)]
                          else t.db.jobs
  {
    var hd := t.handlers[v];
    if !Succeeds(t.db, CallOf(cfg, hd, env), Clean) {
      assert NextWorker(hd, false) == NextWorker(hd, true);
    }
  }

  lemma ReceiveScript(cfg: Config, x: Snap, v: Id, m: Job, waived: set<Overlap>)
    requires InCast(v) && v !in x.handlers && m in x.queue
    ensures Script(cfg, x, [Receive(v, m)], WorkerTo(x, v, m, MarkDispatched).(queue := x.queue - multiset{m}), waived)
  {
    var a, y := Receive(v, m), WorkerTo(x, v, m, MarkDispatched).(queue := x.queue - multiset{m});
    forall t | Is(t, x) ensures Moves(cfg, t, a, y, waived) {
    }
    Single(cfg, x, a, y, waived);
  }

  function DeliveryActs(v: Id, m: Job): seq<Action> {
    [Receive(v, m)] + ([Act(v, FINE)] + ([Act(v, FINE)] + ([Act(v, FINE)] + [Act(v, FINE)])))
  }

  // From the queue to DELIVERED, with the worker gone.
  lemma DeliveryScript(cfg: Config, x: Snap, v: Id, m: Job, waived: set<Overlap>)
    requires InCast(v) && v !in x.handlers && m in x.queue && m.requestId == JOB
    requires DeliveryInRequeue in waived || NoneIs(x.handlers, Pending)
    ensures Script(cfg, x, DeliveryActs(v, m),
                   WorkerTo(x, v, m, Gone).(queue := x.queue - multiset{m}, row := x.row.(status := DELIVERED)), waived)
  {
    hide Script, NoneIs, Fine.Apply, Fine.Run;
    var a := [Act(v, FINE)];
    var x0 := WorkerTo(x, v, m, MarkDispatched).(queue := x.queue - multiset{m});
    var x1 := WorkerTo(x0, v, m, CountDispatched).(row := x.row.(status := DISPATCHED));
    var x2 := WorkerTo(x1, v, m, Asleep);
    var x3 := WorkerTo(x2, v, m, CountDelivered).(row := x.row.(status := DELIVERED));
    var x4 := WorkerTo(x3, v, m, Gone);
    if NoneIs(x.handlers, Pending) {
      NoneBecomes(x.handlers, v, Worker(m, MarkDispatched), Pending);
      NoneBecomes(x0.handlers, v, Worker(m, CountDispatched), Pending);
      NoneBecomes(x1.handlers, v, Worker(m, Asleep), Pending);
    }
    ReceiveScript(cfg, x, v, m, waived);
    WorkerMoves(cfg, x0, v, m, MarkDispatched, waived);
    WorkerMoves(cfg, x1, v, m, CountDispatched, waived);
    WorkerMoves(cfg, x2, v, m, Asleep, waived);
    WorkerMoves(cfg, x3, v, m, CountDelivered, waived);
    Then(cfg, x2, a, x3, a, x4, waived);
    Then(cfg, x1, a, x2, a + a, x4, waived);
    Then(cfg, x0, a, x1, a + (a + a), x4, waived);
    Then(cfg, x, [Receive(v, m)], x0, a + (a + (a + a)), x4, waived);
    assert x4 == WorkerTo(x, v, m, Gone).(queue := x.queue - multiset{m}, row := x.row.(status := DELIVERED));
  }

  // A replay that looked its letter up resets and publishes, and the message is
  // delivered.
  function Redelivered(x: Snap, r: Id, v: Id, dl: DeadLetter): Snap {
    WorkerTo(ReplayAtPoint(x, r, dl, Discard(dl)), v, ReplayJob(dl), Gone).(
      row := x.row.(status := DELIVERED, retryCount := 0, nextRetryAt := None))
  }

  function RedeliveryActs(r: Id, v: Id, dl: DeadLetter): seq<Action> {
    [Act(r, FINE)] + ([Act(r, FINE)] + DeliveryActs(v, ReplayJob(dl)))
  }

  lemma RedeliveryScript(cfg: Config, x: Snap, r: Id, v: Id, dl: DeadLetter, waived: set<Overlap>)
    requires InCast(v) && v !in x.handlers && ReplayAtIs(x, r, dl, Restart(dl))
    requires ReplayInBurial in waived || NoneIs(x.handlers, Burying)
    requires NoneIs(x.handlers, Pending)
    ensures Script(cfg, x, RedeliveryActs(r, v, dl), Redelivered(x, r, v, dl), waived)
  {
    hide Script, NoneIs, Fine.Apply, Fine.Run;
    var m := ReplayJob(dl);
    var x1 := ReplayAtPoint(x, r, dl, Reenqueue(dl)).(
      row := x.row.(status := PENDING, retryCount := 0, nextRetryAt := None));
    var x2 := ReplayAtPoint(x1, r, dl, Discard(dl)).(queue := x.queue + multiset{m});
    var x3 := WorkerTo(x2, v, m, Gone).(queue := x2.queue - multiset{m}, row := x2.row.(status := DELIVERED));
    NoneBecomes(x.handlers, r, x1.handlers[r], Pending);
    NoneBecomes(x1.handlers, r, x2.handlers[r], Pending);
    ResetScript(cfg, x, r, dl, waived);
    ResendScript(cfg, x1, r, dl, waived);
    DeliveryScript(cfg, x2, v, m, waived);
    Then(cfg, x1, [Act(r, FINE)], x2, DeliveryActs(v, m), x3, waived);
    Then(cfg, x, [Act(r, FINE)], x1, [Act(r, FINE)] + DeliveryActs(v, m), x3, waived);
    assert x2.queue - multiset{m} == x.queue;
    assert x3 == Redelivered(x, r, v, dl);
  }

  // ----- a job that has failed n times -----

  function Body(svc: Id): Job {
    NewJob(svc, None, JOB)
  }

  function Begun(svc: Id, services: map<Id, Service>, send: SendAt): Snap {
    Snap(Body(svc), map[], multiset{}, map[SENDER := Sender(svc, None, JOB, send)], services)
  }

  lemma CreateRun(cfg: Config, s: State, svc: Id, waived: set<Overlap>)
    requires Fresh(s) && svc in s.db.services && svc != NO_ID
    ensures var acts := [BeginSend(SENDER, svc, None, JOB), Act(SENDER, FINE)];
      && Is(Fine.Run(cfg, s, acts), Begun(svc, s.db.services, CountAccepted))
      && KeptApart(cfg, s, acts, JOB, true, waived)
  {
    var a, b := BeginSend(SENDER, svc, None, JOB), Act(SENDER, FINE);
    var t := Fine.Apply(cfg, s, a);
    var end := Fine.Apply(cfg, t, b);
    assert t.handlers == map[SENDER := Sender(svc, None, JOB, Create)];
    assert end.handlers == map[SENDER := Sender(svc, None, JOB, CountAccepted)];
    assert end.db.jobs == map[JOB := Body(svc)];
    assert [a, b][1..] == [b] && [b][1..] == [];
    assert MayAct(cfg, t, SENDER, FINE, JOB, true, waived);
    assert KeptApart(cfg, end, [], JOB, true, waived);
    assert KeptApart(cfg, t, [b], JOB, true, waived);
    assert Fine.Run(cfg, t, [b]) == end;
    hide MayAct;
  }

  function SenderTo(x: Snap, svc: Id, send: SendAt): Snap {
    x.(handlers := x.handlers[SENDER := Sender(svc, None, JOB, send)])
  }

  lemma SenderMoves(cfg: Config, x: Snap, svc: Id, waived: set<Overlap>)
    requires SENDER in x.handlers
    requires x.handlers[SENDER] == Sender(svc, None, JOB, CountAccepted)
          || x.handlers[SENDER] == Sender(svc, None, JOB, Enqueue)
    ensures Script(cfg, x, [Act(SENDER, FINE)],
                   if x.handlers[SENDER].send.CountAccepted? then SenderTo(x, svc, Enqueue)
                   else SenderTo(x, svc, Answered(OK)).(queue := x.queue + multiset{Body(svc)}), waived)
  {
    var a := Act(SENDER, FINE);
    var y := if x.handlers[SENDER].send.CountAccepted? then SenderTo(x, svc, Enqueue)
             else SenderTo(x, svc, Answered(OK)).(queue := x.queue + multiset{Body(svc)});
    forall t | Is(t, x) ensures Moves(cfg, t, a, y, waived) {
      hide SceneOf, AnyIs;
    }
    Single(cfg, x, a, y, waived);
  }

  lemma SendScript(cfg: Config, svc: Id, services: map<Id, Service>, waived: set<Overlap>)
    ensures var a := Act(SENDER, FINE);
      Script(cfg, Begun(svc, services, CountAccepted), [a, a],
             Begun(svc, services, Answered(OK)).(queue := multiset{Body(svc)}), waived)
  {
    hide Script, Fine.Apply;
    var a := Act(SENDER, FINE);
    var x := Begun(svc, services, CountAccepted);
    var y := SenderTo(x, svc, Enqueue);
    var z := SenderTo(y, svc, Answered(OK)).(queue := y.queue + multiset{Body(svc)});
    SenderMoves(cfg, x, svc, waived);
    SenderMoves(cfg, y, svc, waived);
    Then(cfg, x, [a], y, [a], z, waived);
    assert [a] + [a] == [a, a];
    assert z == Begun(svc, services, Answered(OK)).(queue := multiset{Body(svc)});
  }

  function Fails(n: nat): seq<Action> {
    if n == 0 then [] else [FailAction(JOB, 0, Clean)] + Fails(n - 1)
  }

  lemma {:induction false} FailScript(cfg: Config, x: Snap, n: nat, waived: set<Overlap>)
    requires n >= 1 && x.row.retryCount + n <= MAX_INT32
    ensures Script(cfg, x, Fails(n),
                   x.(row := x.row.(status := FAILED, retryCount := x.row.retryCount + n, nextRetryAt := Some(0))),
                   waived)
    decreases n
  {
    var a := FailAction(JOB, 0, Clean);
    var y := x.(row := x.row.(status := FAILED, retryCount := x.row.retryCount + 1, nextRetryAt := Some(0)));
    forall t | Is(t, x) ensures Moves(cfg, t, a, y, waived) {
    }
    Single(cfg, x, a, y, waived);
    if n > 1 {
      FailScript(cfg, y, n - 1, waived);
      hide Script;
      Then(cfg, x, [a], y, Fails(n - 1),
           x.(row := x.row.(status := FAILED, retryCount := x.row.retryCount + n, nextRetryAt := Some(0))), waived);
    } else {
      assert Fails(n) == [a];
    }
  }

  // Sent, delivered, and failed n times since.
  function Failed(svc: Id, services: map<Id, Service>, n: nat): Snap {
    Snap(Body(svc).(status := FAILED, retryCount := n, nextRetryAt := Some(0)), map[], multiset{},
         map[SENDER := Sender(svc, None, JOB, Answered(OK)), FIRST := Worker(Body(svc), Gone)], services)
  }

  // The run s, acts ends in y, with no overlap but the waived ones.
  ghost predicate Reaches(cfg: Config, s: State, acts: seq<Action>, y: Snap, waived: set<Overlap>) {
    CleanRun(acts) && Is(Fine.Run(cfg, s, acts), y) && KeptApart(cfg, s, acts, JOB, true, waived)
  }

  lemma Follows(cfg: Config, s: State, a: seq<Action>, y: Snap, b: seq<Action>, z: Snap, waived: set<Overlap>)
    requires Reaches(cfg, s, a, y, waived) && Leads(cfg, y, b, z, waived)
    ensures Is(Fine.Run(cfg, s, a + b), z) && KeptApart(cfg, s, a + b, JOB, true, waived)
  {
    hide Is, KeptApart, Fine.Run;
    RunConcat(cfg, s, a, b);
    ApartConcat(cfg, s, a, b, waived);
  }

  lemma Onwards(cfg: Config, s: State, a: seq<Action>, y: Snap, b: seq<Action>, z: Snap, waived: set<Overlap>)
    requires Reaches(cfg, s, a, y, waived) && Script(cfg, y, b, z, waived)
    ensures Reaches(cfg, s, a + b, z, waived)
  {
    Follows(cfg, s, a, y, b, z, waived);
    hide Is, KeptApart, Fine.Run, Leads;
  }

  lemma FailedReached(cfg: Config, s: State, svc: Id, n: nat, waived: set<Overlap>) returns (acts: seq<Action>)
    requires Fresh(s) && svc in s.db.services && svc != NO_ID && 1 <= n <= MAX_INT32
    ensures Reaches(cfg, s, acts, Failed(svc, s.db.services, n), waived)
  {
    hide Script, Fine.Run, KeptApart, Fresh;
    CreateRun(cfg, s, svc, waived);
    acts := [BeginSend(SENDER, svc, None, JOB), Act(SENDER, FINE)];
    assert Reaches(cfg, s, acts, Begun(svc, s.db.services, CountAccepted), waived);
    hide Reaches, Is;
    var x := Begun(svc, s.db.services, Answered(OK)).(queue := multiset{Body(svc)});
    SendScript(cfg, svc, s.db.services, waived);
    Onwards(cfg, s, acts, Begun(svc, s.db.services, CountAccepted), [Act(SENDER, FINE), Act(SENDER, FINE)], x, waived);
    acts := acts + [Act(SENDER, FINE), Act(SENDER, FINE)];
    var y := WorkerTo(x, FIRST, Body(svc), Gone).(
      queue := x.queue - multiset{Body(svc)}, row := x.row.(status := DELIVERED));
    DeliveryScript(cfg, x, FIRST, Body(svc), waived);
    Onwards(cfg, s, acts, x, DeliveryActs(FIRST, Body(svc)), y, waived);
    acts := acts + DeliveryActs(FIRST, Body(svc));
    FailScript(cfg, y, n, waived);
    var z := y.(row := y.row.(status := FAILED, retryCount := n, nextRetryAt := Some(0)));
    Onwards(cfg, s, acts, y, Fails(n), z, waived);
    acts := acts + Fails(n);
    assert z == Failed(svc, s.db.services, n);
  }

  predicate NoReplayOut(cast: map<Id, Handler>) {
    NoneIs(cast, Resending) && NoneIs(cast, Discarding)
  }

  lemma FailedIsQuiet(svc: Id, services: map<Id, Service>, n: nat)
    ensures NoReplayOut(Failed(svc, services, n).handlers)
  {
  }

  lemma PassesDoNotReplay(cast: map<Id, Handler>, h: Id, hd: Handler)
    requires NoReplayOut(cast) && hd.Pass?
    ensures NoReplayOut(cast[h := hd])
  {
  }

  // ----- each overlap alone loses a job -----

  // Lost, with this for its last status.
  ghost predicate LostAt(s: State, id: Id, status: Status) {
    Lost(s, id) && s.db.jobs[id].status == status
  }

  lemma IsLost(t: State, y: Snap)
    requires Is(t, y) && y.letters == map[] && y.queue == multiset{} && !Settled(y.row)
    requires Over(y, SENDER) && Over(y, FIRST) && Over(y, PASS) && Over(y, REPLAY) && Over(y, SECOND) && Over(y, OTHER)
    ensures LostAt(t, JOB, y.row.status)
  {
  }

  lemma Extend(cfg: Config, s: State, acts: seq<Action>, x: Snap, more: seq<Action>, y: Snap, waived: set<Overlap>)
    returns (all: seq<Action>)
    requires Reaches(cfg, s, acts, x, waived) && Script(cfg, x, more, y, waived)
    ensures all == acts + more && Reaches(cfg, s, all, y, waived)
  {
    Onwards(cfg, s, acts, x, more, y, waived);
    all := acts + more;
  }

  // The failures that spend the budget.
  function Spent(cfg: Config): nat {
    if cfg.maxAttempts < 1 then 1 else cfg.maxAttempts
  }

  // Without a fault: a delivery is written between the publish and the PENDING
  // write.
  lemma DeliveryInRequeueLoses(cfg: Config, s: State, svc: Id) returns (acts: seq<Action>)
    requires Fresh(s) && svc in s.db.services && svc != NO_ID && cfg.maxAttempts >= 2
    ensures CleanRun(acts) && KeptApart(cfg, s, acts, JOB, true, {DeliveryInRequeue})
    ensures LostAt(Fine.Run(cfg, s, acts), JOB, PENDING)
  {
    hide Reaches, Script, Fine.Run, KeptApart, LostAt, Fresh, NextWorker;
    var w, x := {DeliveryInRequeue}, Failed(svc, s.db.services, 1);
    var j := x.row;
    acts := FailedReached(cfg, s, svc, 1, w);
    PollScript(cfg, x, PASS, w);
    var x1 := PassTo(x, PASS, j, 0, Top);
    acts := Extend(cfg, s, acts, x, [Poll(PASS, [j], 0)], x1, w);
    PublishScript(cfg, x1, PASS, j, w);
    var x2 := PassTo(x1, PASS, j, 0, WritePending).(queue := x1.queue + multiset{j});
    acts := Extend(cfg, s, acts, x1, [Act(PASS, FINE)], x2, w);
    DeliveryScript(cfg, x2, SECOND, j, w);
    var x3 := WorkerTo(x2, SECOND, j, Gone).(queue := x2.queue - multiset{j}, row := x2.row.(status := DELIVERED));
    acts := Extend(cfg, s, acts, x2, DeliveryActs(SECOND, j), x3, w);
    PendScript(cfg, x3, PASS, j, w);
    var x4 := PassTo(x3, PASS, j, 1, Top).(row := x3.row.(status := PENDING));
    acts := Extend(cfg, s, acts, x3, [Act(PASS, FINE)], x4, w);
    AllDone(cfg, s, acts, x4, w);
  }

  // The exhausted job, its letter, and the one it leaves behind.
  function Exhausted(cfg: Config, svc: Id): Job {
    Body(svc).(status := FAILED, retryCount := Spent(cfg), nextRetryAt := Some(0))
  }

  function Left(cfg: Config, svc: Id): DeadLetter {
    LetterFor(Exhausted(cfg, svc), LETTER, 0)
  }

  // A pass has buried the job; another may hold a snapshot of it still.
  function Buried(cfg: Config, svc: Id, services: map<Id, Service>, twice: bool): Snap {
    var cast := map[SENDER := Sender(svc, None, JOB, Answered(OK)), FIRST := Worker(Body(svc), Gone),
                    PASS := Pass([Exhausted(cfg, svc)], 1, Top)];
    Snap(Exhausted(cfg, svc).(status := DEAD_LETTERED), map[LETTER := Left(cfg, svc)], multiset{},
         if twice then cast[OTHER := Pass([Exhausted(cfg, svc)], 0, Top)] else cast, services)
  }

  lemma BuriedFacts(cfg: Config, svc: Id, services: map<Id, Service>, twice: bool)
    ensures var x := Buried(cfg, svc, services, twice);
      && REPLAY !in x.handlers && SECOND !in x.handlers
      && x.letters == map[LETTER := Left(cfg, svc)] && x.queue == multiset{}
  {
  }

  // None of them is at work.
  lemma BuriedIsQuiet(cfg: Config, svc: Id, services: map<Id, Service>, twice: bool)
    ensures var x := Buried(cfg, svc, services, twice);
      NoneInReplay(x) && Unwritten(x.handlers)
  {
  }

  lemma CastFacts(cfg: Config, svc: Id)
    ensures var j, dl := Exhausted(cfg, svc), Left(cfg, svc);
      && j.requestId == JOB && j.payload.Json? && j.serviceId == svc && !ShouldRetry(cfg, j.retryCount)
      && dl == LetterFor(j, LETTER, 0) && dl.notificationId == JOB && dl.payload.Json? && dl.serviceId == svc
  {
  }

  // Its letter stored, its status not yet written.
  function Stored(cfg: Config, svc: Id, services: map<Id, Service>, twice: bool): Snap {
    var j := Exhausted(cfg, svc);
    var cast := map[SENDER := Sender(svc, None, JOB, Answered(OK)), FIRST := Worker(Body(svc), Gone),
                    PASS := Pass([j], 0, WriteDeadLettered)];
    Snap(j, map[LETTER := Left(cfg, svc)], multiset{},
         if twice then cast[OTHER := Pass([j], 0, Top)] else cast, services)
  }

  lemma StoredIsQuiet(cfg: Config, svc: Id, services: map<Id, Service>)
    ensures var x := Stored(cfg, svc, services, false);
      && NoneInReplay(x) && NoneIs(x.handlers, Pending)
      && REPLAY !in x.handlers && SECOND !in x.handlers
      && x.letters == map[LETTER := Left(cfg, svc)] && x.queue == multiset{}
  {
  }

  lemma StoredReached(cfg: Config, s: State, svc: Id, twice: bool, w: set<Overlap>) returns (acts: seq<Action>)
    requires Fresh(s) && svc in s.db.services && svc != NO_ID && cfg.dlq && cfg.maxAttempts <= MAX_INT32
    ensures Reaches(cfg, s, acts, Stored(cfg, svc, s.db.services, twice), w)
  {
    hide Reaches, Script, Fine.Run, KeptApart, Fresh, NoneIs, PartOf, At, Is;
    var x := Failed(svc, s.db.services, Spent(cfg));
    var j, dl := x.row, Left(cfg, svc);
    acts := FailedReached(cfg, s, svc, Spent(cfg), w);
    FailedIsQuiet(svc, s.db.services, Spent(cfg));
    if twice {
      PollScript(cfg, x, OTHER, w);
      var y := PassTo(x, OTHER, j, 0, Top);
      PassesDoNotReplay(x.handlers, OTHER, y.handlers[OTHER]);
      acts := Extend(cfg, s, acts, x, [Poll(OTHER, [j], 0)], y, w);
      x := y;
    }
    PollScript(cfg, x, PASS, w);
    var x1 := PassTo(x, PASS, j, 0, Top);
    PassesDoNotReplay(x.handlers, PASS, x1.handlers[PASS]);
    acts := Extend(cfg, s, acts, x, [Poll(PASS, [j], 0)], x1, w);
    StoreScript(cfg, x1, PASS, j, w);
    var x2 := PassTo(x1, PASS, j, 0, WriteDeadLettered).(letters := map[LETTER := dl]);
    acts := Extend(cfg, s, acts, x1, [Act(PASS, FINE)], x2, w);
    assert x2 == Stored(cfg, svc, s.db.services, twice);
  }

  lemma BuriedReached(cfg: Config, s: State, svc: Id, twice: bool, w: set<Overlap>) returns (acts: seq<Action>)
    requires Fresh(s) && svc in s.db.services && svc != NO_ID && cfg.dlq && cfg.maxAttempts <= MAX_INT32
    ensures Reaches(cfg, s, acts, Buried(cfg, svc, s.db.services, twice), w)
  {
    hide Reaches, Script, Fine.Run, KeptApart, Fresh, NoneIs, PartOf, At, Is;
    var x, j := Stored(cfg, svc, s.db.services, twice), Exhausted(cfg, svc);
    acts := StoredReached(cfg, s, svc, twice, w);
    BuryScript(cfg, x, PASS, j, w);
    var x1 := PassTo(x, PASS, j, 1, Top).(row := x.row.(status := DEAD_LETTERED));
    acts := Extend(cfg, s, acts, x, [Act(PASS, FINE), Act(PASS, FINE)], x1, w);
    assert x1 == Buried(cfg, svc, s.db.services, twice);
  }

  // Without a fault: a replay and its delivery run between the letter and the
  // DEAD_LETTERED write.
  lemma ReplayInBurialLoses(cfg: Config, s: State, svc: Id) returns (acts: seq<Action>)
    requires Fresh(s) && svc in s.db.services && svc != NO_ID && cfg.dlq && cfg.maxAttempts <= MAX_INT32
    ensures CleanRun(acts) && KeptApart(cfg, s, acts, JOB, true, {ReplayInBurial})
    ensures LostAt(Fine.Run(cfg, s, acts), JOB, DEAD_LETTERED)
  {
    CastFacts(cfg, svc);
    StoredIsQuiet(cfg, svc, s.db.services);
    hide Reaches, Script, Fine.Run, KeptApart, LostAt, Fresh, NextWorker;
    hide Is, NoneIs, PartOf, At, Left, Exhausted, LetterFor, ShouldRetry;
    var w, j, dl := {ReplayInBurial}, Exhausted(cfg, svc), Left(cfg, svc);
    var x := Stored(cfg, svc, s.db.services, false);
    acts := StoredReached(cfg, s, svc, false, w);
    LookupScript(cfg, x, REPLAY, dl, w);
    var x1 := ReplayAtPoint(x, REPLAY, dl, Restart(dl));
    StaysNone(x.handlers, REPLAY, x1.handlers[REPLAY]);
    acts := Extend(cfg, s, acts, x, [BeginReplay(REPLAY, dl.serviceId, LETTER), Act(REPLAY, FINE)], x1, w);
    RedeliveryScript(cfg, x1, REPLAY, SECOND, dl, w);
    var x2 := Redelivered(x1, REPLAY, SECOND, dl);
    acts := Extend(cfg, s, acts, x1, RedeliveryActs(REPLAY, SECOND, dl), x2, w);
    DiscardScript(cfg, x2, REPLAY, dl, w);
    var x3 := ReplayAtPoint(x2, REPLAY, dl, Ended(OK)).(letters := map[]);
    acts := Extend(cfg, s, acts, x2, [Act(REPLAY, FINE), Act(REPLAY, FINE)], x3, w);
    BuryScript(cfg, x3, PASS, j, w);
    var x4 := PassTo(x3, PASS, j, 1, Top).(row := x3.row.(status := DEAD_LETTERED));
    acts := Extend(cfg, s, acts, x3, [Act(PASS, FINE), Act(PASS, FINE)], x4, w);
    AllDone(cfg, s, acts, x4, w);
  }

  // The letter is looked up, the job reset, published and delivered; the replay
  // has yet to delete the letter, and the other pass has not come to the job.
  function Midway(cfg: Config, svc: Id, services: map<Id, Service>): Snap {
    var j := Exhausted(cfg, svc);
    var x := Buried(cfg, svc, services, true);
    Redelivered(ReplayAtPoint(x, REPLAY, Left(cfg, svc), Restart(Left(cfg, svc))), REPLAY, SECOND, Left(cfg, svc))
  }

  lemma MidwayReached(cfg: Config, s: State, svc: Id, w: set<Overlap>) returns (acts: seq<Action>)
    requires Fresh(s) && svc in s.db.services && svc != NO_ID && cfg.dlq && cfg.maxAttempts <= MAX_INT32
    ensures Reaches(cfg, s, acts, Midway(cfg, svc, s.db.services), w)
  {
    CastFacts(cfg, svc);
    BuriedFacts(cfg, svc, s.db.services, true);
    BuriedIsQuiet(cfg, svc, s.db.services, true);
    hide Reaches, Script, Fine.Run, KeptApart, Fresh, NextWorker;
    hide NoneIs, Buried, Left, Exhausted, LetterFor, ShouldRetry;
    var j, dl := Exhausted(cfg, svc), Left(cfg, svc);
    var x := Buried(cfg, svc, s.db.services, true);
    acts := BuriedReached(cfg, s, svc, true, w);
    LookupScript(cfg, x, REPLAY, dl, w);
    var x1 := ReplayAtPoint(x, REPLAY, dl, Restart(dl));
    StaysUnwritten(x.handlers, REPLAY, x1.handlers[REPLAY]);
    acts := Extend(cfg, s, acts, x, [BeginReplay(REPLAY, dl.serviceId, LETTER), Act(REPLAY, FINE)], x1, w);
    RedeliveryScript(cfg, x1, REPLAY, SECOND, dl, w);
    acts := Extend(cfg, s, acts, x1, RedeliveryActs(REPLAY, SECOND, dl), Redelivered(x1, REPLAY, SECOND, dl), w);
  }

  // Without a fault: a pass with a second snapshot buries the job again, its
  // letter absorbed, between the delivery of a replay's message and its delete.
  // The step that strands is the delete.
  lemma BurialInReplayLoses(cfg: Config, s: State, svc: Id) returns (acts: seq<Action>)
    requires Fresh(s) && svc in s.db.services && svc != NO_ID && cfg.dlq && cfg.maxAttempts <= MAX_INT32
    ensures CleanRun(acts) && KeptApart(cfg, s, acts, JOB, true, {BurialInReplay})
    ensures LostAt(Fine.Run(cfg, s, acts), JOB, DEAD_LETTERED)
  {
    CastFacts(cfg, svc);
    hide Reaches, Script, Fine.Run, KeptApart, LostAt, Fresh;
    hide NextWorker, PartOf, NoneIs, Left, Exhausted, LetterFor, ShouldRetry;
    var w, j, dl := {BurialInReplay}, Exhausted(cfg, svc), Left(cfg, svc);
    var x := Midway(cfg, svc, s.db.services);
    acts := MidwayReached(cfg, s, svc, w);
    StoreScript(cfg, x, OTHER, j, w);
    var x1 := PassTo(x, OTHER, j, 0, WriteDeadLettered);
    acts := Extend(cfg, s, acts, x, [Act(OTHER, FINE)], x1, w);
    BuryScript(cfg, x1, OTHER, j, w);
    var x2 := PassTo(x1, OTHER, j, 1, Top).(row := x1.row.(status := DEAD_LETTERED));
    acts := Extend(cfg, s, acts, x1, [Act(OTHER, FINE), Act(OTHER, FINE)], x2, w);
    DiscardScript(cfg, x2, REPLAY, dl, w);
    var x3 := ReplayAtPoint(x2, REPLAY, dl, Ended(OK)).(letters := map[]);
    acts := Extend(cfg, s, acts, x2, [Act(REPLAY, FINE), Act(REPLAY, FINE)], x3, w);
    AllDone(cfg, s, acts, x3, w);
  }

  // Two replays have looked the letter up.
  function BothFound(cfg: Config, svc: Id, services: map<Id, Service>): Snap {
    var dl := Left(cfg, svc);
    ReplayAtPoint(ReplayAtPoint(Buried(cfg, svc, services, false), REPLAY, dl, Restart(dl)), OTHER, dl, Restart(dl))
  }

  lemma BothFoundReached(cfg: Config, s: State, svc: Id, w: set<Overlap>) returns (acts: seq<Action>)
    requires Fresh(s) && svc in s.db.services && svc != NO_ID && cfg.dlq && cfg.maxAttempts <= MAX_INT32
    requires ReplayInReplay in w
    ensures Reaches(cfg, s, acts, BothFound(cfg, svc, s.db.services), w)
    ensures Unwritten(BothFound(cfg, svc, s.db.services).handlers)
  {
    CastFacts(cfg, svc);
    BuriedIsQuiet(cfg, svc, s.db.services, false);
    hide Reaches, Script, Fine.Run, KeptApart, Fresh, NoneIs, PartOf, Is, Left, Exhausted, LetterFor;
    var dl := Left(cfg, svc);
    var x := Buried(cfg, svc, s.db.services, false);
    acts := BuriedReached(cfg, s, svc, false, w);
    LookupScript(cfg, x, REPLAY, dl, w);
    var x1 := ReplayAtPoint(x, REPLAY, dl, Restart(dl));
    StaysUnwritten(x.handlers, REPLAY, x1.handlers[REPLAY]);
    acts := Extend(cfg, s, acts, x, [BeginReplay(REPLAY, dl.serviceId, LETTER), Act(REPLAY, FINE)], x1, w);
    LookupScript(cfg, x1, OTHER, dl, w);
    var x2 := ReplayAtPoint(x1, OTHER, dl, Restart(dl));
    StaysUnwritten(x1.handlers, OTHER, x2.handlers[OTHER]);
    acts := Extend(cfg, s, acts, x1, [BeginReplay(OTHER, dl.serviceId, LETTER), Act(OTHER, FINE)], x2, w);
  }

  // One of them has run to its end, its message delivered.
  function OneEnded(cfg: Config, svc: Id, services: map<Id, Service>): Snap {
    var dl := Left(cfg, svc);
    var x := Redelivered(BothFound(cfg, svc, services), REPLAY, SECOND, dl);
    ReplayAtPoint(x, REPLAY, dl, Ended(OK)).(letters := map[])
  }

  lemma OneEndedReached(cfg: Config, s: State, svc: Id, w: set<Overlap>) returns (acts: seq<Action>)
    requires Fresh(s) && svc in s.db.services && svc != NO_ID && cfg.dlq && cfg.maxAttempts <= MAX_INT32
    requires ReplayInReplay in w
    ensures Reaches(cfg, s, acts, OneEnded(cfg, svc, s.db.services), w)
    ensures Unwritten(OneEnded(cfg, svc, s.db.services).handlers)
  {
    CastFacts(cfg, svc);
    hide Reaches, Script, Fine.Run, KeptApart, Fresh, NextWorker, NoneIs, PartOf, Is, Left, Exhausted, LetterFor;
    var dl := Left(cfg, svc);
    var x := BothFound(cfg, svc, s.db.services);
    acts := BothFoundReached(cfg, s, svc, w);
    RedeliveryScript(cfg, x, REPLAY, SECOND, dl, w);
    var x1 := Redelivered(x, REPLAY, SECOND, dl);
    StaysUnwritten(x.handlers, REPLAY, x1.handlers[REPLAY]);
    StaysUnwritten(x.handlers[REPLAY := x1.handlers[REPLAY]], SECOND, x1.handlers[SECOND]);
    acts := Extend(cfg, s, acts, x, RedeliveryActs(REPLAY, SECOND, dl), x1, w);
    DiscardScript(cfg, x1, REPLAY, dl, w);
    var x2 := ReplayAtPoint(x1, REPLAY, dl, Ended(OK)).(letters := map[]);
    StaysUnwritten(x1.handlers, REPLAY, x2.handlers[REPLAY]);
    acts := Extend(cfg, s, acts, x1, [Act(REPLAY, FINE), Act(REPLAY, FINE)], x2, w);
  }

  // With one cut: of two replays that looked the letter up, one runs to its end
  // and its message is delivered, and the other is cut after its reset.
  lemma ReplayInReplayLoses(cfg: Config, s: State, svc: Id) returns (acts: seq<Action>)
    requires Fresh(s) && svc in s.db.services && svc != NO_ID && cfg.dlq && cfg.maxAttempts <= MAX_INT32
    ensures acts != [] && CleanRun(acts[..|acts| - 1]) && !IsClean(acts[|acts| - 1])
    ensures KeptApart(cfg, s, acts, JOB, true, {ReplayInReplay})
    ensures LostAt(Fine.Run(cfg, s, acts), JOB, PENDING)
  {
    CastFacts(cfg, svc);
    hide Reaches, Script, Leads, Fine.Run, KeptApart, LostAt, Fresh, CleanRun, NoneIs, PartOf, Is;
    hide Left, Exhausted, LetterFor;
    var w, dl := {ReplayInReplay}, Left(cfg, svc);
    var x := OneEnded(cfg, svc, s.db.services);
    acts := OneEndedReached(cfg, s, svc, w);
    ResetScript(cfg, x, OTHER, dl, w);
    var x1 := ReplayAtPoint(x, OTHER, dl, Reenqueue(dl)).(
      row := x.row.(status := PENDING, retryCount := 0, nextRetryAt := None));
    acts := Extend(cfg, s, acts, x, [Act(OTHER, FINE)], x1, w);
    CutScript(cfg, x1, OTHER, dl, w);
    var x2 := ReplayAtPoint(x1, OTHER, dl, Ended(Internal));
    acts := CutOff(cfg, s, acts, x1, Act(OTHER, CallEnv(LostCall, 0, 0)), x2, w);
  }

  lemma CutOff(cfg: Config, s: State, acts: seq<Action>, x: Snap, cut: Action, y: Snap, w: set<Overlap>)
    returns (all: seq<Action>)
    requires Reaches(cfg, s, acts, x, w) && Leads(cfg, x, [cut], y, w) && !IsClean(cut)
    requires y.letters == map[] && y.queue == multiset{} && !Settled(y.row)
    requires Over(y, SENDER) && Over(y, FIRST) && Over(y, PASS) && Over(y, REPLAY) && Over(y, SECOND) && Over(y, OTHER)
    ensures all != [] && CleanRun(all[..|all| - 1]) && !IsClean(all[|all| - 1])
    ensures KeptApart(cfg, s, all, JOB, true, w) && LostAt(Fine.Run(cfg, s, all), JOB, y.row.status)
  {
    all := acts + [cut];
    Follows(cfg, s, acts, x, [cut], y, w);
    IsLost(Fine.Run(cfg, s, all), y);
    assert all[..|all| - 1] == acts;
  }

  lemma AllDone(cfg: Config, s: State, acts: seq<Action>, y: Snap, waived: set<Overlap>)
    requires Reaches(cfg, s, acts, y, waived) && y.letters == map[] && y.queue == multiset{} && !Settled(y.row)
    requires Over(y, SENDER) && Over(y, FIRST) && Over(y, PASS) && Over(y, REPLAY) && Over(y, SECOND) && Over(y, OTHER)
    ensures CleanRun(acts) && KeptApart(cfg, s, acts, JOB, true, waived)
    ensures LostAt(Fine.Run(cfg, s, acts), JOB, y.row.status)
  {
    IsLost(Fine.Run(cfg, s, acts), y);
  }

  predicate Over(y: Snap, h: Id) {
    h in y.handlers ==> DoneWith(y.handlers[h])
  }

  // The handler has come to its end.
  predicate DoneWith(hd: Handler) {
    match hd
    case Pass(batch, i, _) => i >= |batch|
    case Replayer(_, _, replay) => replay.Ended?
    case Worker(_, worker) => worker.Gone?
    case Sender(_, _, _, send) => send.Answered?
  }

  // ----- exactly these -----

  lemma {:induction false} WaivingMore(cfg: Config, s: State, acts: seq<Action>, id: Id, few: set<Overlap>,
                                       more: set<Overlap>)
    requires few <= more && KeptApart(cfg, s, acts, id, true, few)
    ensures KeptApart(cfg, s, acts, id, true, more)
    decreases |acts|
  {
    hide Fine.Apply, SceneOf, AnyIs, InReplay;
    if acts != [] {
      WaivingMore(cfg, Fine.Apply(cfg, s, acts[0]), acts[1..], id, few, more);
    }
  }

  // A job lost on a run from a fresh machine that keeps apart all but these.
  ghost predicate Loses(cfg: Config, waived: set<Overlap>, s: State, acts: seq<Action>, id: Id) {
    Fresh(s) && KeptApart(cfg, s, acts, id, true, waived) && Lost(Fine.Run(cfg, s, acts), id)
  }

  const SOME_SERVICE := Service(1, "", 0, 0, None)
  const START := State(Tables(map[1 := SOME_SERVICE], map[], map[], map[]), multiset{}, map[], [])

  // No run loses a job if and only if every one of the four overlaps is kept
  // from happening.
  lemma NoLossExactlyWhenApart(cfg: Config, waived: set<Overlap>)
    requires cfg.dlq && 2 <= cfg.maxAttempts <= MAX_INT32
    ensures (forall s, acts, id :: !Loses(cfg, waived, s, acts, id)) <==> waived == {}
  {
    hide Lost, Fine.Run, KeptApart, CleanRun;
    if waived == {} {
      forall s, acts, id ensures !Loses(cfg, waived, s, acts, id) {
        if Fresh(s) && KeptApart(cfg, s, acts, id, true, waived) {
          NoLossApart(cfg, s, acts, id, true);
        }
      }
    } else {
      var overlap :| overlap in waived;
      var acts;
      match overlap {
        case DeliveryInRequeue => acts := DeliveryInRequeueLoses(cfg, START, 1);
        case ReplayInBurial => acts := ReplayInBurialLoses(cfg, START, 1);
        case BurialInReplay => acts := BurialInReplayLoses(cfg, START, 1);
        case ReplayInReplay => acts := ReplayInReplayLoses(cfg, START, 1);
      }
      WaivingMore(cfg, START, acts, JOB, {overlap}, waived);
      assert Loses(cfg, waived, START, acts, JOB);
    }
  }

  lemma {:induction false} CleanNeedsNoTurns(cfg: Config, s: State, acts: seq<Action>, id: Id, waived: set<Overlap>)
    requires CleanRun(acts) && KeptApart(cfg, s, acts, id, true, waived) && waived <= {ReplayInReplay}
    ensures KeptApart(cfg, s, acts, id, false, {})
    decreases |acts|
  {
    hide Fine.Apply, SceneOf, AnyIs, InReplay;
    if acts != [] {
      assert IsClean(acts[0]);
      CleanNeedsNoTurns(cfg, Fine.Apply(cfg, s, acts[0]), acts[1..], id, waived);
    }
  }

  // Without a fault three overlaps are enough to exclude: replays may then run
  // into one another as they like.
  lemma NoCleanLossExactlyWhenApart(cfg: Config, waived: set<Overlap>)
    requires cfg.dlq && 2 <= cfg.maxAttempts <= MAX_INT32
    ensures (forall s, acts, id :: CleanRun(acts) ==> !Loses(cfg, waived, s, acts, id)) <==> waived <= {ReplayInReplay}
  {
    hide Lost, Fine.Run, KeptApart, CleanRun;
    if waived <= {ReplayInReplay} {
      forall s, acts, id | CleanRun(acts) ensures !Loses(cfg, waived, s, acts, id) {
        if Fresh(s) && KeptApart(cfg, s, acts, id, true, waived) {
          CleanNeedsNoTurns(cfg, s, acts, id, waived);
          NoLossApart(cfg, s, acts, id, false);
        }
      }
    } else {
      var overlap :| overlap in waived && overlap != ReplayInReplay;
      var acts;
      match overlap {
        case DeliveryInRequeue => acts := DeliveryInRequeueLoses(cfg, START, 1);
        case ReplayInBurial => acts := ReplayInBurialLoses(cfg, START, 1);
        case BurialInReplay => acts := BurialInReplayLoses(cfg, START, 1);
        case ReplayInReplay =>
      }
      WaivingMore(cfg, START, acts, JOB, {overlap}, waived);
      assert Loses(cfg, waived, START, acts, JOB);
    }
  }
}
