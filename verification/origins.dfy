// Where the rows and the letters of any run come from: every job is what one
// sender sent, every letter what one pass buried and when.

module Origins {
  import opened Domain
  import opened Schema
  import opened Query
  import opened Pipeline
  import opened Coarse
  import opened Batch
  import opened Budget
  import opened Recovery
  import opened RoundTrip
  import opened Strands

  // ----- jobs -----

  // Step k sent the job: the caller's service, and the caller's payload, or an
  // empty object when there was none.
  predicate SentAt(steps: seq<Step>, k: nat, id: Id, serviceId: Id, payload: Payload) {
    && k < |steps| && steps[k].SendStep? && steps[k].send.requestId == id && steps[k].serviceId == serviceId
    && match steps[k].payload
       case Some(p) => payload == p
       case None => payload == Json("{}")
  }

  lemma StepRows(cfg: Config, s: System, step: Step, id: Id)
    requires cfg.dlq && Inv(cfg, s) && id in Apply(cfg, s, step).w.db.jobs
    ensures var row := Apply(cfg, s, step).w.db.jobs[id];
      if id in s.w.db.jobs then row.serviceId == s.w.db.jobs[id].serviceId && row.payload == s.w.db.jobs[id].payload
      else SentAt([step], 0, id, row.serviceId, row.payload)
  {
    KeyedRows(cfg, s);
    StepStable(cfg, s, step);
    if id in s.w.db.jobs {
      hide Inv, Apply, SentAt;
      assert Known(Apply(cfg, s, step).w.db.jobs, s.w.db.jobs[id]);
    } else {
      NewRowIsSent(cfg, s, step, id);
    }
  }

  lemma NewRowIsSent(cfg: Config, s: System, step: Step, id: Id)
    requires Inv(cfg, s) && id in Apply(cfg, s, step).w.db.jobs && id !in s.w.db.jobs
    ensures var row := Apply(cfg, s, step).w.db.jobs[id];
      SentAt([step], 0, id, row.serviceId, row.payload)
  {
    hide Inv, Iterate, Replay, Dispatch, Deliver, Send, IsTop, DueJobs;
    match step
    case SendStep(serviceId, payload, send) => SendRows(s.w, serviceId, payload, send);
    case IterateStep(snapshot, iter) => IterateFrame(cfg, s.w, snapshot, iter);
    case ReplayStep(_, _, _) => ReplayAddsNoRow(cfg, s, step);
    case DispatchStep(m, work) => DispatchRows(s.w.db, m, work);
    case DeliverStep(m, work) => DeliverRows(s.w.db, m, work);
    case _ =>
  }

  lemma ReplayAddsNoRow(cfg: Config, s: System, step: Step)
    requires step.ReplayStep? && Inv(cfg, s)
    ensures Apply(cfg, s, step).w.db.jobs.Keys == s.w.db.jobs.Keys
  {
    hide Replay, Redeliver;
    ReplayCases(s.w, step.caller, step.letterId, step.replay);
    if step.letterId in s.w.db.letters {
      LetterNamesItsJob(cfg, s, step.letterId);
      hide Inv;
      RedeliverRows(s.w, s.w.db.letters[step.letterId], step.replay);
    }
  }

  lemma {:induction false} RowsAreSent(cfg: Config, steps: seq<Step>, id: Id) returns (k: nat)
    requires cfg.dlq && id in Run(cfg, INIT, steps).w.db.jobs
    ensures var row := Run(cfg, INIT, steps).w.db.jobs[id];
      SentAt(steps, k, id, row.serviceId, row.payload)
    decreases |steps|
  {
    assert steps != [];
    var n := |steps| - 1;
    var init := steps[..n];
    LastStep(cfg, INIT, steps);
    InvOverRuns(cfg, INIT, init);
    var s := Run(cfg, INIT, init);
    hide Inv, Apply, Run;
    StepRows(cfg, s, steps[n], id);
    if id in s.w.db.jobs {
      k := RowsAreSent(cfg, init, id);
      assert init[k] == steps[k];
    } else {
      k := n;
    }
  }

  // Every job, every message and every letter of any run carries the service and
  // the payload that one send of its request named.
  lemma EverythingIsItsSenders(cfg: Config, steps: seq<Step>, j: Job) returns (k: nat)
    requires cfg.dlq
    requires var s := Run(cfg, INIT, steps);
      || j in s.w.db.jobs.Values || j in s.w.queue || j in s.held || j in s.snapshots
      || exists l :: l in s.w.db.letters && ReplayJob(s.w.db.letters[l]) == j
    ensures SentAt(steps, k, j.requestId, j.serviceId, j.payload)
  {
    var s := Run(cfg, INIT, steps);
    InvOverRuns(cfg, INIT, steps);
    assert j in s.snapshots ==> j in multiset(s.snapshots);
    EverythingIsKnown(cfg, s, j);
    hide Inv, Run;
    k := RowsAreSent(cfg, steps, j.requestId);
  }

  lemma EverythingIsKnown(cfg: Config, s: System, j: Job)
    requires Inv(cfg, s)
    requires j in s.w.db.jobs.Values || j in s.w.queue || j in s.held || j in multiset(s.snapshots)
          || exists l :: l in s.w.db.letters && ReplayJob(s.w.db.letters[l]) == j
    ensures Known(s.w.db.jobs, j)
  {
    if l :| l in s.w.db.letters && ReplayJob(s.w.db.letters[l]) == j {
      LetterNamesItsJob(cfg, s, l);
    }
  }

  // ----- letters -----

  // The step buried a job, and letter k says which and when.
  predicate Buries(step: Step, k: Id, letter: Option<DeadLetter>) {
    && step.IterateStep? && step.iter.letterId == k
    && letter == Some(DeadLetter(k, step.snapshot.requestId, step.snapshot.serviceId, step.snapshot.payload,
                                 "max retries exceeded", step.snapshot.retryCount, step.iter.now))
  }

  lemma StepLettersAre(cfg: Config, s: System, step: Step, k: Id)
    requires k in Apply(cfg, s, step).w.db.letters
    ensures var dl := Apply(cfg, s, step).w.db.letters[k];
      || (k in s.w.db.letters && s.w.db.letters[k] == dl)
      || (k !in s.w.db.letters && Buries(step, k, Some(dl)))
  {
    hide Iterate, Replay, Redeliver, Send, Dispatch, Deliver;
    match step
    case SendStep(serviceId, payload, send) => SendKeepsLetters(s.w, serviceId, payload, send);
    case IterateStep(snapshot, iter) => IterateFrame(cfg, s.w, snapshot, iter);
    case ReplayStep(caller, letterId, replay) =>
      ReplayCases(s.w, caller, letterId, replay);
      if letterId in s.w.db.letters {
        CutRedelivery(s.w, letterId, replay);
      }
    case DispatchStep(m, work) => WorkKeepsLetters(s.w.db, m, work);
    case DeliverStep(m, work) => WorkKeepsLetters(s.w.db, m, work);
    case _ =>
  }

  lemma SendKeepsLetters(w: World, serviceId: Id, payload: Option<Payload>, env: SendEnv)
    ensures Send(w, serviceId, payload, env).0.db.letters == w.db.letters
  {
  }

  lemma WorkKeepsLetters(db: Tables, m: Job, env: WorkEnv)
    ensures Dispatch(db, m, env).0.letters == db.letters && Deliver(db, m, env).letters == db.letters
  {
  }

  // Letter k, as a run of these steps leaves it.
  ghost function LetterAfter(cfg: Config, steps: seq<Step>, k: Id): Option<DeadLetter> {
    var letters := Run(cfg, INIT, steps).w.db.letters;
    if k in letters then Some(letters[k]) else None
  }

  // Step i stored letter k, and it has been there since.
  ghost predicate StoredAt(cfg: Config, steps: seq<Step>, k: Id, i: nat) {
    && i < |steps| && LetterAfter(cfg, steps[..i], k) == None
    && forall l | i < l <= |steps| :: Buries(steps[i], k, LetterAfter(cfg, steps[..l], k))
  }

  // Every letter of any run was stored by one burial, and says what that burial
  // knew: the job, its attempts and the time.
  lemma {:induction false} LettersAreStored(cfg: Config, steps: seq<Step>, k: Id) returns (i: nat)
    requires k in Run(cfg, INIT, steps).w.db.letters
    ensures StoredAt(cfg, steps, k, i) && Buries(steps[i], k, Some(Run(cfg, INIT, steps).w.db.letters[k]))
    decreases |steps|
  {
    assert steps != [];
    hide Buries;
    var n := |steps| - 1;
    var init := steps[..n];
    assert steps[..n + 1] == steps;
    LastLetter(cfg, steps, k);
    hide Run;
    if LetterAfter(cfg, init, k).Some? {
      i := LettersAreStored(cfg, init, k);
      assert steps[..i] == init[..i];
      forall l | i < l <= |steps| ensures Buries(steps[i], k, LetterAfter(cfg, steps[..l], k)) {
        assert l <= n ==> steps[..l] == init[..l];
        assert init[..n] == init;
      }
    } else {
      i := n;
    }
  }

  lemma LastLetter(cfg: Config, steps: seq<Step>, k: Id)
    requires steps != [] && LetterAfter(cfg, steps, k).Some?
    ensures var last := |steps| - 1;
      || LetterAfter(cfg, steps[..last], k) == LetterAfter(cfg, steps, k)
      || (LetterAfter(cfg, steps[..last], k) == None && Buries(steps[last], k, LetterAfter(cfg, steps, k)))
  {
    LastStep(cfg, INIT, steps);
    hide Run, Apply, Buries;
    StepLettersAre(cfg, Run(cfg, INIT, steps[..|steps| - 1]), steps[|steps| - 1], k);
  }

  // ----- the listing -----

  // The clock does not run backwards.
  predicate ClockRuns(steps: seq<Step>) {
    forall i, j | 0 <= i < j < |steps| ::
      steps[i].IterateStep? && steps[j].IterateStep? ==> steps[i].iter.now <= steps[j].iter.now
  }

  // Of two letters of the caller, one buried after the other and at a later
  // time: the later comes first in the listing, and is in it if the earlier is.
  lemma LaterBurialListedFirst(cfg: Config, steps: seq<Step>, caller: Id, listing: seq<DeadLetter>,
                               a: Id, i: nat, b: Id, j: nat)
    requires ClockRuns(steps) && i < j < |steps|
    requires steps[i].IterateStep? && steps[j].IterateStep? && steps[i].iter.now != steps[j].iter.now
    requires StoredAt(cfg, steps, a, i) && StoredAt(cfg, steps, b, j)
    requires var db := Run(cfg, INIT, steps).w.db;
      && IsTop(LettersOf(db, caller), (dl: DeadLetter) => -dl.failedAt, 100, listing)
      && a in db.letters && b in db.letters && db.letters[b].serviceId == caller
    ensures var (earlier, later) := (LetterAfter(cfg, steps, a).value, LetterAfter(cfg, steps, b).value);
      && (earlier in listing ==> later in listing)
      && forall x, y | 0 <= x < |listing| && 0 <= y < |listing| ::
           listing[x] == earlier && listing[y] == later ==> y < x
  {
    var db, key := Run(cfg, INIT, steps).w.db, (dl: DeadLetter) => -dl.failedAt;
    assert steps[..|steps|] == steps;
    assert LetterAfter(cfg, steps, a) == Some(db.letters[a]) && LetterAfter(cfg, steps, b) == Some(db.letters[b]);
    hide Run;
    var earlier, later := db.letters[a], db.letters[b];
    assert key(later) < key(earlier);
    assert later in LettersOf(db, caller);
    assert forall r, x | r in LettersOf(db, caller) && r !in listing && 0 <= x < |listing| ::
      key(listing[x]) <= key(r);
    assert forall x, y | 0 <= x < y < |listing| :: key(listing[x]) <= key(listing[y]);
  }
}
