// IncrementStats and GetStats: hour buckets refine a plain log of calls.

module Stats {
  import opened Domain
  import opened Schema
  import opened Stores

  // The sum of the buckets among keys.
  ghost function SumOver(stats: map<StatKey, nat>, keys: set<StatKey>): nat
    requires keys <= stats.Keys
  {
    if keys == {} then 0
    else
      var key :| key in keys;
      stats[key] + SumOver(stats, keys - {key})
  }

  function KeysOf(stats: map<StatKey, nat>, serviceId: Id, status: Status): set<StatKey> {
    set key | key in stats && key.serviceId == serviceId && key.status == status
  }

  // SUM(count) ... WHERE service_id = $1 GROUP BY status.
  ghost function Total(stats: map<StatKey, nat>, serviceId: Id, status: Status): nat {
    SumOver(stats, KeysOf(stats, serviceId, status))
  }

  // The sum does not depend on the order the buckets are visited in.
  lemma {:induction false} SumPicks(stats: map<StatKey, nat>, keys: set<StatKey>, key: StatKey)
    requires keys <= stats.Keys && key in keys
    ensures SumOver(stats, keys) == stats[key] + SumOver(stats, keys - {key})
    decreases keys
  {
    var first :| first in keys && SumOver(stats, keys) == stats[first] + SumOver(stats, keys - {first});
    if first != key {
      SumPicks(stats, keys - {first}, key);
      SumPicks(stats, keys - {key}, first);
      assert keys - {first} - {key} == keys - {key} - {first};
    }
  }

  lemma {:induction false} SumFrame(a: map<StatKey, nat>, b: map<StatKey, nat>, keys: set<StatKey>)
    requires keys <= a.Keys && keys <= b.Keys && forall key :: key in keys ==> a[key] == b[key]
    ensures SumOver(a, keys) == SumOver(b, keys)
    decreases keys
  {
    if keys != {} {
      var key :| key in keys;
      SumPicks(a, keys, key);
      SumPicks(b, keys, key);
      SumFrame(a, b, keys - {key});
    }
  }

  // One accepted call adds exactly one to one total and leaves every other.
  lemma CountAddsOne(db: Tables, serviceId: Id, status: Status, t: Time, svc: Id, st: Status)
    requires StatAccepted(db, serviceId)
    ensures Total(CountStat(db, serviceId, status, t).stats, svc, st)
         == Total(db.stats, svc, st) + (if svc == serviceId && st == status then 1 else 0)
  {
    var key := StatKey(serviceId, status, HourBucket(t));
    var before, after := db.stats, CountStat(db, serviceId, status, t).stats;
    var was, now := KeysOf(before, svc, st), KeysOf(after, svc, st);
    if svc == serviceId && st == status {
      assert now == was + {key};
      SumPicks(after, now, key);
      assert now - {key} == was - {key};
      SumFrame(before, after, was - {key});
      if key in was {
        SumPicks(before, was, key);
      }
    } else {
      assert now == was;
      SumFrame(before, after, was);
    }
  }

  datatype StatCall = StatCall(serviceId: Id, status: Status, t: Time)

  function RunCalls(db: Tables, log: seq<StatCall>): Tables {
    if log == [] then db
    else
      var earlier := RunCalls(db, log[..|log| - 1]);
      var last := log[|log| - 1];
      CountStat(earlier, last.serviceId, last.status, last.t)
  }

  function Occurrences(log: seq<StatCall>, serviceId: Id, status: Status): nat {
    if log == [] then 0
    else
      var last := log[|log| - 1];
      Occurrences(log[..|log| - 1], serviceId, status)
        + (if last.serviceId == serviceId && last.status == status then 1 else 0)
  }

  // Whatever the timestamps, the bucketed table answers what the log says: each
  // status with the number of its calls, and no status that was never counted.
  lemma {:induction false} BucketsRefineLog(db: Tables, log: seq<StatCall>, svc: Id, st: Status)
    requires db.stats == map[]
    requires forall c :: c in log ==> c.serviceId in db.services
    ensures Total(RunCalls(db, log).stats, svc, st) == Occurrences(log, svc, st)
    ensures KeysOf(RunCalls(db, log).stats, svc, st) == {} <==> Occurrences(log, svc, st) == 0
    ensures RunCalls(db, log).services == db.services
    decreases |log|
  {
    if log != [] {
      var init, last := log[..|log| - 1], log[|log| - 1];
      assert last in log;
      BucketsRefineLog(db, init, svc, st);
      var earlier := RunCalls(db, init);
      CountAddsOne(earlier, last.serviceId, last.status, last.t, svc, st);
      var key := StatKey(last.serviceId, last.status, HourBucket(last.t));
      var after := RunCalls(db, log);
      if svc == last.serviceId && st == last.status {
        assert key in KeysOf(after.stats, svc, st);
      } else {
        assert KeysOf(after.stats, svc, st) == KeysOf(earlier.stats, svc, st);
      }
    }
  }

  // GetStats scans the buckets of the service and fills the answer map.
  method GetStats(db: DB, serviceId: Id, outcome: Outcome) returns (ok: bool, stats: map<Status, nat>)
    ensures ok == outcome.Clean?
    ensures ok ==> forall st :: st in stats <==> KeysOf(db.stats, serviceId, st) != {}
    ensures ok ==> forall st :: st in stats ==> stats[st] == Total(db.stats, serviceId, st)
    ensures !ok ==> stats == map[]
  {
    stats := map[];
    if !outcome.Clean? {
      return false, stats;
    }
    ghost var seen: set<StatKey> := {};
    var rest := set key | key in db.stats && key.serviceId == serviceId;
    while rest != {}
      invariant rest <= db.stats.Keys && seen <= db.stats.Keys && rest !! seen
      invariant forall key :: key in db.stats && key.serviceId == serviceId <==> key in rest + seen
      invariant forall st :: st in stats <==> exists key :: key in seen && key.status == st
      invariant forall st :: st in stats ==> stats[st] == SumOver(db.stats, OfStatus(seen, st))
      decreases rest
    {
      var key :| key in rest;
      var st := key.status;
      ghost var wider := seen + {key};
      SumPicks(db.stats, OfStatus(wider, st), key);
      assert OfStatus(wider, st) - {key} == OfStatus(seen, st);
      assert forall other | other != st :: OfStatus(wider, other) == OfStatus(seen, other);
      assert st !in stats ==> OfStatus(seen, st) == {};
      stats := stats[st := (if st in stats then stats[st] else 0) + db.stats[key]];
      rest, seen := rest - {key}, wider;
    }
    forall st ensures OfStatus(seen, st) == KeysOf(db.stats, serviceId, st) {
    }
    assert forall st :: st in stats ==> OfStatus(seen, st) != {} by {
      forall st | st in stats ensures OfStatus(seen, st) != {} {
        var key :| key in seen && key.status == st;
        assert key in OfStatus(seen, st);
      }
    }
    ok := true;
  }

  ghost function OfStatus(keys: set<StatKey>, st: Status): set<StatKey> {
    set key | key in keys && key.status == st
  }
}
