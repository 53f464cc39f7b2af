// internal/store/postgres/service.go: soft deletion over any run of statements,
// those of the other tables included.

module Services {
  import opened Domain
  import opened Schema

  function Run(db: Tables, script: seq<Statement>): Tables
    decreases |script|
  {
    if script == [] then db else Run(Exec(db, script[0]), script[1..])
  }

  // Live rows keep distinct names and key hashes, and jobs, dead letters and
  // stats keep referencing a service row that exists.
  lemma {:induction false} IntegrityOverRuns(db: Tables, script: seq<Statement>)
    requires Integrity(db)
    ensures Integrity(Run(db, script))
    decreases |script|
  {
    if script != [] {
      IntegrityKept(db, script[0]);
      IntegrityOverRuns(Exec(db, script[0]), script[1..]);
    }
  }

  // A row, once written, stays for ever; all that can change is that a live
  // row is stamped deleted. A deleted row never revives.
  lemma {:induction false} RowsOnlyRetire(db: Tables, script: seq<Statement>, id: Id)
    requires id in db.services
    ensures var after := Run(db, script).services;
      && id in after
      && (after[id] == db.services[id]
          || (Live(db.services[id]) && !Live(after[id]) && after[id].(deletedAt := None) == db.services[id]))
    decreases |script|
  {
    if script != [] {
      RowsOnlyRetire(Exec(db, script[0]), script[1..], id);
    }
  }

  // An API key resolves to at most one live service after any run.
  lemma KeyResolvesOnce(db: Tables, script: seq<Statement>, a: Id, b: Id)
    requires Integrity(db)
    requires var after := Run(db, script).services;
      && a in after && b in after && Live(after[a]) && Live(after[b])
      && (after[a].keyHash == after[b].keyHash || after[a].name == after[b].name)
    ensures a == b
  {
    IntegrityOverRuns(db, script);
  }

  // Deleting a live service frees its name and its key hash: a new row may take
  // both, whatever deleted rows carry them. While the row lives it may take
  // neither.
  lemma NameFreedExactlyByDelete(db: Tables, id: Id, at: Time, reborn: Service)
    requires Integrity(db) && DeleteFindsService(db, id)
    requires reborn.id !in db.services
    requires reborn.name == db.services[id].name && reborn.keyHash == db.services[id].keyHash
    ensures !ServiceAccepted(db, reborn)
    ensures ServiceAccepted(SoftDelete(db, id, at), reborn)
    ensures var reused := InsertService(SoftDelete(db, id, at), reborn).services;
      && reborn.id in reused && Live(reused[reborn.id]) && reused[reborn.id].name == reborn.name
      && id in reused && !Live(reused[id])
  {
    assert LiveWith(db, reborn.name, reborn.keyHash);
    var after := SoftDelete(db, id, at);
    forall k | k in after.services && Live(after.services[k])
      ensures after.services[k].name != reborn.name && after.services[k].keyHash != reborn.keyHash
    {
      assert k != id && k in db.services && Live(db.services[k]);
    }
  }
}
