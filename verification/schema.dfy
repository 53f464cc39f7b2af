// The shared Postgres tables as values, one function per SQL statement, and the
// constraints that Migrate declares.

module Schema {
  import opened Domain

  const HOUR: int := 3600
  const MAX_INT32: int := 0x7fff_ffff

  // letters is keyed by its primary key; that at most one letter names a
  // notification is the unique index, kept by InsertLetter.
  datatype Tables = Tables(
    services: map<Id, Service>,
    jobs: map<Id, Job>,
    letters: map<Id, DeadLetter>,
    stats: map<StatKey, nat>)

  // ----- notification_jobs -----

  // Duplicate key, dangling service_id and a payload that is not JSON are errors.
  predicate JobAccepted(db: Tables, job: Job) {
    job.requestId !in db.jobs && job.serviceId in db.services && job.payload.Json?
  }

  function InsertJob(db: Tables, job: Job): Tables {
    if JobAccepted(db, job) then db.(jobs := db.jobs[job.requestId := job]) else db
  }

  // An unknown request ID updates no row and is no error.
  function SetStatus(db: Tables, id: Id, status: Status): Tables {
    if id in db.jobs then db.(jobs := db.jobs[id := db.jobs[id].(status := status)]) else db
  }

  // retry_count is an INT column: incrementing past its maximum is an error.
  predicate FailAccepted(db: Tables, id: Id) {
    id in db.jobs ==> db.jobs[id].retryCount < MAX_INT32
  }

  function FailJob(db: Tables, id: Id, at: Time): Tables {
    if id in db.jobs && FailAccepted(db, id) then
      var job := db.jobs[id];
      db.(jobs := db.jobs[id := job.(status := FAILED, retryCount := job.retryCount + 1, nextRetryAt := Some(at))])
    else db
  }

  predicate ResetAccepted(db: Tables, job: Job) {
    job.payload.Json? && (job.requestId in db.jobs || job.serviceId in db.services)
  }

  // The upsert: its conflict branch leaves service_id and payload alone.
  function ResetForReplay(db: Tables, job: Job): Tables {
    if !ResetAccepted(db, job) then db
    else if job.requestId in db.jobs then
      db.(jobs := db.jobs[job.requestId :=
        db.jobs[job.requestId].(status := PENDING, retryCount := 0, nextRetryAt := None)])
    else
      db.(jobs := db.jobs[job.requestId := job.(status := PENDING, retryCount := 0, nextRetryAt := None)])
  }

  predicate Due(job: Job, now: Time) {
    job.status.FAILED? && job.nextRetryAt.Some? && job.nextRetryAt.value <= now
  }

  function DueJobs(db: Tables, now: Time): set<Job> {
    set id | id in db.jobs && Due(db.jobs[id], now) :: db.jobs[id]
  }

  // The ORDER BY column of the poll; a due row always has one.
  function RetryTime(job: Job): int {
    if job.nextRetryAt.Some? then job.nextRetryAt.value else 0
  }

  // ----- dead_letters -----

  predicate HasLetter(db: Tables, nid: Id) {
    exists k :: k in db.letters && db.letters[k].notificationId == nid
  }

  // The notification_id conflict is absorbed; a primary-key clash and a
  // dangling service_id are errors.
  predicate LetterAccepted(db: Tables, dl: DeadLetter) {
    HasLetter(db, dl.notificationId) || (dl.id !in db.letters && dl.serviceId in db.services)
  }

  function InsertLetter(db: Tables, dl: DeadLetter): Tables {
    if HasLetter(db, dl.notificationId) || !LetterAccepted(db, dl) then db
    else db.(letters := db.letters[dl.id := dl])
  }

  function DeleteLetters(db: Tables, nid: Id): Tables {
    db.(letters := map k | k in db.letters && db.letters[k].notificationId != nid :: db.letters[k])
  }

  function LettersOf(db: Tables, serviceId: Id): set<DeadLetter> {
    set k | k in db.letters && (serviceId == NO_ID || db.letters[k].serviceId == serviceId) :: db.letters[k]
  }

  // ----- notification_stats -----

  // The full hour at or before t.
  function HourBucket(t: Time): (h: Time)
    ensures h % 3600 == 0 && h <= t < h + 3600
  {
    t - t % HOUR
  }

  predicate StatAccepted(db: Tables, serviceId: Id) {
    serviceId in db.services
  }

  function StatAt(stats: map<StatKey, nat>, key: StatKey): nat {
    if key in stats then stats[key] else 0
  }

  function CountStat(db: Tables, serviceId: Id, status: Status, t: Time): Tables {
    var key := StatKey(serviceId, status, HourBucket(t));
    if StatAccepted(db, serviceId) then db.(stats := db.stats[key := StatAt(db.stats, key) + 1]) else db
  }

  // ----- services -----

  predicate Live(s: Service) {
    s.deletedAt.None?
  }

  predicate LiveWith(db: Tables, name: string, keyHash: Id) {
    exists k :: k in db.services && Live(db.services[k])
      && (db.services[k].name == name || db.services[k].keyHash == keyHash)
  }

  // The primary key covers deleted rows too; the two partial unique indexes
  // cover live rows only.
  predicate ServiceAccepted(db: Tables, svc: Service) {
    svc.id !in db.services && !LiveWith(db, svc.name, svc.keyHash)
  }

  function InsertService(db: Tables, svc: Service): Tables {
    if ServiceAccepted(db, svc) then db.(services := db.services[svc.id := svc.(deletedAt := None)]) else db
  }

  predicate DeleteFindsService(db: Tables, id: Id) {
    id in db.services && Live(db.services[id])
  }

  function SoftDelete(db: Tables, id: Id, at: Time): Tables {
    if DeleteFindsService(db, id)
    then db.(services := db.services[id := db.services[id].(deletedAt := Some(at))])
    else db
  }

  // ----- the declared constraints -----

  ghost predicate ServicesKeyed(services: map<Id, Service>) {
    forall k :: k in services ==> services[k].id == k
  }

  // The partial unique indexes on live names and live key hashes.
  ghost predicate LiveUnique(services: map<Id, Service>) {
    forall a, b | a in services && b in services && Live(services[a]) && Live(services[b]) ::
      services[a].name == services[b].name || services[a].keyHash == services[b].keyHash ==> a == b
  }

  ghost predicate JobsKeyed(services: map<Id, Service>, jobs: map<Id, Job>) {
    forall k :: k in jobs ==> jobs[k].requestId == k && jobs[k].serviceId in services && jobs[k].payload.Json?
  }

  ghost predicate LettersKeyed(services: map<Id, Service>, letters: map<Id, DeadLetter>) {
    forall k :: k in letters ==> letters[k].id == k && letters[k].serviceId in services
  }

  ghost predicate LettersUnique(letters: map<Id, DeadLetter>) {
    forall a, b | a in letters && b in letters :: letters[a].notificationId == letters[b].notificationId ==> a == b
  }

  ghost predicate StatsKeyed(services: map<Id, Service>, stats: map<StatKey, nat>) {
    forall key :: key in stats ==> key.serviceId in services && stats[key] >= 1
  }

  // Primary keys, unique indexes, foreign keys and column types.
  ghost predicate Integrity(db: Tables) {
    && ServicesKeyed(db.services)
    && LiveUnique(db.services)
    && JobsKeyed(db.services, db.jobs)
    && LettersKeyed(db.services, db.letters)
    && LettersUnique(db.letters)
    && StatsKeyed(db.services, db.stats)
  }

  // A table statement, as the argument of an any-statement theorem.
  datatype Statement =
    | Insert(job: Job)
    | Update(id: Id, status: Status)
    | Fail(id: Id, at: Time)
    | Reset(job: Job)
    | Letter(dl: DeadLetter)
    | Unletter(nid: Id)
    | Count(serviceId: Id, st: Status, t: Time)
    | Register(svc: Service)
    | Unregister(id: Id, at: Time)

  function Exec(db: Tables, s: Statement): Tables {
    match s
    case Insert(job) => InsertJob(db, job)
    case Update(id, status) => SetStatus(db, id, status)
    case Fail(id, at) => FailJob(db, id, at)
    case Reset(job) => ResetForReplay(db, job)
    case Letter(dl) => InsertLetter(db, dl)
    case Unletter(nid) => DeleteLetters(db, nid)
    case Count(serviceId, st, t) => CountStat(db, serviceId, st, t)
    case Register(svc) => InsertService(db, svc)
    case Unregister(id, at) => SoftDelete(db, id, at)
  }

  // No statement can leave a dangling reference, a duplicate notification in
  // the dead-letter table or two live services with one name or key.
  lemma IntegrityKept(db: Tables, s: Statement)
    requires Integrity(db)
    ensures Integrity(Exec(db, s))
  {
    hide ServicesKeyed, LiveUnique, JobsKeyed, LettersKeyed, LettersUnique, StatsKeyed, Exec;
    ServicesKept(db, s);
    JobsKept(db, s);
    LettersKept(db, s);
    StatsKept(db, s);
  }

  lemma ServicesKept(db: Tables, s: Statement)
    requires ServicesKeyed(db.services) && LiveUnique(db.services)
    ensures ServicesKeyed(Exec(db, s).services) && LiveUnique(Exec(db, s).services)
    ensures db.services.Keys <= Exec(db, s).services.Keys
  {
    if s.Register? {
      RegisterKeepsLive(db, s.svc);
    }
  }

  lemma JobsKept(db: Tables, s: Statement)
    requires JobsKeyed(db.services, db.jobs)
    ensures JobsKeyed(Exec(db, s).services, Exec(db, s).jobs)
  {
  }

  lemma LettersKept(db: Tables, s: Statement)
    requires LettersKeyed(db.services, db.letters) && LettersUnique(db.letters)
    ensures LettersKeyed(Exec(db, s).services, Exec(db, s).letters) && LettersUnique(Exec(db, s).letters)
  {
  }

  lemma StatsKept(db: Tables, s: Statement)
    requires StatsKeyed(db.services, db.stats)
    ensures StatsKeyed(Exec(db, s).services, Exec(db, s).stats)
  {
  }

  lemma RegisterKeepsLive(db: Tables, svc: Service)
    requires LiveUnique(db.services)
    ensures LiveUnique(InsertService(db, svc).services)
  {
    if ServiceAccepted(db, svc) {
      assert forall k :: k in db.services && Live(db.services[k]) ==>
        db.services[k].name != svc.name && db.services[k].keyHash != svc.keyHash;
    }
  }

  lemma OneLetterEach(db: Tables, nid: Id)
    requires LettersUnique(db.letters) && HasLetter(db, nid)
    ensures |set k | k in db.letters && db.letters[k].notificationId == nid| == 1
  {
    var k :| k in db.letters && db.letters[k].notificationId == nid;
    assert (set a | a in db.letters && db.letters[a].notificationId == nid) == {k};
  }
}
