// The records of internal/domain and the columns of the Postgres tables that
// the job, dead-letter and replay protocol reads or writes.

module Domain {
  datatype Option<+T> = None | Some(value: T)

  // Request, service, dead-letter and handler identifiers are opaque. NO_ID
  // stands for the empty string.
  type Id = nat
  const NO_ID: Id := 0

  // Seconds since the zero time.
  type Time = int

  // Payloads are compared up to JSON equality, as a JSONB column does. A
  // Malformed payload can be neither stored in such a column nor marshalled.
  datatype Payload = Json(text: string) | Malformed(bytes: string)

  // The six values the status CHECK of notification_jobs allows.
  datatype Status = ACCEPTED | PENDING | DISPATCHED | DELIVERED | FAILED | DEAD_LETTERED

  // A row of notification_jobs; also the body of a notifications.jobs message
  // and the snapshot of a row that a scheduler poll hands out.
  datatype Job = Job(
    requestId: Id,
    serviceId: Id,
    payload: Payload,
    status: Status,
    retryCount: nat,
    nextRetryAt: Option<Time>)

  datatype DeadLetter = DeadLetter(
    id: Id,
    notificationId: Id,
    serviceId: Id,
    payload: Payload,
    lastError: string,
    attemptCount: nat,
    failedAt: Time)

  datatype Service = Service(
    id: Id,
    name: string,
    keyHash: Id,
    createdAt: Time,
    deletedAt: Option<Time>)

  datatype StatKey = StatKey(serviceId: Id, status: Status, hour: Time)

  // What becomes of one store or broker call. LostCall: it reports an error and
  // had no effect. LostReply: it took effect, but its caller saw an error or
  // died right after it. Every cut of a handler between two of its calls is the
  // run in which the call before the cut loses its reply.
  datatype Outcome = Clean | LostCall | LostReply

  function Call<S>(outcome: Outcome, before: S, after: S): S {
    if outcome.LostCall? then before else after
  }

  // retry.Config, and whether a dead-letter store is wired.
  datatype Config = Config(maxAttempts: int, dlq: bool)

  predicate ShouldRetry(cfg: Config, attempt: int) {
    attempt < cfg.maxAttempts
  }
}
