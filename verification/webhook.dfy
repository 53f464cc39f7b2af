// internal/worker/webhook.go: one message of the JetStream consumer. The worker
// is not wired into cmd/server; what is proved is the contract of one message.

module Webhook {
  import opened Domain
  import opened Schema
  import opened Stores
  import opened EventHub
  import opened FanOut

  datatype DestinationType = Unspecified | WebhookType | Email

  datatype Destination = Destination(kind: DestinationType, target: string)

  datatype Notification = Notification(id: Id, serviceId: Id, payload: Payload, destinations: seq<Destination>)

  datatype NotificationMessage = NotificationMessage(notificationId: Id, attemptCount: nat)

  // The answer to one POST: no response at all, or a status code.
  datatype HttpResult = NoResponse(error: string) | Response(code: int, body: string)

  // A delivery_attempts row, without its ID and time.
  datatype Attempt = Attempt(
    notificationId: Id,
    destination: string,
    success: bool,
    statusCode: int,
    body: string,
    error: string)

  datatype Settlement = Unsettled | Acked | NakedWithDelay(attempt: nat)

  predicate Is2xx(r: HttpResult) {
    r.Response? && 200 <= r.code < 300
  }

  function Reason(r: HttpResult): string {
    match r
    case NoResponse(error) => error
    case Response(code, _) => "HTTP " + Decimal(code)
  }

  // %d of a status code.
  function Decimal(n: int): string
    decreases if n < 0 then 1 - n else n
  {
    if n < 0 then "-" + Decimal(-n)
    else if n < 10 then ["0123456789"[n]]
    else Decimal(n / 10) + ["0123456789"[n % 10]]
  }

  // ----- what one message should lead to -----

  function EventFor(n: Notification, target: string, status: EventStatus, message: string, attempt: nat): Event {
    Event(n.id, n.serviceId, target, status, message, attempt)
  }

  // The three events of one webhook destination.
  function TraceOf(n: Notification, target: string, r: HttpResult, attempt: nat): (t: seq<Event>)
    ensures |t| == 3
  {
    [EventFor(n, target, Queued, "Queued", attempt),
     EventFor(n, target, Delivering, "Sending", attempt),
     if Is2xx(r) then EventFor(n, target, Delivered, "OK", attempt)
     else EventFor(n, target, Failed, Reason(r), attempt)]
  }

  function AttemptOf(n: Notification, target: string, r: HttpResult): Attempt {
    match r
    case NoResponse(error) => Attempt(n.id, target, false, 0, "", error)
    case Response(code, body) => Attempt(n.id, target, Is2xx(r), code, body, "")
  }

  // What is tried: the webhook destinations in order, each with its answer. The
  // answer to destination k is http(k).
  datatype Delivery = Delivery(target: string, result: HttpResult)

  function Deliveries(destinations: seq<Destination>, http: nat -> HttpResult): seq<Delivery> {
    if destinations == [] then []
    else
      var k := |destinations| - 1;
      Deliveries(destinations[..k], http)
        + if destinations[k].kind.WebhookType? then [Delivery(destinations[k].target, http(k))] else []
  }

  function Traces(n: Notification, ds: seq<Delivery>, attempt: nat): seq<Event> {
    if ds == [] then []
    else
      var d := ds[|ds| - 1];
      Traces(n, ds[..|ds| - 1], attempt) + TraceOf(n, d.target, d.result, attempt)
  }

  function Attempts(n: Notification, ds: seq<Delivery>): seq<Attempt> {
    seq(|ds|, i requires 0 <= i < |ds| => AttemptOf(n, ds[i].target, ds[i].result))
  }

  function Failures(ds: seq<Delivery>): nat {
    if ds == [] then 0
    else Failures(ds[..|ds| - 1]) + if Is2xx(ds[|ds| - 1].result) then 0 else 1
  }

  // The reason of the last delivery that failed.
  function LastReason(ds: seq<Delivery>): string {
    if ds == [] then ""
    else if Is2xx(ds[|ds| - 1].result) then LastReason(ds[..|ds| - 1])
    else Reason(ds[|ds| - 1].result)
  }

  lemma OneMore(n: Notification, ds: seq<Delivery>, d: Delivery, attempt: nat)
    ensures Attempts(n, ds + [d]) == Attempts(n, ds) + [AttemptOf(n, d.target, d.result)]
    ensures Traces(n, ds + [d], attempt) == Traces(n, ds, attempt) + TraceOf(n, d.target, d.result, attempt)
    ensures Failures(ds + [d]) == Failures(ds) + if Is2xx(d.result) then 0 else 1
    ensures LastReason(ds + [d]) == if Is2xx(d.result) then LastReason(ds) else Reason(d.result)
  {
    assert (ds + [d])[..|ds|] == ds;
  }

  lemma NextDelivery(destinations: seq<Destination>, http: nat -> HttpResult, i: nat)
    requires i < |destinations|
    ensures Deliveries(destinations[..i + 1], http) == Deliveries(destinations[..i], http)
      + if destinations[i].kind.WebhookType? then [Delivery(destinations[i].target, http(i))] else []
  {
    assert destinations[..i + 1][..i] == destinations[..i];
  }

  lemma Nothing(n: Notification, http: nat -> HttpResult, attempt: nat)
    ensures Deliveries([], http) == [] && Failures([]) == 0 && LastReason([]) == ""
    ensures Traces(n, [], attempt) == [] && Attempts(n, []) == []
  {
  }

  lemma {:induction false} NoFailures(ds: seq<Delivery>)
    ensures Failures(ds) == 0 <==> forall i | 0 <= i < |ds| :: Is2xx(ds[i].result)
    decreases |ds|
  {
    hide Is2xx;
    if ds != [] {
      NoFailures(ds[..|ds| - 1]);
    }
  }

  predicate IsLastFailure(ds: seq<Delivery>, i: nat) {
    && i < |ds| && !Is2xx(ds[i].result)
    && forall j | i < j < |ds| :: Is2xx(ds[j].result)
  }

  // The recorded reason is that of the last delivery that failed.
  lemma {:induction false} LastReasonIsLast(ds: seq<Delivery>) returns (i: nat)
    requires Failures(ds) > 0
    ensures IsLastFailure(ds, i) && LastReason(ds) == Reason(ds[i].result)
    decreases |ds|
  {
    hide Is2xx, Reason;
    i := |ds| - 1;
    if Is2xx(ds[i].result) {
      i := LastReasonIsLast(ds[..i]);
    }
  }

  ghost predicate OnlyWebhooks(destinations: seq<Destination>, ks: seq<nat>) {
    forall i | 0 <= i < |ks| :: ks[i] < |destinations| && destinations[ks[i]].kind.WebhookType?
  }

  ghost predicate Increasing(ks: seq<nat>) {
    forall i, j | 0 <= i < j < |ks| :: ks[i] < ks[j]
  }

  ghost predicate AllWebhooks(destinations: seq<Destination>, ks: seq<nat>) {
    forall k: nat :: k < |destinations| && destinations[k].kind.WebhookType? ==> k in ks
  }

  // ks lists the webhook destinations, in their order.
  ghost predicate PicksWebhooks(destinations: seq<Destination>, ks: seq<nat>) {
    OnlyWebhooks(destinations, ks) && Increasing(ks) && AllWebhooks(destinations, ks)
  }

  lemma PickOneMore(destinations: seq<Destination>, ks: seq<nat>)
    requires destinations != [] && PicksWebhooks(destinations[..|destinations| - 1], ks)
    ensures var k := |destinations| - 1;
      PicksWebhooks(destinations, if destinations[k].kind.WebhookType? then ks + [k] else ks)
  {
    hide OnlyWebhooks, Increasing, AllWebhooks;
    OnlyOneMore(destinations, ks);
    AllOneMore(destinations, ks);
    IncreasingOneMore(destinations, ks);
  }

  lemma IncreasingOneMore(destinations: seq<Destination>, ks: seq<nat>)
    requires destinations != [] && OnlyWebhooks(destinations[..|destinations| - 1], ks) && Increasing(ks)
    ensures Increasing(ks + [|destinations| - 1])
  {
    var all := ks + [|destinations| - 1];
    forall i, j | 0 <= i < j < |all| ensures all[i] < all[j] {
      assert all[i] == ks[i];
    }
  }

  lemma OnlyOneMore(destinations: seq<Destination>, ks: seq<nat>)
    requires destinations != [] && OnlyWebhooks(destinations[..|destinations| - 1], ks)
    ensures var k := |destinations| - 1;
      OnlyWebhooks(destinations, if destinations[k].kind.WebhookType? then ks + [k] else ks)
  {
  }

  lemma AllOneMore(destinations: seq<Destination>, ks: seq<nat>)
    requires destinations != [] && AllWebhooks(destinations[..|destinations| - 1], ks)
    ensures var k := |destinations| - 1;
      AllWebhooks(destinations, if destinations[k].kind.WebhookType? then ks + [k] else ks)
  {
    var k := |destinations| - 1;
    var all := if destinations[k].kind.WebhookType? then ks + [k] else ks;
    forall l: nat | l < |destinations| && destinations[l].kind.WebhookType? ensures l in all {
      if l < k {
        assert destinations[..k][l].kind.WebhookType? && l in ks;
      } else {
        assert all[|ks|] == k;
      }
    }
  }

  ghost predicate Answers(ds: seq<Delivery>, destinations: seq<Destination>, http: nat -> HttpResult, ks: seq<nat>) {
    && |ds| == |ks|
    && forall i | 0 <= i < |ks| :: ks[i] < |destinations| && ds[i] == Delivery(destinations[ks[i]].target, http(ks[i]))
  }

  lemma {:induction false} DeliveriesAreTheWebhooks(destinations: seq<Destination>, http: nat -> HttpResult)
    returns (ks: seq<nat>)
    ensures PicksWebhooks(destinations, ks)
    ensures Answers(Deliveries(destinations, http), destinations, http, ks)
    decreases |destinations|
  {
    hide PicksWebhooks;
    if destinations == [] {
      ks := [];
      NothingPicked();
    } else {
      var k := |destinations| - 1;
      ks := DeliveriesAreTheWebhooks(destinations[..k], http);
      PickOneMore(destinations, ks);
      if destinations[k].kind.WebhookType? {
        ks := ks + [k];
      }
    }
  }

  lemma NothingPicked()
    ensures PicksWebhooks([], [])
  {
  }

  // Everything the hub is handed for one message.
  function MessageTrace(n: Notification, ds: seq<Delivery>, attempt: nat, retry: bool): seq<Event> {
    Traces(n, ds, attempt) + if retry then [EventFor(n, "", Retrying, "Retrying", attempt + 1)] else []
  }

  lemma {:induction false} TraceAt(n: Notification, ds: seq<Delivery>, attempt: nat, k: nat)
    requires k < |ds|
    ensures |Traces(n, ds, attempt)| == 3 * |ds|
    ensures Traces(n, ds, attempt)[3 * k..3 * k + 3] == TraceOf(n, ds[k].target, ds[k].result, attempt)
    decreases |ds|
  {
    hide TraceOf, Is2xx, Reason;
    var last := |ds| - 1;
    var init, t := ds[..last], TraceOf(n, ds[last].target, ds[last].result, attempt);
    TracesBelong(n, init, attempt);
    var before := Traces(n, init, attempt);
    assert Traces(n, ds, attempt) == before + t;
    if k < last {
      TraceAt(n, init, attempt, k);
      assert (before + t)[3 * k..3 * k + 3] == before[3 * k..3 * k + 3];
    } else {
      assert (before + t)[3 * k..3 * k + 3] == t;
    }
  }

  lemma {:induction false} TracesBelong(n: Notification, ds: seq<Delivery>, attempt: nat)
    ensures |Traces(n, ds, attempt)| == 3 * |ds|
    ensures forall e :: e in Traces(n, ds, attempt) ==> e.notificationId == n.id && e.serviceId == n.serviceId
    decreases |ds|
  {
    if ds != [] {
      TracesBelong(n, ds[..|ds| - 1], attempt);
    }
  }

  // A subscriber to the notification, with room for three events a webhook
  // destination and one more, finds exactly the trace of the message.
  lemma SubscriberSeesTrace<C>(v: Board<C>, id: Id, n: Notification, ds: seq<Delivery>, attempt: nat, retry: bool)
    requires Ok(v) && id in v.subs
    requires v.subs[id].filter == Filter(n.id, NO_ID) || v.subs[id].filter == Filter(n.id, n.serviceId)
    requires |v.inboxes[v.subs[id].channel].buffer| + 3 * |ds| + 1 <= v.inboxes[v.subs[id].channel].capacity
    ensures var c, after := v.subs[id].channel, PublishedAll(v, MessageTrace(n, ds, attempt, retry));
      && after.subs == v.subs && c in after.inboxes
      && after.inboxes[c].buffer == v.inboxes[c].buffer + MessageTrace(n, ds, attempt, retry)
  {
    TracesBelong(n, ds, attempt);
    RoomySubscriberSeesAll(v, id, MessageTrace(n, ds, attempt, retry));
  }

  // The same while other publishes overlap and channels are read: a subscriber
  // meant the message's publishes alone, one after another, with room for them,
  // has consumed or has in its buffer exactly the trace.
  lemma SubscriberSeesTraceInRuns<C>(v: Floor<C>, id: Id, filter: Filter, c: C, capacity: nat, moves: seq<Move<C>>,
                                     n: Notification, ds: seq<Delivery>, attempt: nat, retry: bool)
    requires FanOut.Sound(v) && v.active == map[] && id !in v.board.subs && c !in v.board.inboxes
    requires capacity >= 3 * |ds| + 1
    requires var start := Moved(v, Join(id, filter, c, capacity));
      && AllNew(start, moves) && OneAtATime(start, moves, c) && Went(start, moves).active == map[]
      && Events(Begun(start, moves, c)) == MessageTrace(n, ds, attempt, retry)
    ensures var end := Went(Moved(v, Join(id, filter, c, capacity)), moves).board;
      && c in end.inboxes
      && end.inboxes[c].consumed + end.inboxes[c].buffer == MessageTrace(n, ds, attempt, retry)
  {
    hide FanOut.Sound, Moved, Went, AllNew, OneAtATime, Begun;
    TracesBelong(n, ds, attempt);
    RoomySubscriberIsSentAll(v, id, filter, c, capacity, moves);
  }

  // ----- where a message that fails for good is kept -----

  function Parked(t: Option<Tables>, n: Notification, nm: NotificationMessage, lastErr: string,
                  create: Outcome, letterId: Id, now: Time): Option<Tables>
  {
    match t
    case None => None
    case Some(db) =>
      var dl := DeadLetter(letterId, nm.notificationId, n.serviceId, n.payload, lastErr, nm.attemptCount, now);
      Some(Call(create, db, InsertLetter(db, dl)))
  }

  // ----- redelivery -----

  // How a message that carries nm is settled when ds is what happened to it.
  function Verdict(cfg: Config, nm: NotificationMessage, ds: seq<Delivery>): Settlement {
    if Failures(ds) > 0 && ShouldRetry(cfg, nm.attemptCount + 1) then NakedWithDelay(nm.attemptCount + 1) else Acked
  }

  // A message that is not acknowledged comes back with the same body. How often
  // is it processed, if round k is what happens the k-th time?
  function Processed(cfg: Config, nm: NotificationMessage, rounds: seq<seq<Delivery>>): nat
    decreases |rounds|
  {
    if rounds == [] then 0
    else 1 + if Verdict(cfg, nm, rounds[0]).Acked? then 0 else Processed(cfg, nm, rounds[1..])
  }

  // The retry budget is not spent by redelivery: a message that keeps failing is
  // parked the first time if its own count has reached the limit, and otherwise
  // never, however often it comes back.
  lemma {:induction false} BudgetSpentAtOnceOrNever(cfg: Config, nm: NotificationMessage, rounds: seq<seq<Delivery>>)
    requires rounds != [] && forall ds :: ds in rounds ==> Failures(ds) > 0
    ensures Processed(cfg, nm, rounds) == if nm.attemptCount + 1 < cfg.maxAttempts then |rounds| else 1
    ensures (forall ds :: ds in rounds ==> Verdict(cfg, nm, ds).NakedWithDelay?)
       <==> nm.attemptCount + 1 < cfg.maxAttempts
    decreases |rounds|
  {
    hide Failures;
    assert rounds[0] in rounds;
    if |rounds| > 1 {
      forall ds | ds in rounds[1..] ensures ds in rounds {
      }
      BudgetSpentAtOnceOrNever(cfg, nm, rounds[1..]);
    } else {
      assert rounds[1..] == [];
    }
  }

  // ----- an event hub that may be missing -----

  ghost function Emitted<C>(v: Option<Board<C>>, events: seq<Event>): Option<Board<C>> {
    match v
    case None => None
    case Some(board) => Some(PublishedAll(board, events))
  }

  lemma EmittedNothing<C>(v: Option<Board<C>>)
    ensures Emitted(v, []) == v
  {
  }

  lemma EmittedConcat<C>(v: Option<Board<C>>, a: seq<Event>, b: seq<Event>)
    ensures Emitted(Emitted(v, a), b) == Emitted(v, a + b)
  {
    if v.Some? {
      PublishedConcat(v.value, a, b);
    }
  }

  // ----- the worker -----

  // A jetstream.Msg: settled at most once.
  class Message {
    var settlement: Settlement

    constructor ()
      ensures settlement == Unsettled
    {
      settlement := Unsettled;
    }

    method Ack()
      requires settlement.Unsettled?
      modifies this
      ensures settlement == Acked
    {
      settlement := Acked;
    }

    // attempt is the argument of the backoff that gives the delay.
    method NakWithDelay(attempt: nat)
      requires settlement.Unsettled?
      modifies this
      ensures settlement == NakedWithDelay(attempt)
    {
      settlement := NakedWithDelay(attempt);
    }
  }

  class WebhookWorker {
    const cfg: Config
    const deadLetters: DeadLetterStore?
    const eventHub: Hub?
    // The rows handed to delivery_attempts, whose insert errors are only
    // logged, and the messages on the DLQ subject, oldest first.
    var attempts: seq<Attempt>
    var dlq: seq<NotificationMessage>

    constructor (cfg: Config, deadLetters: DeadLetterStore?, eventHub: Hub?)
      ensures this.cfg == cfg && this.deadLetters == deadLetters && this.eventHub == eventHub
      ensures attempts == [] && dlq == []
    {
      this.cfg, this.deadLetters, this.eventHub := cfg, deadLetters, eventHub;
      attempts, dlq := [], [];
    }

    ghost function Channels(): set<Channel>
      reads eventHub
    {
      if eventHub == null then {} else eventHub.channels
    }

    ghost predicate HubValid()
      reads eventHub, Channels()
    {
      eventHub != null ==> eventHub.Valid()
    }

    ghost function HubView(): Option<Board<Channel>>
      reads eventHub, Channels()
    {
      if eventHub == null then None else Some(eventHub.View())
    }

    ghost function Database(): set<DB> {
      if deadLetters == null then {} else {deadLetters.db}
    }

    ghost function TablesView(): Option<Tables>
      reads Database()
    {
      if deadLetters == null then None else Some(deadLetters.db.View())
    }

    method EmitEvent(e: Event)
      requires HubValid()
      modifies Channels()`buffer
      ensures HubValid() && HubView() == Emitted(old(HubView()), [e])
    {
      if eventHub == null {
        return;
      }
      PublishedOne(eventHub.View(), e);
      eventHub.Publish(e);
    }

    method DeliverWebhook(n: Notification, target: string, r: HttpResult, attempt: nat)
      returns (ok: bool, reason: string)
      requires HubValid()
      modifies this`attempts, Channels()`buffer
      ensures HubValid() && HubView() == Emitted(old(HubView()), TraceOf(n, target, r, attempt))
      ensures attempts == old(attempts) + [AttemptOf(n, target, r)]
      ensures ok == Is2xx(r) && (!ok ==> reason == Reason(r))
    {
      ghost var v0 := HubView();
      ghost var queued := EventFor(n, target, Queued, "Queued", attempt);
      ghost var sending := EventFor(n, target, Delivering, "Sending", attempt);
      EmitEvent(EventFor(n, target, Queued, "Queued", attempt));
      EmitEvent(EventFor(n, target, Delivering, "Sending", attempt));
      EmittedConcat(v0, [queued], [sending]);
      var row := Attempt(n.id, target, false, 0, "", "");
      var last;
      match r {
        case NoResponse(error) =>
          row := row.(error := error);
          ok, reason := false, error;
          last := EventFor(n, target, Failed, error, attempt);
        case Response(code, body) =>
          row := row.(statusCode := code, body := body);
          if 200 <= code < 300 {
            row := row.(success := true);
            ok, reason := true, "";
            last := EventFor(n, target, Delivered, "OK", attempt);
          } else {
            ok, reason := false, "HTTP " + Decimal(code);
            last := EventFor(n, target, Failed, reason, attempt);
          }
      }
      EmitEvent(last);
      EmittedConcat(v0, [queued] + [sending], [last]);
      assert [queued] + [sending] + [last] == TraceOf(n, target, r, attempt);
      attempts := attempts + [row];
    }

    // The loop over the destinations.
    method DeliverAll(n: Notification, http: nat -> HttpResult, attempt: nat)
      returns (failedDests: nat, lastErr: string)
      requires HubValid()
      modifies this`attempts, Channels()`buffer
      ensures HubValid() && HubView() == Emitted(old(HubView()), Traces(n, Deliveries(n.destinations, http), attempt))
      ensures attempts == old(attempts) + Attempts(n, Deliveries(n.destinations, http))
      ensures failedDests == Failures(Deliveries(n.destinations, http))
      ensures lastErr == LastReason(Deliveries(n.destinations, http))
    {
      hide TraceOf, AttemptOf, Is2xx, Reason, EventFor, Emitted, Deliveries, Traces, Attempts, Failures, LastReason;
      hide HubValid, HubView;
      Nothing(n, http, attempt);
      ghost var v0, ds := HubView(), [];
      EmittedNothing(v0);
      failedDests, lastErr := 0, "";
      for i := 0 to |n.destinations|
        invariant HubValid() && Channels() == old(Channels())
        invariant ds == Deliveries(n.destinations[..i], http)
        invariant failedDests == Failures(ds) && lastErr == LastReason(ds)
        invariant attempts == old(attempts) + Attempts(n, ds)
        invariant HubView() == Emitted(v0, Traces(n, ds, attempt))
      {
        NextDelivery(n.destinations, http, i);
        if n.destinations[i].kind.WebhookType? {
          var target := n.destinations[i].target;
          var ok, errMsg := DeliverWebhook(n, target, http(i), attempt);
          if !ok {
            failedDests, lastErr := failedDests + 1, errMsg;
          }
          ghost var d := Delivery(target, http(i));
          EmittedConcat(v0, Traces(n, ds, attempt), TraceOf(n, target, http(i), attempt));
          OneMore(n, ds, d, attempt);
          ds := ds + [d];
        }
      }
      assert n.destinations[..|n.destinations|] == n.destinations;
    }

    // What Create or PublishToDLQ reports is only logged.
    method MoveToDLQ(n: Notification, nm: NotificationMessage, lastErr: string,
                     create: Outcome, publish: Outcome, letterId: Id, now: Time)
      modifies this`dlq, Database()
      ensures TablesView() == Parked(old(TablesView()), n, nm, lastErr, create, letterId, now)
      ensures dlq == old(dlq) + if publish.LostCall? then [] else [nm]
    {
      if deadLetters != null {
        var _ := deadLetters.Create(
          DeadLetter(letterId, nm.notificationId, n.serviceId, n.payload, lastErr, nm.attemptCount, now), create);
      }
      if !publish.LostCall? {
        dlq := dlq + [nm];
      }
    }

    // body is None for a message that cannot be decoded, found is None when the
    // notification cannot be read; http(k) answers destination k.
    method ProcessMessage(msg: Message, body: Option<NotificationMessage>, found: Option<Notification>,
                          http: nat -> HttpResult, create: Outcome, publish: Outcome, letterId: Id, now: Time)
      requires HubValid() && msg.settlement.Unsettled?
      modifies this, msg, Channels()`buffer, Database()
      ensures HubValid()
      ensures body.None? || found.None? ==>
        && msg.settlement == Acked && attempts == old(attempts) && dlq == old(dlq)
        && HubView() == old(HubView()) && TablesView() == old(TablesView())
      ensures body.Some? && found.Some? ==>
        var (n, nm, ds) := (found.value, body.value, Deliveries(found.value.destinations, http));
        var next := nm.(attemptCount := nm.attemptCount + 1);
        var retry := Failures(ds) > 0 && ShouldRetry(cfg, next.attemptCount);
        var park := Failures(ds) > 0 && !ShouldRetry(cfg, next.attemptCount);
        && attempts == old(attempts) + Attempts(n, ds)
        && HubView() == Emitted(old(HubView()), MessageTrace(n, ds, nm.attemptCount, retry))
        && msg.settlement == Verdict(cfg, nm, ds)
        && TablesView() == (if park then Parked(old(TablesView()), n, next, LastReason(ds), create, letterId, now)
                            else old(TablesView()))
        && dlq == old(dlq) + if park && !publish.LostCall? then [next] else []
    {
      hide TraceOf, AttemptOf, Is2xx, Reason, Parked, EventFor, Emitted, Deliveries, Traces, Attempts, Failures;
      hide LastReason, HubValid, HubView, TablesView;
      if body.None? || found.None? {
        msg.Ack();
        return;
      }
      var nm, n := body.value, found.value;
      ghost var v0, ds := HubView(), Deliveries(n.destinations, http);
      var failedDests, lastErr := DeliverAll(n, http, nm.attemptCount);
      ghost var trace := Traces(n, ds, nm.attemptCount);
      if failedDests == 0 {
        assert trace + [] == trace;
        msg.Ack();
        return;
      }
      var next := nm.(attemptCount := nm.attemptCount + 1);
      if ShouldRetry(cfg, next.attemptCount) {
        var e := EventFor(n, "", Retrying, "Retrying", next.attemptCount);
        EmitEvent(e);
        EmittedConcat(v0, trace, [e]);
        msg.NakWithDelay(next.attemptCount);
      } else {
        assert trace + [] == trace;
        MoveToDLQ(n, next, lastErr, create, publish, letterId, now);
        msg.Ack();
      }
    }
  }
}
