// internal/events/hub.go: filtered, bounded, non-blocking fan-out. Here a publish
// is one operation, as it is for a caller that nothing overlaps; publishes that
// overlap under the read lock are in module FanOut.

module EventHub {
  import opened Domain

  datatype EventStatus = Queued | Delivering | Delivered | Failed | Retrying

  datatype Event = Event(
    notificationId: Id,
    serviceId: Id,
    destination: string,
    status: EventStatus,
    message: string,
    attempt: int)

  // An empty ID matches every event.
  datatype Filter = Filter(notificationId: Id, serviceId: Id)

  predicate Matches(f: Filter, e: Event) {
    && (f.notificationId == NO_ID || f.notificationId == e.notificationId)
    && (f.serviceId == NO_ID || f.serviceId == e.serviceId)
  }

  // ----- the hub as a value -----

  // What a channel holds, and what its reader has taken out of it.
  datatype Inbox = Inbox(capacity: nat, buffer: seq<Event>, consumed: seq<Event>, closed: bool)

  datatype Sub<C> = Sub(filter: Filter, channel: C)

  // Every channel stays in view, subscribed or not.
  datatype Board<C> = Board(subs: map<Id, Sub<C>>, inboxes: map<C, Inbox>)

  // The non-blocking send.
  function Offer(x: Inbox, e: Event): Inbox {
    if |x.buffer| < x.capacity then x.(buffer := x.buffer + [e]) else x
  }

  ghost predicate Receives<C>(v: Board<C>, c: C, e: Event) {
    exists id :: id in v.subs && v.subs[id].channel == c && Matches(v.subs[id].filter, e)
  }

  ghost function Published<C>(v: Board<C>, e: Event): Board<C> {
    v.(inboxes := map c | c in v.inboxes :: if Receives(v, c, e) then Offer(v.inboxes[c], e) else v.inboxes[c])
  }

  function Subscribed<C>(v: Board<C>, id: Id, filter: Filter, c: C, capacity: nat): Board<C> {
    Board(v.subs[id := Sub(filter, c)], v.inboxes[c := Inbox(capacity, [], [], false)])
  }

  function Unsubscribed<C>(v: Board<C>, id: Id): Board<C> {
    if id in v.subs && v.subs[id].channel in v.inboxes then
      var c := v.subs[id].channel;
      Board(v.subs - {id}, v.inboxes[c := v.inboxes[c].(closed := true)])
    else v
  }

  function Taken<C>(v: Board<C>, c: C): Board<C> {
    if c in v.inboxes && v.inboxes[c].buffer != [] then
      var x := v.inboxes[c];
      v.(inboxes := v.inboxes[c := x.(buffer := x.buffer[1..], consumed := x.consumed + [x.buffer[0]])])
    else v
  }

  // Subscribers have channels of their own, open, and never over capacity.
  ghost predicate Ok<C>(v: Board<C>) {
    && (forall id :: id in v.subs ==> v.subs[id].channel in v.inboxes && !v.inboxes[v.subs[id].channel].closed)
    && (forall a, b :: a in v.subs && b in v.subs && v.subs[a].channel == v.subs[b].channel ==> a == b)
    && (forall c :: c in v.inboxes ==> |v.inboxes[c].buffer| <= v.inboxes[c].capacity)
  }

  // ----- any run -----

  datatype Op<C> =
    | SubscribeOp(id: Id, filter: Filter, channel: C, capacity: nat)
    | UnsubscribeOp(id: Id)
    | PublishOp(event: Event)
    | TakeOp(channel: C)

  ghost function Apply<C>(v: Board<C>, op: Op<C>): Board<C> {
    match op
    case SubscribeOp(id, filter, channel, capacity) => Subscribed(v, id, filter, channel, capacity)
    case UnsubscribeOp(id) => Unsubscribed(v, id)
    case PublishOp(event) => Published(v, event)
    case TakeOp(channel) => Taken(v, channel)
  }

  ghost function Run<C>(v: Board<C>, ops: seq<Op<C>>): Board<C>
    decreases |ops|
  {
    if ops == [] then v else Run(Apply(v, ops[0]), ops[1..])
  }

  // IDs are drawn fresh and each subscription makes its own channel.
  ghost predicate Distinct<C>(v: Board<C>, op: Op<C>) {
    op.SubscribeOp? ==> op.id !in v.subs && op.channel !in v.inboxes
  }

  ghost predicate AllDistinct<C>(v: Board<C>, ops: seq<Op<C>>)
    decreases |ops|
  {
    ops != [] ==> Distinct(v, ops[0]) && AllDistinct(Apply(v, ops[0]), ops[1..])
  }

  // The events for c published while it was subscribed.
  ghost function Meant<C>(v: Board<C>, ops: seq<Op<C>>, c: C): seq<Event>
    decreases |ops|
  {
    if ops == [] then []
    else
      var here := if ops[0].PublishOp? && Receives(v, c, ops[0].event) then [ops[0].event] else [];
      here + Meant(Apply(v, ops[0]), ops[1..], c)
  }

  // The buffer of c was never full when such an event came.
  ghost predicate NeverFull<C>(v: Board<C>, ops: seq<Op<C>>, c: C)
    decreases |ops|
  {
    ops != [] ==>
      && (ops[0].PublishOp? && c in v.inboxes && Receives(v, c, ops[0].event) ==>
            |v.inboxes[c].buffer| < v.inboxes[c].capacity)
      && NeverFull(Apply(v, ops[0]), ops[1..], c)
  }

  ghost predicate Subsequence(a: seq<Event>, b: seq<Event>)
    decreases |b|
  {
    a == [] || (b != [] && ((a[0] == b[0] && Subsequence(a[1..], b[1..])) || Subsequence(a, b[1..])))
  }

  // One event more that was meant, kept or lost.
  lemma GotGrows(e: Event, kept: bool, got: seq<Event>, all: seq<Event>)
    requires Subsequence(got, all) && |got| <= |all|
    ensures var more := (if kept then [e] else []) + got;
      && Subsequence(more, [e] + all) && |more| <= |[e] + all|
      && (more == [e] + all <==> kept && got == all)
      && (|more| == |[e] + all| <==> kept && |got| == |all|)
  {
    assert [] + got == got;
    assert ([e] + all)[1..] == all && ([e] + got)[1..] == got;
  }

  function Seen(x: Inbox): seq<Event> {
    x.consumed + x.buffer
  }

  lemma OkKept<C>(v: Board<C>, op: Op<C>)
    requires Ok(v) && Distinct(v, op)
    ensures Ok(Apply(v, op))
  {
  }

  // One operation appends to what a channel has seen at most the event meant
  // for it, and does so exactly when there is room.
  lemma StepSeen<C>(v: Board<C>, op: Op<C>, c: C)
    requires Ok(v) && Distinct(v, op) && c in v.inboxes
    ensures var after := Apply(v, op);
      var meant := op.PublishOp? && Receives(v, c, op.event);
      && c in after.inboxes
      && Seen(after.inboxes[c])
         == Seen(v.inboxes[c]) + if meant && |v.inboxes[c].buffer| < v.inboxes[c].capacity then [op.event] else []
  {
    var x := v.inboxes[c];
    assert x.buffer != [] ==> x.consumed + [x.buffer[0]] + x.buffer[1..] == x.consumed + x.buffer;
    if op.PublishOp? {
      assert x.consumed + (x.buffer + [op.event]) == (x.consumed + x.buffer) + [op.event];
    }
    assert Seen(x) + [] == Seen(x);
  }

  lemma Appended(before: seq<Event>, now: seq<Event>, later: seq<Event>)
    ensures forall more: seq<Event> :: now == before + more ==> now + later == before + (more + later)
  {
  }

  // The events a channel took in over a run.
  ghost function Got<C>(v: Board<C>, ops: seq<Op<C>>, c: C): seq<Event>
    decreases |ops|
  {
    if ops == [] then []
    else
      var kept := ops[0].PublishOp? && c in v.inboxes && Receives(v, c, ops[0].event)
                  && |v.inboxes[c].buffer| < v.inboxes[c].capacity;
      (if kept then [ops[0].event] else []) + Got(Apply(v, ops[0]), ops[1..], c)
  }

  // Over any run, what a subscriber consumed and what waits in its buffer are
  // the events its channel took in, in order; and every channel is as it should.
  lemma {:induction false} RunSeen<C>(v: Board<C>, ops: seq<Op<C>>, c: C)
    requires Ok(v) && AllDistinct(v, ops) && c in v.inboxes
    ensures Ok(Run(v, ops)) && c in Run(v, ops).inboxes
    ensures Seen(Run(v, ops).inboxes[c]) == Seen(v.inboxes[c]) + Got(v, ops, c)
    decreases |ops|
  {
    if ops == [] {
      assert Seen(v.inboxes[c]) + [] == Seen(v.inboxes[c]);
    } else {
      hide Ok, Apply, Receives, Seen;
      var v1, later := Apply(v, ops[0]), ops[1..];
      OkKept(v, ops[0]);
      StepSeen(v, ops[0], c);
      RunSeen(v1, later, c);
      assert Run(v, ops) == Run(v1, later);
      Appended(Seen(v.inboxes[c]), Seen(v1.inboxes[c]), Got(v1, later, c));
    }
  }

  // They are a subsequence of those meant for it, and all of them exactly when
  // its buffer was never full at one.
  lemma {:induction false} GotWithinMeant<C>(v: Board<C>, ops: seq<Op<C>>, c: C)
    requires Ok(v) && AllDistinct(v, ops) && c in v.inboxes
    ensures Subsequence(Got(v, ops, c), Meant(v, ops, c)) && |Got(v, ops, c)| <= |Meant(v, ops, c)|
    ensures Got(v, ops, c) == Meant(v, ops, c) <==> NeverFull(v, ops, c)
    ensures |Got(v, ops, c)| == |Meant(v, ops, c)| <==> NeverFull(v, ops, c)
    decreases |ops|
  {
    if ops != [] {
      OkKept(v, ops[0]);
      StepSeen(v, ops[0], c);
      hide Ok, Apply, Receives, Subsequence;
      var v1, later := Apply(v, ops[0]), ops[1..];
      GotWithinMeant(v1, later, c);
      var got, meant := Got(v1, later, c), Meant(v1, later, c);
      if ops[0].PublishOp? && Receives(v, c, ops[0].event) {
        GotGrows(ops[0].event, |v.inboxes[c].buffer| < v.inboxes[c].capacity, got, meant);
      } else {
        assert [] + got == got && [] + meant == meant;
      }
    }
  }

  // From its subscription on, a subscriber's channel has seen a subsequence of
  // what was meant for it, and everything unless it once was full.
  lemma SubscriberSees<C>(v: Board<C>, id: Id, filter: Filter, c: C, capacity: nat, ops: seq<Op<C>>)
    requires Ok(v) && id !in v.subs && c !in v.inboxes
    requires AllDistinct(Subscribed(v, id, filter, c, capacity), ops)
    ensures var start := Subscribed(v, id, filter, c, capacity);
      var end := Run(start, ops);
      && c in end.inboxes && |end.inboxes[c].buffer| <= capacity
      && Subsequence(end.inboxes[c].consumed + end.inboxes[c].buffer, Meant(start, ops, c))
      && (end.inboxes[c].consumed + end.inboxes[c].buffer == Meant(start, ops, c) <==> NeverFull(start, ops, c))
  {
    var start := Subscribed(v, id, filter, c, capacity);
    OkKept(v, SubscribeOp(id, filter, c, capacity));
    RunSeen(start, ops, c);
    GotWithinMeant(start, ops, c);
    CapacityStays(start, ops, c);
    assert [] + Got(start, ops, c) == Got(start, ops, c);
  }

  lemma {:induction false} CapacityStays<C>(v: Board<C>, ops: seq<Op<C>>, c: C)
    requires Ok(v) && AllDistinct(v, ops) && c in v.inboxes
    ensures c in Run(v, ops).inboxes && Run(v, ops).inboxes[c].capacity == v.inboxes[c].capacity
    ensures |Run(v, ops).inboxes[c].buffer| <= v.inboxes[c].capacity
    decreases |ops|
  {
    if ops != [] {
      OkKept(v, ops[0]);
      CapacityStays(Apply(v, ops[0]), ops[1..], c);
    }
  }

  // Offering the event to each matching subscriber once, in any order, is the
  // publish.
  lemma FanOutIsPublished<C>(before: Board<C>, after: Board<C>, e: Event)
    requires Ok(before) && after.subs == before.subs && after.inboxes.Keys == before.inboxes.Keys
    requires forall id :: id in before.subs ==>
      var c := before.subs[id].channel;
      c in before.inboxes && after.inboxes[c]
        == if Matches(before.subs[id].filter, e) then Offer(before.inboxes[c], e) else before.inboxes[c]
    requires forall c :: c in before.inboxes && (forall id :: id in before.subs ==> before.subs[id].channel != c) ==>
      after.inboxes[c] == before.inboxes[c]
    ensures after == Published(before, e)
  {
    forall c | c in before.inboxes ensures after.inboxes[c] == Published(before, e).inboxes[c] {
      if id :| id in before.subs && before.subs[id].channel == c {
        assert Receives(before, c, e) <==> Matches(before.subs[id].filter, e);
      }
    }
  }

  // ----- several publishes -----

  ghost function PublishedAll<C>(v: Board<C>, events: seq<Event>): Board<C> {
    if events == [] then v else Published(PublishedAll(v, events[..|events| - 1]), events[|events| - 1])
  }

  lemma {:induction false} PublishedConcat<C>(v: Board<C>, a: seq<Event>, b: seq<Event>)
    ensures PublishedAll(v, a + b) == PublishedAll(PublishedAll(v, a), b)
    decreases |b|
  {
    hide Published;
    if b == [] {
      assert a + b == a;
    } else {
      assert (a + b)[..|a + b| - 1] == a + b[..|b| - 1];
      PublishedConcat(v, a, b[..|b| - 1]);
    }
  }

  lemma PublishedOne<C>(v: Board<C>, e: Event)
    ensures PublishedAll(v, [e]) == Published(v, e)
  {
    assert [e][..0] == [];
  }

  // A subscriber that every one of the events matches, with room for them all,
  // finds exactly them at the end of its buffer.
  lemma {:induction false} RoomySubscriberSeesAll<C>(v: Board<C>, id: Id, events: seq<Event>)
    requires Ok(v) && id in v.subs
    requires forall e :: e in events ==> Matches(v.subs[id].filter, e)
    requires |v.inboxes[v.subs[id].channel].buffer| + |events| <= v.inboxes[v.subs[id].channel].capacity
    ensures var c, after := v.subs[id].channel, PublishedAll(v, events);
      && Ok(after) && after.subs == v.subs && c in after.inboxes
      && after.inboxes[c] == v.inboxes[c].(buffer := v.inboxes[c].buffer + events)
    decreases |events|
  {
    var c := v.subs[id].channel;
    if events == [] {
      assert v.inboxes[c].buffer + events == v.inboxes[c].buffer;
    } else {
      var init, last := events[..|events| - 1], events[|events| - 1];
      assert last in events && events == init + [last];
      RoomySubscriberSeesAll(v, id, init);
      var mid := PublishedAll(v, init);
      assert Receives(mid, c, last);
      OkKept(mid, PublishOp(last));
      assert v.inboxes[c].buffer + init + [last] == v.inboxes[c].buffer + events;
    }
  }

  // ----- the hub as an object -----

  class Channel {
    const capacity: nat
    var buffer: seq<Event>
    var closed: bool
    ghost var consumed: seq<Event>

    constructor (capacity: nat)
      ensures this.capacity == capacity && View() == Inbox(capacity, [], [], false)
    {
      this.capacity, buffer, closed, consumed := capacity, [], false, [];
    }

    ghost function View(): Inbox
      reads this
    {
      Inbox(capacity, buffer, consumed, closed)
    }

    // A send on a closed channel panics.
    method TrySend(e: Event)
      requires !closed
      modifies this`buffer
      ensures View() == Offer(old(View()), e)
    {
      if |buffer| < capacity {
        buffer := buffer + [e];
      }
    }

    // A closed channel still hands out what it holds.
    method Receive() returns (e: Option<Event>)
      modifies this`buffer, this`consumed
      ensures e == if old(buffer) == [] then None else Some(old(buffer)[0])
      ensures closed == old(closed)
      ensures buffer == if old(buffer) == [] then [] else old(buffer)[1..]
      ensures consumed + buffer == old(consumed + buffer)
    {
      if buffer == [] {
        return None;
      }
      e := Some(buffer[0]);
      consumed, buffer := consumed + [buffer[0]], buffer[1..];
    }
  }

  class Subscriber {
    const id: Id
    const filter: Filter
    const events: Channel

    constructor (id: Id, filter: Filter, events: Channel)
      ensures this.id == id && this.filter == filter && this.events == events
    {
      this.id, this.filter, this.events := id, filter, events;
    }
  }

  class Hub {
    var subscribers: map<Id, Subscriber>
    // Every channel a subscription ever brought.
    ghost var channels: set<Channel>

    constructor ()
      ensures subscribers == map[] && channels == {} && Valid()
    {
      subscribers, channels := map[], {};
    }

    ghost predicate Valid()
      reads this, channels
    {
      && (forall id :: id in subscribers ==> subscribers[id].events in channels)
      && Ok(View())
    }

    ghost function View(): Board<Channel>
      reads this, channels
    {
      Board(Subs(), Inboxes())
    }

    ghost function Subs(): map<Id, Sub<Channel>>
      reads this
    {
      map id | id in subscribers :: Sub(subscribers[id].filter, subscribers[id].events)
    }

    ghost function Inboxes(): map<Channel, Inbox>
      reads this, channels
    {
      map c | c in channels :: c.View()
    }

    method Subscribe(sub: Subscriber)
      requires Valid() && sub.id !in subscribers && sub.events !in channels
      requires sub.events.View() == Inbox(sub.events.capacity, [], [], false)
      modifies this
      ensures Valid() && channels == old(channels) + {sub.events}
      ensures View() == Subscribed(old(View()), sub.id, sub.filter, sub.events, sub.events.capacity)
    {
      hide Ok;
      ghost var before := View();
      ghost var after := Subscribed(before, sub.id, sub.filter, sub.events, sub.events.capacity);
      OkKept(before, SubscribeOp(sub.id, sub.filter, sub.events, sub.events.capacity));
      subscribers := subscribers[sub.id := sub];
      channels := channels + {sub.events};
      assert Subs() == after.subs by {
        hide Inboxes;
      }
      assert Inboxes() == after.inboxes by {
        hide Subs;
      }
      hide Subs, Inboxes;
    }

    method Unsubscribe(id: Id)
      requires Valid()
      modifies this`subscribers, channels`closed
      ensures Valid() && channels == old(channels)
      ensures View() == Unsubscribed(old(View()), id)
      ensures subscribers == old(subscribers) - {id}
      ensures id in old(subscribers) ==> old(subscribers)[id].events.closed
    {
      hide Ok;
      ghost var before := View();
      OkKept(before, UnsubscribeOp(id));
      if id !in subscribers {
        return;
      }
      ghost var c := subscribers[id].events;
      subscribers[id].events.closed := true;
      subscribers := subscribers - {id};
      assert Subs() == before.subs - {id} by {
        hide Inboxes;
      }
      assert Inboxes() == before.inboxes[c := before.inboxes[c].(closed := true)] by {
        hide Subs;
      }
      hide Subs, Inboxes;
    }

    ghost predicate OwnOpenChannels()
      reads this, channels
    {
      && (forall id :: id in subscribers ==> subscribers[id].events in channels && !subscribers[id].events.closed)
      && (forall a, b | a in subscribers && b in subscribers ::
            subscribers[a].events == subscribers[b].events ==> a == b)
    }

    lemma ValidChannels()
      requires Valid()
      ensures OwnOpenChannels()
    {
      var v := View();
      forall id | id in subscribers ensures !subscribers[id].events.closed {
        assert id in v.subs && v.inboxes[v.subs[id].channel] == subscribers[id].events.View();
      }
      forall a, b | a in subscribers && b in subscribers && subscribers[a].events == subscribers[b].events
        ensures a == b
      {
        assert v.subs[a].channel == v.subs[b].channel;
      }
    }

    // The map is ranged over in no particular order.
    method FanOut(event: Event)
      requires OwnOpenChannels()
      modifies channels`buffer
      ensures forall id :: id in subscribers ==>
        subscribers[id].events.View() == (if Matches(subscribers[id].filter, event)
          then Offer(old(subscribers[id].events.View()), event) else old(subscribers[id].events.View()))
      ensures forall c :: c in channels && (forall id :: id in subscribers ==> subscribers[id].events != c) ==>
        c.View() == old(c.View())
    {
      var todo := subscribers.Keys;
      while todo != {}
        invariant todo <= subscribers.Keys
        invariant forall id :: id in subscribers && id in todo ==>
          subscribers[id].events.View() == old(subscribers[id].events.View())
        invariant forall id :: id in subscribers && id !in todo ==>
          subscribers[id].events.View() == (if Matches(subscribers[id].filter, event)
            then Offer(old(subscribers[id].events.View()), event) else old(subscribers[id].events.View()))
        invariant forall c :: c in channels && (forall id :: id in subscribers ==> subscribers[id].events != c) ==>
          c.View() == old(c.View())
        decreases todo
      {
        var id :| id in todo;
        var sub := subscribers[id];
        if Matches(sub.filter, event) {
          sub.events.TrySend(event);
        }
        todo := todo - {id};
      }
    }

    method Publish(event: Event)
      requires Valid()
      modifies channels`buffer
      ensures Valid()
      ensures View() == Published(old(View()), event)
      ensures forall id :: id in subscribers ==>
        var (f, x) := (subscribers[id].filter, subscribers[id].events);
        var wanted := (f.notificationId != NO_ID ==> event.notificationId == f.notificationId)
                      && (f.serviceId != NO_ID ==> event.serviceId == f.serviceId);
        x.buffer == old(x.buffer) + if wanted && |old(x.buffer)| < x.capacity then [event] else []
    {
      ghost var before := View();
      ValidChannels();
      FanOut(event);
      assert forall id :: id in subscribers ==> subscribers[id].events.View().buffer == subscribers[id].events.buffer;
      hide Offer, Matches, Published;
      forall c | c in before.inboxes && (forall id :: id in before.subs ==> before.subs[id].channel != c)
        ensures View().inboxes[c] == before.inboxes[c]
      {
        forall id | id in subscribers ensures subscribers[id].events != c {
          assert id in before.subs && before.subs[id].channel == subscribers[id].events;
        }
      }
      FanOutIsPublished(before, View(), event);
      OkKept(before, PublishOp(event));
    }
  }
}
